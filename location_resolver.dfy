/** The landing view's location logic (`getLocation`, `getNetworkLocation`, the accuracy
    bands, the manual override and `handleProceed`): GPS first, the IP-based network
    lookup only when GPS fails, and a retryable error when both fail. */
module LocationResolver {
  import opened Maybe
  import opened Geo
  import opened GpsSampler

  /** The accuracy given to a network-derived location, which carries none of its own. */
  const NetworkAccuracy: real := 1000.0
  /** The accuracy forced by "Set Location" in the manual override panel. */
  const ManualAccuracy: real := 10.0
  /** Above this accuracy a location counts as low-confidence. */
  const LowConfidenceAccuracy: real := 200.0

  const DetectionFailedMessage: string :=
    "Unable to detect location automatically. Please enable location access or try again."

  datatype LocationMethod = Gps | Network

  /** What the IP-geolocation lookup produced: the request or the JSON decoding failed,
      or a body whose `latitude`/`longitude` fields may be absent. */
  datatype NetworkReply = Unreachable | Body(latitude: Option<real>, longitude: Option<real>)

  /** `getNetworkLocation`: a location only when both coordinates are truthy, so a
      zero coordinate counts as a failure like a missing one. */
  function NetworkLocation(reply: NetworkReply): (r: Option<Coord>)
    ensures r.Some? <==> reply.Body? && Truthy(reply.latitude) && Truthy(reply.longitude)
    ensures r.Some? ==> r.value.latitude == reply.latitude.value && r.value.longitude == reply.longitude.value
  {
    match reply
    case Unreachable => None
    case Body(lat, lon) =>
      if Truthy(lat) && Truthy(lon) then Some(Coord(lat.value, lon.value)) else None
  }

  /** A zero or missing coordinate fails the lookup like an unreachable service. */
  lemma ZeroCoordinateFails(latitude: Option<real>, longitude: Option<real>)
    ensures NetworkLocation(Body(Some(0.0), longitude)).None?
    ensures NetworkLocation(Body(latitude, Some(0.0))).None?
    ensures NetworkLocation(Body(None, longitude)).None? && NetworkLocation(Body(latitude, None)).None?
  {
  }

  /** Every location away from the equator and the prime meridian is recovered from a
      body that reports it, and every location the lookup yields is one of those. */
  lemma NetworkLocationRoundTrip(c: Coord, reply: NetworkReply)
    ensures c.latitude != 0.0 && c.longitude != 0.0 ==>
              NetworkLocation(Body(Some(c.latitude), Some(c.longitude))) == Some(c)
    ensures NetworkLocation(reply) == Some(c) ==>
              && c.latitude != 0.0 && c.longitude != 0.0
              && reply == Body(Some(c.latitude), Some(c.longitude))
  {
  }

  /** How one `getLocation` run ends. */
  datatype Resolution = ByGps(fix: Fix) | ByNetwork(coord: Coord) | Unresolved

  /** The fallback order of `getLocation`: the GPS outcome decides unless it failed;
      only then does the network reply matter. */
  function Resolve(gps: Settlement, net: NetworkReply): (r: Resolution)
    ensures r.ByGps? <==> gps.Resolved?
    ensures r.ByGps? ==> r.fix == gps.fix
    ensures r.ByNetwork? <==> gps.Rejected? && NetworkLocation(net).Some?
    ensures r.ByNetwork? ==> Some(r.coord) == NetworkLocation(net)
    ensures r.Unresolved? <==> gps.Rejected? && NetworkLocation(net).None?
  {
    match gps
    case Resolved(fix) => ByGps(fix)
    case Rejected(_) =>
      match NetworkLocation(net)
      case Some(c) => ByNetwork(c)
      case None => Unresolved
  }

  /** Once GPS has resolved, the network reply makes no difference; once it has failed,
      the reason for the failure makes none. */
  lemma ResolveIgnoresTheOtherSource(fix: Fix, f1: Failure, f2: Failure, n1: NetworkReply, n2: NetworkReply)
    ensures Resolve(Resolved(fix), n1) == Resolve(Resolved(fix), n2) == ByGps(fix)
    ensures Resolve(Rejected(f1), n1) == Resolve(Rejected(f2), n1)
  {
  }

  /** Whatever location a run of the sampler followed by the fallback yields is either a
      GPS fix at most 50 m inaccurate or a network location with non-zero coordinates. */
  lemma ResolvedLocationTrustworthy(supported: bool, events: seq<Event>, canClearWatch: bool, net: NetworkReply)
    requires Run(Begin(supported), events, canClearWatch).settled.Some?
    ensures var r := Resolve(Run(Begin(supported), events, canClearWatch).settled.value, net);
            && (r.ByGps? ==> r.fix.accuracy <= AcceptedAccuracy)
            && (r.ByNetwork? ==> r.coord.latitude != 0.0 && r.coord.longitude != 0.0)
  {
    if Run(Begin(supported), events, canClearWatch).settled.value.Resolved? {
      ResolvedFixIsConfident(supported, events, canClearWatch);
    }
  }

  /** The four accuracy bands, best first. */
  datatype Band = Excellent | Good | Fair | Poor

  /** The bands by their inclusive upper bounds 10, 50 and 100 metres. */
  function BandOf(acc: real): Band
  {
    if acc <= 10.0 then Excellent
    else if acc <= 50.0 then Good
    else if acc <= 100.0 then Fair
    else Poor
  }

  function Rank(b: Band): nat
  {
    match b
    case Excellent => 0
    case Good => 1
    case Fair => 2
    case Poor => 3
  }

  /** A less accurate reading never lands in a better band. */
  lemma BandMonotone(a: real, b: real)
    requires a <= b
    ensures Rank(BandOf(a)) <= Rank(BandOf(b))
  {
  }

  /** The band boundaries are inclusive upper bounds. */
  lemma BandExamples()
    ensures AccuracyText(10.0) == "Excellent" && AccuracyText(10.0001) == "Good"
    ensures AccuracyText(50.0) == "Good" && AccuracyText(100.0) == "Fair"
    ensures AccuracyText(100.0001) == "Poor"
  {
  }

  /** `getAccuracyText`. */
  function AccuracyText(acc: real): (t: string)
    ensures t == "Excellent" <==> BandOf(acc) == Excellent
    ensures t == "Good" <==> BandOf(acc) == Good
    ensures t == "Fair" <==> BandOf(acc) == Fair
    ensures t == "Poor" <==> BandOf(acc) == Poor
  {
    if acc <= 10.0 then "Excellent"
    else if acc <= 50.0 then "Good"
    else if acc <= 100.0 then "Fair"
    else "Poor"
  }

  /** The two snapshots colour the bands with different Tailwind shades. */
  datatype Palette =
    | Shade500  // src/App.jsx
    | Shade400  // droplr-frontend/src/App.jsx

  /** `getAccuracyColor`, as each snapshot writes it. */
  function AccuracyColor(acc: real, p: Palette): (c: string)
    ensures p == Shade500 ==>
              && (c == "text-green-500" <==> BandOf(acc) == Excellent)
              && (c == "text-yellow-500" <==> BandOf(acc) == Good)
              && (c == "text-orange-500" <==> BandOf(acc) == Fair)
              && (c == "text-red-500" <==> BandOf(acc) == Poor)
    ensures p == Shade400 ==>
              && (c == "text-green-400" <==> BandOf(acc) == Excellent)
              && (c == "text-yellow-400" <==> BandOf(acc) == Good)
              && (c == "text-orange-400" <==> BandOf(acc) == Fair)
              && (c == "text-red-400" <==> BandOf(acc) == Poor)
  {
    match p
    case Shade500 =>
      if acc <= 10.0 then "text-green-500"
      else if acc <= 50.0 then "text-yellow-500"
      else if acc <= 100.0 then "text-orange-500"
      else "text-red-500"
    case Shade400 =>
      if acc <= 10.0 then "text-green-400"
      else if acc <= 50.0 then "text-yellow-400"
      else if acc <= 100.0 then "text-orange-400"
      else "text-red-400"
  }

  /** The text and the colour use the same thresholds: two accuracies get the same text
      exactly when they get the same colour. */
  lemma TextAndColorAgree(a: real, b: real, p: Palette)
    ensures AccuracyText(a) == AccuracyText(b) <==> AccuracyColor(a, p) == AccuracyColor(b, p)
  {
  }

  /** What `handleProceed` passes to the drop zone. */
  datatype NavigationState = NavigationState(latitude: real, longitude: real, accuracy: Option<real>, locationMethod: Option<LocationMethod>)

  /** The state of the landing view. `locationHistory` is written but never read, and
      is left out. */
  class Home {
    var location: Option<Coord>
    var error: Option<string>
    var loading: bool
    var navigating: bool
    var accuracy: Option<real>
    var locationMethod: Option<LocationMethod>

    /** The location, its accuracy and its method are set together. */
    ghost predicate Valid()
      reads this
    {
      && (location.Some? <==> accuracy.Some?)
      && (location.Some? <==> locationMethod.Some?)
    }

    /** The initial `useState` values. */
    constructor ()
      ensures Valid()
      ensures location.None? && error.None? && loading && !navigating
    {
      location, error, loading, navigating := None, None, true, false;
      accuracy, locationMethod := None, None;
    }

    /** `getLocation`, given how the GPS sampler settled and what the network lookup
        would return; `queriedNetwork` tells whether the lookup was made at all. */
    method GetLocation(gps: Settlement, net: NetworkReply) returns (queriedNetwork: bool)
      requires Valid()
      modifies this`loading, this`error, this`location, this`accuracy, this`locationMethod
      ensures Valid()
      ensures queriedNetwork <==> gps.Rejected?
      ensures !loading
      ensures Resolve(gps, net).ByGps? ==>
                && locationMethod == Some(Gps) && location == Some(gps.fix.location)
                && accuracy == Some(gps.fix.accuracy) && error.None?
      ensures Resolve(gps, net).ByNetwork? ==>
                && locationMethod == Some(Network) && location == NetworkLocation(net)
                && accuracy == Some(NetworkAccuracy) && error.None?
      ensures Resolve(gps, net).Unresolved? ==>
                && error == Some(DetectionFailedMessage)
                && location == old(location) && accuracy == old(accuracy)
                && locationMethod == old(locationMethod)
    {
      loading := true;
      error := None;
      queriedNetwork := false;
      if gps.Resolved? {
        locationMethod := Some(Gps);
        location := Some(gps.fix.location);
        accuracy := Some(gps.fix.accuracy);
        loading := false;
        return;
      }
      queriedNetwork := true;
      var networkLocation := NetworkLocation(net);
      if networkLocation.Some? {
        locationMethod := Some(Network);
        location := networkLocation;
        accuracy := Some(NetworkAccuracy);
        loading := false;
        return;
      }
      error := Some(DetectionFailedMessage);
      loading := false;
    }

    /** The manual override panel is shown when loading is over, a location exists and
        it came from the network or is more than 200 m inaccurate. */
    predicate ShowOverride()
      reads this
    {
      !loading && location.Some? &&
      (locationMethod == Some(Network) || (accuracy.Some? && accuracy.value > LowConfidenceAccuracy))
    }

    /** The latitude field of the override panel (shown only with a location). */
    method EditLatitude(v: real)
      requires Valid() && ShowOverride()
      modifies this`location
      ensures Valid()
      ensures location == Some(old(location).value.(latitude := v))
    {
      location := Some(location.value.(latitude := v));
    }

    /** The longitude field of the override panel. */
    method EditLongitude(v: real)
      requires Valid() && ShowOverride()
      modifies this`location
      ensures Valid()
      ensures location == Some(old(location).value.(longitude := v))
    {
      location := Some(location.value.(longitude := v));
    }

    /** "Set Location": the entered coordinates count as high-confidence; the method
        is left as it was. */
    method SetManualLocation()
      requires Valid() && ShowOverride()
      modifies this`accuracy
      ensures Valid()
      ensures accuracy == Some(ManualAccuracy)
    {
      accuracy := Some(ManualAccuracy);
    }

    /** `handleProceed`: nothing without a location; otherwise mark the view as
        navigating and hand over exactly the current coordinates, accuracy and method. */
    method HandleProceed() returns (nav: Option<NavigationState>)
      requires Valid()
      modifies this`navigating
      ensures old(location).None? ==> nav.None? && navigating == old(navigating)
      ensures old(location).Some? ==>
                && navigating
                && nav == Some(NavigationState(location.value.latitude, location.value.longitude, accuracy, locationMethod))
                && nav.value.accuracy.Some? && nav.value.locationMethod.Some?
    {
      if location.None? {
        return None;
      }
      navigating := true;
      nav := Some(NavigationState(location.value.latitude, location.value.longitude, accuracy, locationMethod));
    }
  }

  /** The mount effect of the landing view: one `getLocation` run. After a run that fell
      back to the network the override panel is offered; after a
      run resolved by the sampler it is not, because sampled fixes are at most 50 m off. */
  method DetectOnMount(supported: bool, canClearWatch: bool, events: seq<Event>, net: NetworkReply)
    returns (settled: bool, offered: bool)
    ensures settled <==> Run(Begin(supported), events, canClearWatch).settled.Some?
    ensures settled && Resolve(Run(Begin(supported), events, canClearWatch).settled.value, net).ByGps? ==> !offered
    ensures settled && Resolve(Run(Begin(supported), events, canClearWatch).settled.value, net).ByNetwork? ==> offered
  {
    var outcome := AcquireFix(supported, canClearWatch, events);
    settled, offered := outcome.Some?, false;
    if outcome.Some? {
      if outcome.value.Resolved? {
        ResolvedFixIsConfident(supported, events, canClearWatch);
      }
      var home := new Home();
      var _ := home.GetLocation(outcome.value, net);
      offered := home.ShowOverride();
    }
  }
}
