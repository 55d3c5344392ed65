/** The GPS sampler behind `getGPSLocation`: a promise that subscribes to the host's
    position stream, keeps readings at most 50 m inaccurate, settles on the third one
    with their average, and at a 15-second deadline settles with the average of what
    it has or fails with a timeout.

    The host's `watchPosition` callbacks and the deadline timer are modelled as events
    delivered to the sampler; the watch and the timer are "active" flags. The host
    delivers readings and stream errors only while the watch is active and the deadline
    only while the timer is active. `canClearWatch` says whether the host offers
    `clearWatch`: the source clears the watch only when it does. */
module GpsSampler {
  import opened Maybe
  import opened Geo

  /** Readings less accurate than this (a larger radius) are discarded. */
  const AcceptedAccuracy: real := 50.0
  /** The number of accepted readings that settles the sampler early. */
  const ReadingsNeeded: nat := 3

  datatype Event =
    | Position(reading: Reading)  // a reading from the position stream
    | StreamError                 // the stream's error callback
    | Deadline                    // the 15-second timer fires

  datatype Failure = Unsupported | Timeout | StreamFailed

  /** How the promise settled. */
  datatype Settlement = Resolved(fix: Fix) | Rejected(failure: Failure)

  /** The closure state of one `getGPSLocation` call: the accepted readings, whether
      the watch and the deadline timer are active, and the promise's settlement. */
  datatype State = State(readings: seq<Reading>, watching: bool, timing: bool, settled: Option<Settlement>)

  predicate Accepts(r: Reading)
  {
    r.accuracy <= AcceptedAccuracy
  }

  /** A promise settles once; later `resolve`/`reject` calls have no effect. */
  function Settle(s: Option<Settlement>, v: Settlement): Option<Settlement>
  {
    if s.Some? then s else Some(v)
  }

  /** What holds between events: until settlement the watch and the timer run and fewer
      than three readings are held; after it the timer is gone and (when the host can
      clear it) so is the watch; every held reading is accepted and every fix the
      sampler resolves with is at most 50 m inaccurate. */
  ghost predicate Consistent(s: State, canClearWatch: bool)
  {
    && (forall i :: 0 <= i < |s.readings| ==> Accepts(s.readings[i]))
    && (s.settled.None? ==> s.watching && s.timing && |s.readings| < ReadingsNeeded)
    && (s.settled.Some? ==> !s.timing && (canClearWatch ==> !s.watching))
    && (s.settled.Some? && s.settled.value.Resolved? ==> s.settled.value.fix.accuracy <= AcceptedAccuracy)
  }

  /** The promise executor: without a positioning capability it rejects at once and
      subscribes to nothing; otherwise the watch and the deadline timer start. */
  function Begin(supported: bool): (s: State)
    ensures !supported ==> s.settled == Some(Rejected(Unsupported)) && !s.watching && !s.timing
    ensures supported ==> s.settled.None? && s.watching && s.timing && s.readings == []
    ensures Consistent(s, true) && Consistent(s, false)
  {
    if supported then State([], true, true, None)
    else State([], false, false, Some(Rejected(Unsupported)))
  }

  /** `processLocation`. */
  function OnPosition(s: State, r: Reading, canClearWatch: bool): (t: State)
    ensures !s.watching || !Accepts(r) ==> t == s
    ensures s.watching && Accepts(r) ==> t.readings == s.readings + [r]
    ensures s.settled.Some? ==> t.settled == s.settled
    ensures s.settled.None? && s.watching && Accepts(r) && |s.readings| + 1 < ReadingsNeeded ==>
              t == s.(readings := s.readings + [r])
    ensures s.watching && Accepts(r) && |s.readings| + 1 >= ReadingsNeeded ==>
              && t.settled == Settle(s.settled, Resolved(AverageFix(s.readings + [r])))
              && !t.timing && (canClearWatch ==> !t.watching)
  {
    if !s.watching || !Accepts(r) then s
    else
      var rs := s.readings + [r];
      if |rs| >= ReadingsNeeded then
        State(rs, s.watching && !canClearWatch, false, Settle(s.settled, Resolved(AverageFix(rs))))
      else
        s.(readings := rs)
  }

  /** `handleError`. */
  function OnStreamError(s: State, canClearWatch: bool): (t: State)
    ensures !s.watching ==> t == s
    ensures s.watching ==> t.settled == Settle(s.settled, Rejected(StreamFailed)) && !t.timing
                           && (canClearWatch ==> !t.watching) && t.readings == s.readings
  {
    if !s.watching then s
    else State(s.readings, s.watching && !canClearWatch, false, Settle(s.settled, Rejected(StreamFailed)))
  }

  /** The callback of the 15-second timer. */
  function OnDeadline(s: State, canClearWatch: bool): (t: State)
    ensures !s.timing ==> t == s
    ensures s.timing && |s.readings| > 0 ==> t.settled == Settle(s.settled, Resolved(AverageFix(s.readings)))
    ensures s.timing && |s.readings| == 0 ==> t.settled == Settle(s.settled, Rejected(Timeout))
    ensures s.timing ==> !t.timing && (canClearWatch ==> !t.watching) && t.readings == s.readings
  {
    if !s.timing then s
    else if |s.readings| > 0 then
      State(s.readings, s.watching && !canClearWatch, false, Settle(s.settled, Resolved(AverageFix(s.readings))))
    else
      State(s.readings, s.watching && !canClearWatch, false, Settle(s.settled, Rejected(Timeout)))
  }

  function Step(s: State, e: Event, canClearWatch: bool): State
  {
    match e
    case Position(r) => OnPosition(s, r, canClearWatch)
    case StreamError => OnStreamError(s, canClearWatch)
    case Deadline => OnDeadline(s, canClearWatch)
  }

  /** Every event keeps the between-events invariant. */
  lemma StepConsistent(s: State, e: Event, canClearWatch: bool)
    requires Consistent(s, canClearWatch)
    ensures Consistent(Step(s, e, canClearWatch), canClearWatch)
  {
    match e
    case Position(r) =>
      if s.watching && Accepts(r) && |s.readings| + 1 >= ReadingsNeeded {
        assert forall i :: 0 <= i < |s.readings| + 1 ==> Accepts((s.readings + [r])[i]);
        AverageAccuracyBounded(s.readings + [r], AcceptedAccuracy);
      }
    case StreamError =>
    case Deadline =>
      if s.timing && |s.readings| > 0 {
        AverageAccuracyBounded(s.readings, AcceptedAccuracy);
      }
  }

  /** The state after the host delivered `es`, in order. */
  function Run(s: State, es: seq<Event>, canClearWatch: bool): State
  {
    if |es| == 0 then s else Step(Run(s, es[..|es| - 1], canClearWatch), es[|es| - 1], canClearWatch)
  }

  /** Delivering `a` and then `b` is delivering `a + b`. */
  lemma {:induction false} RunAppend(s: State, a: seq<Event>, b: seq<Event>, canClearWatch: bool)
    ensures Run(s, a + b, canClearWatch) == Run(Run(s, a, canClearWatch), b, canClearWatch)
  {
    if |b| > 0 {
      assert (a + b)[..|a + b| - 1] == a + b[..|b| - 1];
      RunAppend(s, a, b[..|b| - 1], canClearWatch);
    } else {
      assert a + b == a;
    }
  }

  /** The between-events invariant holds after any sequence of events. */
  lemma {:induction false} RunConsistent(supported: bool, es: seq<Event>, canClearWatch: bool)
    ensures Consistent(Run(Begin(supported), es, canClearWatch), canClearWatch)
  {
    if |es| > 0 {
      RunConsistent(supported, es[..|es| - 1], canClearWatch);
      StepConsistent(Run(Begin(supported), es[..|es| - 1], canClearWatch), es[|es| - 1], canClearWatch);
    }
  }

  /** A location the sampler resolves with is never more than 50 m inaccurate. */
  lemma ResolvedFixIsConfident(supported: bool, es: seq<Event>, canClearWatch: bool)
    requires Run(Begin(supported), es, canClearWatch).settled.Some?
    requires Run(Begin(supported), es, canClearWatch).settled.value.Resolved?
    ensures Run(Begin(supported), es, canClearWatch).settled.value.fix.accuracy <= AcceptedAccuracy
  {
    RunConsistent(supported, es, canClearWatch);
  }

  /** Once the promise has settled, no later event changes how it settled. */
  lemma {:induction false} SettledStaysSettled(s: State, es: seq<Event>, canClearWatch: bool)
    requires s.settled.Some?
    ensures Run(s, es, canClearWatch).settled == s.settled
  {
    if |es| > 0 {
      SettledStaysSettled(s, es[..|es| - 1], canClearWatch);
    }
  }

  /** Exactly one settlement: whatever a prefix of the events settled on is final. */
  lemma SingleSettlement(s: State, a: seq<Event>, b: seq<Event>, canClearWatch: bool)
    requires Run(s, a, canClearWatch).settled.Some?
    ensures Run(s, a + b, canClearWatch).settled == Run(s, a, canClearWatch).settled
  {
    RunAppend(s, a, b, canClearWatch);
    SettledStaysSettled(Run(s, a, canClearWatch), b, canClearWatch);
  }

  /** Without a positioning capability nothing is subscribed, so no event changes anything. */
  lemma {:induction false} UnsupportedNeverSubscribes(es: seq<Event>, canClearWatch: bool)
    ensures Run(Begin(false), es, canClearWatch) == Begin(false)
  {
    if |es| > 0 {
      UnsupportedNeverSubscribes(es[..|es| - 1], canClearWatch);
    }
  }

  /** The events with every rejected reading taken out. */
  function WithoutRejected(es: seq<Event>): (r: seq<Event>)
    ensures |r| <= |es|
  {
    if |es| == 0 then []
    else
      var e := es[|es| - 1];
      if e.Position? && !Accepts(e.reading) then WithoutRejected(es[..|es| - 1])
      else WithoutRejected(es[..|es| - 1]) + [e]
  }

  /** Readings more than 50 m inaccurate never affect the state, hence never the result. */
  lemma {:induction false} RejectedReadingsIrrelevant(s: State, es: seq<Event>, canClearWatch: bool)
    ensures Run(s, es, canClearWatch) == Run(s, WithoutRejected(es), canClearWatch)
  {
    if |es| > 0 {
      var init, e := es[..|es| - 1], es[|es| - 1];
      RejectedReadingsIrrelevant(s, init, canClearWatch);
      if !(e.Position? && !Accepts(e.reading)) {
        var w := WithoutRejected(init) + [e];
        assert w[..|w| - 1] == WithoutRejected(init);
      }
    }
  }

  /** Only readings arrive: no stream error and no deadline. */
  predicate OnlyPositions(es: seq<Event>)
  {
    forall i :: 0 <= i < |es| ==> es[i].Position?
  }

  /** The accepted readings among `es`, in order of arrival. */
  function Accepted(es: seq<Event>): (rs: seq<Reading>)
    ensures |rs| <= |es|
    ensures forall i :: 0 <= i < |rs| ==> Accepts(rs[i])
  {
    if |es| == 0 then []
    else
      var e := es[|es| - 1];
      if e.Position? && Accepts(e.reading) then Accepted(es[..|es| - 1]) + [e.reading]
      else Accepted(es[..|es| - 1])
  }

  /** Before the third accepted reading the sampler only collects. */
  lemma {:induction false} CollectsUntilThird(es: seq<Event>, canClearWatch: bool)
    requires OnlyPositions(es)
    requires |Accepted(es)| < ReadingsNeeded
    ensures Run(Begin(true), es, canClearWatch) == State(Accepted(es), true, true, None)
  {
    if |es| > 0 {
      CollectsUntilThird(es[..|es| - 1], canClearWatch);
    }
  }

  /** On the third accepted reading the sampler resolves with the mean latitude, longitude
      and accuracy of exactly those three readings and clears the timer and the watch. */
  lemma {:induction false} SettlesOnThird(es: seq<Event>, canClearWatch: bool)
    requires OnlyPositions(es)
    requires |Accepted(es)| >= ReadingsNeeded
    ensures var t := Run(Begin(true), es, canClearWatch);
            && t.settled == Some(Resolved(AverageFix(Accepted(es)[..ReadingsNeeded])))
            && !t.timing && (canClearWatch ==> !t.watching)
  {
    var init, e := es[..|es| - 1], es[|es| - 1];
    assert OnlyPositions(init);
    if |Accepted(init)| >= ReadingsNeeded {
      SettlesOnThird(init, canClearWatch);
      assert Accepted(es)[..ReadingsNeeded] == Accepted(init)[..ReadingsNeeded];
    } else {
      CollectsUntilThird(init, canClearWatch);
      assert Accepted(es)[..ReadingsNeeded] == Accepted(es);
    }
  }

  /** At the deadline, before three readings were accepted, the sampler resolves with the
      mean of the readings it has or, with none, rejects with a timeout; the watch goes. */
  lemma DeadlineSettles(es: seq<Event>, canClearWatch: bool)
    requires OnlyPositions(es)
    requires |Accepted(es)| < ReadingsNeeded
    ensures var t := Run(Begin(true), es + [Deadline], canClearWatch);
            && (|Accepted(es)| > 0 ==> t.settled == Some(Resolved(AverageFix(Accepted(es)))))
            && (|Accepted(es)| == 0 ==> t.settled == Some(Rejected(Timeout)))
            && !t.timing && (canClearWatch ==> !t.watching)
  {
    CollectsUntilThird(es, canClearWatch);
    assert (es + [Deadline])[..|es|] == es;
  }

  /** A stream error before settlement rejects and clears both the timer and the watch. */
  lemma StreamErrorRejects(es: seq<Event>, canClearWatch: bool)
    requires OnlyPositions(es)
    requires |Accepted(es)| < ReadingsNeeded
    ensures var t := Run(Begin(true), es + [StreamError], canClearWatch);
            && t.settled == Some(Rejected(StreamFailed))
            && !t.timing && (canClearWatch ==> !t.watching)
  {
    CollectsUntilThird(es, canClearWatch);
    assert (es + [StreamError])[..|es|] == es;
  }

  /** The variables of one `getGPSLocation` call, updated in place by its callbacks. */
  class Sampler {
    const canClearWatch: bool
    var readings: seq<Reading>
    var watching: bool
    var timing: bool
    var settled: Option<Settlement>

    function Snapshot(): State
      reads this
    {
      State(readings, watching, timing, settled)
    }

    ghost predicate Valid()
      reads this
    {
      Consistent(Snapshot(), canClearWatch)
    }

    /** The promise executor. */
    constructor (supported: bool, canClearWatch: bool)
      ensures this.canClearWatch == canClearWatch
      ensures Snapshot() == Begin(supported)
      ensures Valid()
    {
      this.canClearWatch := canClearWatch;
      readings := [];
      if supported {
        watching, timing, settled := true, true, None;
      } else {
        watching, timing, settled := false, false, Some(Rejected(Unsupported));
      }
    }

    /** `processLocation`, called by the host with a new reading. */
    method OnReading(r: Reading)
      requires Valid()
      modifies this
      ensures Valid()
      ensures Snapshot() == OnPosition(old(Snapshot()), r, canClearWatch)
    {
      StepConsistent(Snapshot(), Position(r), canClearWatch);
      if watching && Accepts(r) {
        readings := readings + [r];
        if |readings| >= ReadingsNeeded {
          var fix := AverageFix(readings);
          if canClearWatch {
            watching := false;
          }
          timing := false;
          settled := Settle(settled, Resolved(fix));
        }
      }
    }

    /** `handleError`, called by the host when the stream fails. */
    method OnError()
      requires Valid()
      modifies this
      ensures Valid()
      ensures Snapshot() == OnStreamError(old(Snapshot()), canClearWatch)
    {
      if watching {
        if canClearWatch {
          watching := false;
        }
        timing := false;
        settled := Settle(settled, Rejected(StreamFailed));
      }
    }

    /** The timer callback, run by the host 15 seconds after the start. */
    method OnTimeout()
      requires Valid()
      modifies this
      ensures Valid()
      ensures Snapshot() == OnDeadline(old(Snapshot()), canClearWatch)
    {
      if timing {
        var outcome;
        if |readings| > 0 {
          outcome := Resolved(AverageFix(readings));
        } else {
          outcome := Rejected(Timeout);
        }
        if canClearWatch {
          watching := false;
        }
        timing := false;
        settled := Settle(settled, outcome);
      }
    }
  }

  /** One `getGPSLocation` call: start the sampler, let the host deliver `events` in
      order, and report how the promise settled (None while it is still pending). */
  method AcquireFix(supported: bool, canClearWatch: bool, events: seq<Event>) returns (outcome: Option<Settlement>)
    ensures outcome == Run(Begin(supported), events, canClearWatch).settled
  {
    var sampler := new Sampler(supported, canClearWatch);
    var i := 0;
    while i < |events|
      invariant 0 <= i <= |events|
      invariant sampler.canClearWatch == canClearWatch
      invariant sampler.Valid()
      invariant sampler.Snapshot() == Run(Begin(supported), events[..i], canClearWatch)
    {
      ghost var before := sampler.Snapshot();
      match events[i] {
        case Position(r) => sampler.OnReading(r);
        case StreamError => sampler.OnError();
        case Deadline => sampler.OnTimeout();
      }
      assert sampler.Snapshot() == Step(before, events[i], canClearWatch);
      assert events[..i + 1][..i] == events[..i];
      i := i + 1;
    }
    assert events[..|events|] == events;
    outcome := sampler.settled;
  }
}
