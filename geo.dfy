/** Readings from the positioning capability and their averages
    (`calculateAverageLocation` and the accuracy average beside it). */
module Geo {
  import opened Maybe

  datatype Coord = Coord(latitude: real, longitude: real)

  /** One position reading; `accuracy` is the radius of uncertainty in metres. */
  datatype Reading = Reading(latitude: real, longitude: real, accuracy: real)

  /** The averaged outcome of a sampling run: a location and its mean accuracy. */
  datatype Fix = Fix(location: Coord, accuracy: real)

  /** The three quantities that are averaged, one at a time. */
  datatype Axis = Latitude | Longitude | Accuracy

  function Get(r: Reading, ax: Axis): real
  {
    match ax
    case Latitude => r.latitude
    case Longitude => r.longitude
    case Accuracy => r.accuracy
  }

  /** `readings.reduce((sum, loc) => sum + loc.<axis>, 0)`. */
  function SumOf(rs: seq<Reading>, ax: Axis): real
  {
    if |rs| == 0 then 0.0 else SumOf(rs[..|rs| - 1], ax) + Get(rs[|rs| - 1], ax)
  }

  function MeanOf(rs: seq<Reading>, ax: Axis): real
    requires |rs| > 0
  {
    SumOf(rs, ax) / (|rs| as real)
  }

  function Lowest(rs: seq<Reading>, ax: Axis): (lo: real)
    requires |rs| > 0
    ensures forall i :: 0 <= i < |rs| ==> lo <= Get(rs[i], ax)
    ensures exists i :: 0 <= i < |rs| && lo == Get(rs[i], ax)
  {
    if |rs| == 1 then Get(rs[0], ax)
    else
      var init := Lowest(rs[..|rs| - 1], ax);
      var last := Get(rs[|rs| - 1], ax);
      assert forall i :: 0 <= i < |rs| - 1 ==> rs[..|rs| - 1][i] == rs[i];
      if last < init then last else init
  }

  function Highest(rs: seq<Reading>, ax: Axis): (hi: real)
    requires |rs| > 0
    ensures forall i :: 0 <= i < |rs| ==> Get(rs[i], ax) <= hi
    ensures exists i :: 0 <= i < |rs| && hi == Get(rs[i], ax)
  {
    if |rs| == 1 then Get(rs[0], ax)
    else
      var init := Highest(rs[..|rs| - 1], ax);
      var last := Get(rs[|rs| - 1], ax);
      assert forall i :: 0 <= i < |rs| - 1 ==> rs[..|rs| - 1][i] == rs[i];
      if last > init then last else init
  }

  /** Bounds on every element bound the sum. */
  lemma {:induction false} SumBetween(rs: seq<Reading>, ax: Axis, lo: real, hi: real)
    requires forall i :: 0 <= i < |rs| ==> lo <= Get(rs[i], ax) <= hi
    ensures lo * (|rs| as real) <= SumOf(rs, ax) <= hi * (|rs| as real)
  {
    if |rs| > 0 {
      var init := rs[..|rs| - 1];
      assert forall i :: 0 <= i < |init| ==> init[i] == rs[i];
      SumBetween(init, ax, lo, hi);
      var n := |init| as real;
      assert |rs| as real == n + 1.0;
      assert lo * (n + 1.0) == lo * n + lo && hi * (n + 1.0) == hi * n + hi;
    }
  }

  /** A quantity between `lo * n` and `hi * n`, divided by a positive `n`, lies
      between `lo` and `hi`. */
  lemma DivideBetween(lo: real, hi: real, sum: real, n: real)
    requires n > 0.0
    requires lo * n <= sum <= hi * n
    ensures lo <= sum / n <= hi
  {
    assert sum / n - lo == (sum - lo * n) / n;
    assert hi - sum / n == (hi * n - sum) / n;
  }

  /** Bounds on every element bound the mean. */
  lemma MeanBetween(rs: seq<Reading>, ax: Axis, lo: real, hi: real)
    requires |rs| > 0
    requires forall i :: 0 <= i < |rs| ==> lo <= Get(rs[i], ax) <= hi
    ensures lo <= MeanOf(rs, ax) <= hi
  {
    SumBetween(rs, ax, lo, hi);
    DivideBetween(lo, hi, SumOf(rs, ax), |rs| as real);
  }

  /** Every mean lies between the smallest and the largest of its inputs. */
  lemma MeanWithin(rs: seq<Reading>, ax: Axis)
    requires |rs| > 0
    ensures Lowest(rs, ax) <= MeanOf(rs, ax) <= Highest(rs, ax)
  {
    MeanBetween(rs, ax, Lowest(rs, ax), Highest(rs, ax));
  }

  /** `calculateAverageLocation`: null for no readings, otherwise the mean latitude
      and the mean longitude, each between the extremes of its inputs. */
  function AverageLocation(rs: seq<Reading>): (r: Option<Coord>)
    ensures r.None? <==> |rs| == 0
    ensures r.Some? ==> Lowest(rs, Latitude) <= r.value.latitude <= Highest(rs, Latitude)
    ensures r.Some? ==> Lowest(rs, Longitude) <= r.value.longitude <= Highest(rs, Longitude)
  {
    if |rs| == 0 then None
    else
      MeanWithin(rs, Latitude);
      MeanWithin(rs, Longitude);
      Some(Coord(MeanOf(rs, Latitude), MeanOf(rs, Longitude)))
  }

  /** The value a sampling run resolves with: the average location and the mean
      accuracy of the accepted readings. */
  function AverageFix(rs: seq<Reading>): (f: Fix)
    requires |rs| > 0
    ensures Some(f.location) == AverageLocation(rs)
    ensures Lowest(rs, Accuracy) <= f.accuracy <= Highest(rs, Accuracy)
  {
    MeanWithin(rs, Accuracy);
    Fix(AverageLocation(rs).value, MeanOf(rs, Accuracy))
  }

  /** Averaging one reading gives that reading back. */
  lemma SingleReadingUnchanged(r: Reading)
    ensures AverageLocation([r]) == Some(Coord(r.latitude, r.longitude))
    ensures AverageFix([r]).accuracy == r.accuracy
  {
    assert [r][..0] == [];
  }

  /** If every reading is at most `bound` metres inaccurate, so is the average. */
  lemma {:induction false} AverageAccuracyBounded(rs: seq<Reading>, bound: real)
    requires |rs| > 0
    requires forall i :: 0 <= i < |rs| ==> rs[i].accuracy <= bound
    ensures AverageFix(rs).accuracy <= bound
  {
  }
}
