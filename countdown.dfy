/** The drop zone's expiry countdown: each listed file's remaining lifetime, its
    recomputation on the one-second tick, and its `m:ss` rendering. Times are integer
    milliseconds. */
module Countdown {
  import opened Maybe

  /** The lifetime of an uploaded file: 20 minutes. */
  const ExpiryMs: int := 1200000

  datatype Visibility = Public | Private

  /** A file as the server lists it. */
  datatype FileRecord = FileRecord(id: string, filename: string, fileUrl: string, visibility: Visibility, createdAt: int)

  /** A listed file with the remaining lifetime the client derives for it. */
  datatype FileEntry = FileEntry(record: FileRecord, remainingTime: int)

  /** `Math.max(0, EXPIRY_TIME - (Date.now() - createdAt))`. */
  function RemainingTime(createdAt: int, now: int): (r: int)
    ensures r >= 0
    ensures createdAt <= now ==> r <= ExpiryMs
    ensures r == 0 <==> now - createdAt >= ExpiryMs
    ensures r > 0 ==> r + (now - createdAt) == ExpiryMs
  {
    var left := ExpiryMs - (now - createdAt);
    if left > 0 then left else 0
  }

  /** Time only runs down: a later `now` never leaves more time. */
  lemma RemainingTimeNonIncreasing(createdAt: int, earlier: int, later: int)
    requires earlier <= later
    ensures RemainingTime(createdAt, later) <= RemainingTime(createdAt, earlier)
  {
  }

  /** The records of a successful listing with their remaining time at `now`. */
  function WithRemaining(records: seq<FileRecord>, now: int): (es: seq<FileEntry>)
    ensures |es| == |records|
    ensures forall i :: 0 <= i < |es| ==>
              es[i].record == records[i] && es[i].remainingTime == RemainingTime(records[i].createdAt, now)
  {
    if |records| == 0 then []
    else WithRemaining(records[..|records| - 1], now) + [FileEntry(records[|records| - 1], RemainingTime(records[|records| - 1].createdAt, now))]
  }

  /** The one-second tick: every entry's remaining time recomputed from its own
      creation time; nothing is removed, reordered or otherwise changed. */
  function Tick(entries: seq<FileEntry>, now: int): (es: seq<FileEntry>)
    ensures |es| == |entries|
    ensures forall i :: 0 <= i < |es| ==>
              es[i].record == entries[i].record && es[i].remainingTime == RemainingTime(entries[i].record.createdAt, now)
  {
    if |entries| == 0 then []
    else
      var last := entries[|entries| - 1];
      Tick(entries[..|entries| - 1], now) + [last.(remainingTime := RemainingTime(last.record.createdAt, now))]
  }

  /** Two ticks at the same instant are one tick: nothing is counted down twice. */
  lemma TickIdempotent(entries: seq<FileEntry>, now: int)
    ensures Tick(Tick(entries, now), now) == Tick(entries, now)
  {
    var once, twice := Tick(entries, now), Tick(Tick(entries, now), now);
    assert forall i :: 0 <= i < |twice| ==> twice[i] == once[i];
  }

  /** Across a later tick no entry gains time. */
  lemma TickNonIncreasing(entries: seq<FileEntry>, earlier: int, later: int)
    requires earlier <= later
    ensures forall i :: 0 <= i < |entries| ==> Tick(entries, later)[i].remainingTime <= Tick(entries, earlier)[i].remainingTime
  {
  }

  /** Ticking a fresh listing gives the listing as it would be fetched at the tick:
      the countdown never drifts from the creation times. */
  lemma TickMatchesRefetch(records: seq<FileRecord>, fetchedAt: int, now: int)
    ensures Tick(WithRemaining(records, fetchedAt), now) == WithRemaining(records, now)
  {
    var a, b := Tick(WithRemaining(records, fetchedAt), now), WithRemaining(records, now);
    assert forall i :: 0 <= i < |a| ==> a[i] == b[i];
  }

  // Decimal rendering of naturals, and its inverse.

  predicate IsDigit(c: char)
  {
    '0' <= c <= '9'
  }

  predicate AllDigits(s: string)
  {
    forall i :: 0 <= i < |s| ==> IsDigit(s[i])
  }

  function DigitChar(d: nat): (c: char)
    requires d < 10
    ensures IsDigit(c)
  {
    "0123456789"[d]
  }

  function DigitValue(c: char): nat
    requires IsDigit(c)
  {
    (c as int - '0' as int) as nat
  }

  /** The value of a string of decimal digits (0 for the empty string). */
  function ParseNat(s: string): nat
    requires AllDigits(s)
  {
    if |s| == 0 then 0 else ParseNat(s[..|s| - 1]) * 10 + DigitValue(s[|s| - 1])
  }

  /** `n.toString()` for a natural number. */
  function NatToString(n: nat): (s: string)
    ensures AllDigits(s)
    ensures 1 <= |s|
    ensures n < 10 ==> |s| == 1
    ensures 10 <= n < 100 ==> |s| == 2
    ensures ParseNat(s) == n
    ensures |s| == 1 || s[0] != '0'
  {
    if n < 10 then
      var s := [DigitChar(n)];
      assert s[..0] == [];
      s
    else
      var prefix := NatToString(n / 10);
      var s := prefix + [DigitChar(n % 10)];
      assert s[..|s| - 1] == prefix;
      s
  }

  /** `s.padStart(2, "0")`. */
  function PadStart2(s: string): (r: string)
    ensures |s| >= 2 ==> r == s
    ensures |s| < 2 ==> |r| == 2 && r[2 - |s|..] == s && forall i :: 0 <= i < 2 - |s| ==> r[i] == '0'
  {
    if |s| >= 2 then s else if |s| == 1 then "0" + s else "00"
  }

  /** Leading zeros do not change the value. */
  lemma PadKeepsValue(s: string)
    requires AllDigits(s) && 1 <= |s|
    ensures AllDigits(PadStart2(s)) && ParseNat(PadStart2(s)) == ParseNat(s)
  {
    if |s| == 1 {
      var p := PadStart2(s);
      assert p[..1] == "0" && p[..1][..0] == [];
    }
  }

  /** The reading of an `m:ss` clock face: minutes before the colon and exactly two
      digits of seconds after it; anything else is not a clock face. */
  function ParseClock(s: string): Option<(nat, nat)>
  {
    if |s| >= 4 && s[|s| - 3] == ':' && AllDigits(s[..|s| - 3]) && AllDigits(s[|s| - 2..]) then
      Some((ParseNat(s[..|s| - 3]), ParseNat(s[|s| - 2..])))
    else None
  }

  const ExpiredLabel: string := "Expired"

  /** `formatRemainingTime`: "Expired" exactly when no time is left; otherwise a clock
      face that reads back as the whole minutes and the whole seconds past them. */
  function FormatRemainingTime(rt: int): (r: string)
    ensures r == ExpiredLabel <==> rt <= 0
    ensures ParseClock(r).None? <==> rt <= 0
    ensures rt > 0 ==> ParseClock(r) == Some((rt / 60000, (rt % 60000) / 1000))
    ensures rt > 0 ==> r[0] != '0' || r[1] == ':'
  {
    if rt <= 0 then
      var r := ExpiredLabel;
      assert r == ['E', 'x', 'p', 'i', 'r', 'e', 'd'];
      r
    else
      var minutes := rt / 60000;
      var seconds := (rt % 60000) / 1000;
      var mm, ss := NatToString(minutes), NatToString(seconds);
      var padded := PadStart2(ss);
      PadKeepsValue(ss);
      ClockFaceReadsBack(mm, padded);
      mm + ":" + padded
  }

  /** Minutes, a colon and two digits of seconds read back as those two numbers. */
  lemma ClockFaceReadsBack(mm: string, ss: string)
    requires AllDigits(mm) && 1 <= |mm|
    requires AllDigits(ss) && |ss| == 2
    ensures ParseClock(mm + ":" + ss) == Some((ParseNat(mm), ParseNat(ss)))
  {
    var r := mm + ":" + ss;
    assert r[..|r| - 3] == mm && r[|r| - 2..] == ss && r[|r| - 3] == ':';
  }

  /** The clock face never rounds up: it shows the largest whole number of seconds not
      above the remaining time, with fewer than 60 of them past the minutes. */
  lemma ClockNeverRoundsUp(rt: int)
    requires rt > 0
    ensures ParseClock(FormatRemainingTime(rt)).Some?
    ensures var (m, s) := ParseClock(FormatRemainingTime(rt)).value;
            s < 60 && m * 60000 + s * 1000 <= rt < m * 60000 + s * 1000 + 1000
  {
    var m, rest := rt / 60000, rt % 60000;
    assert rt == m * 60000 + rest && 0 <= rest < 60000;
    var s := rest / 1000;
    assert rest == s * 1000 + rest % 1000 && 0 <= rest % 1000 < 1000;
  }

  /** The worked examples of the countdown: no time left, one minute and one second,
      the last millisecond of a fresh file, and under a second. */
  lemma FormatExamples()
    ensures FormatRemainingTime(0) == "Expired"
    ensures FormatRemainingTime(61000) == "1:01"
    ensures FormatRemainingTime(1199999) == "19:59"
    ensures FormatRemainingTime(999) == "0:00"
  {
    FormatOneSecondPastAMinute();
    FormatFreshFile();
    FormatUnderASecond();
  }

  lemma FormatOneSecondPastAMinute()
    ensures FormatRemainingTime(61000) == "1:01"
  {
    assert NatToString(1) == "1";
    assert PadStart2("1") == "01";
  }

  lemma FormatFreshFile()
    ensures FormatRemainingTime(1199999) == "19:59"
  {
    assert 1199999 / 60000 == 19 && (1199999 % 60000) / 1000 == 59;
    assert NatToString(19) == "19" by { assert NatToString(1) == "1"; }
    assert NatToString(59) == "59" by { assert NatToString(5) == "5"; }
  }

  lemma FormatUnderASecond()
    ensures FormatRemainingTime(999) == "0:00"
  {
    assert NatToString(0) == "0";
    assert PadStart2("0") == "00";
  }

  /** A file created 19 minutes ago shows one minute left; at 20 minutes it has expired. */
  lemma CountdownScenario(now: int)
    ensures FormatRemainingTime(RemainingTime(now - 19 * 60 * 1000, now)) == "1:00"
    ensures FormatRemainingTime(RemainingTime(now - 20 * 60 * 1000, now)) == ExpiredLabel
  {
    assert RemainingTime(now - 19 * 60 * 1000, now) == 60000;
  }
}
