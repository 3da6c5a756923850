/**
  The matches page (`Matches`): how long ago a match was made, bucketed into
  whole days, and the "N mutual match(es)" heading. Dates are instants in
  integer milliseconds; the current time is a parameter, and a date string
  that does not parse (`NaN`) is `None`.
 */
module Matches {
  import opened Wrappers
  import opened Text

  /** `1000 * 60 * 60 * 24`. */
  const MsPerDay: nat := 86400000

  function Abs(x: int): nat {
    if x < 0 then -x else x
  }

  /**
    `Math.ceil(Math.abs(now - date) / MsPerDay)`: the smallest number of whole
    days covering the elapsed time, in either direction.
   */
  function DiffDays(nowMs: int, dateMs: int): (d: nat)
    ensures d == 0 <==> nowMs == dateMs
    ensures d > 0 ==> (d - 1) * MsPerDay < Abs(nowMs - dateMs) <= d * MsPerDay
  {
    (Abs(nowMs - dateMs) + MsPerDay - 1) / MsPerDay
  }

  /** A date in the future is as many days away as one equally far in the past. */
  lemma DiffDaysSymmetric(nowMs: int, dateMs: int)
    ensures DiffDays(nowMs, dateMs) == DiffDays(dateMs, nowMs)
  {
  }

  /** The four kinds of label `formatMatchDate` writes. */
  datatype DateLabel = Today | Yesterday | DaysAgo(n: int) | OnDate

  /**
    The branches on `diffDays`: 1 is today, 2 yesterday, 0 and 3 to 7 are
    `diffDays - 1` days ago, and `NaN` (`None`), which fails every
    comparison, or more than 7 is the calendar date.
   */
  function Bucket(diffDays: Option<nat>): (b: DateLabel)
    ensures b == Today <==> diffDays == Some(1)
    ensures b == Yesterday <==> diffDays == Some(2)
    ensures b.DaysAgo? <==> diffDays.Some? && diffDays.value <= 7 && diffDays.value != 1 && diffDays.value != 2
    ensures b.DaysAgo? ==> b.n + 1 == diffDays.value
    ensures b == OnDate <==> diffDays.None? || diffDays.value > 7
  {
    match diffDays
    case None => OnDate
    case Some(d) =>
      if d == 1 then Today
      else if d == 2 then Yesterday
      else if d <= 7 then DaysAgo(d - 1)
      else OnDate
  }

  /**
    The label for a match made at `dateMs`, seen at `nowMs`: an unparsed date
    is shown as a date, and "N days ago" never says 0 or 1 days.
   */
  function Classify(nowMs: int, dateMs: Option<int>): (b: DateLabel)
    ensures dateMs.None? ==> b == OnDate
    ensures b.DaysAgo? ==> (b.n == -1 || 2 <= b.n <= 6)
  {
    Bucket(if dateMs.Some? then Some(DiffDays(nowMs, dateMs.value)) else None)
  }

  /**
    The text of a bucket; `localeDate` is `date.toLocaleDateString()`. The
    text "N days ago" starts with N, which `parseInt` reads back.
   */
  function Render(bucket: DateLabel, localeDate: string): (r: string)
    ensures bucket == Today ==> r == "Today"
    ensures bucket == Yesterday ==> r == "Yesterday"
    ensures bucket == OnDate ==> r == localeDate
    ensures bucket.DaysAgo? ==> r == IntToDecimal(bucket.n) + " days ago"
    ensures bucket.DaysAgo? ==> ParseInt(r) == Some(bucket.n)
  {
    match bucket
    case Today => "Today"
    case Yesterday => "Yesterday"
    case DaysAgo(n) =>
      ParseIntOfDecimal(n, " days ago");
      IntToDecimal(n) + " days ago"
    case OnDate => localeDate
  }

  /**
    `formatMatchDate(dateString)`, with the parsed date and the clock passed
    in: a date that does not parse (`"Invalid Date"`) or lies more than a week
    away is written as the locale date, one less than a day away (but not the
    same instant) is "Today", and a day count is written so that `parseInt`
    reads it back.
   */
  function FormatMatchDate(nowMs: int, dateMs: Option<int>, localeDate: string): (r: string)
    ensures dateMs.None? ==> r == localeDate
    ensures dateMs.Some? && Abs(nowMs - dateMs.value) > 7 * MsPerDay ==> r == localeDate
    ensures dateMs.Some? && 0 < Abs(nowMs - dateMs.value) <= MsPerDay ==> r == "Today"
    ensures dateMs.Some? && MsPerDay < Abs(nowMs - dateMs.value) <= 2 * MsPerDay ==> r == "Yesterday"
    ensures Classify(nowMs, dateMs).DaysAgo? ==> r == IntToDecimal(Classify(nowMs, dateMs).n) + " days ago"
    ensures Classify(nowMs, dateMs).DaysAgo? ==> ParseInt(r) == Some(Classify(nowMs, dateMs).n)
  {
    if dateMs.Some? then
      BucketsByElapsedTime(nowMs, dateMs.value);
      Render(Classify(nowMs, dateMs), localeDate)
    else Render(Classify(nowMs, dateMs), localeDate)
  }

  /**
    The buckets by elapsed time: up to one day (but not none) is "Today", up
    to two days is "Yesterday", up to a week is 2 to 6 "days ago", more than
    a week is the calendar date.
   */
  lemma BucketsByElapsedTime(nowMs: int, dateMs: int)
    ensures var e := Abs(nowMs - dateMs);
      && (Classify(nowMs, Some(dateMs)) == Today <==> 0 < e <= MsPerDay)
      && (Classify(nowMs, Some(dateMs)) == Yesterday <==> MsPerDay < e <= 2 * MsPerDay)
      && (2 * MsPerDay < e <= 7 * MsPerDay <==>
            Classify(nowMs, Some(dateMs)).DaysAgo? && 2 <= Classify(nowMs, Some(dateMs)).n <= 6)
      && (Classify(nowMs, Some(dateMs)) == OnDate <==> e > 7 * MsPerDay)
  {
    var d := DiffDays(nowMs, dateMs);
    var e := Abs(nowMs - dateMs);
    if d >= 8 {
      assert 7 * MsPerDay <= (d - 1) * MsPerDay;
    } else if d > 0 {
      assert d * MsPerDay <= 7 * MsPerDay;
    }
  }

  /**
    The same instant is zero whole days away, which falls into the week
    branch as "-1 days ago".
   */
  lemma SameInstant(nowMs: int)
    ensures Classify(nowMs, Some(nowMs)) == DaysAgo(-1)
    ensures forall localeDate :: FormatMatchDate(nowMs, Some(nowMs), localeDate) == IntToDecimal(-1) + " days ago"
    ensures IntToDecimal(-1) == "-1"
  {
    assert DiffDays(nowMs, nowMs) == 0;
    assert NatToDecimal(1) == "1";
  }

  /** `matches.length === 1 ? 'match' : 'matches'`. */
  function MatchNoun(count: nat): (noun: string)
    ensures noun == "match" <==> count == 1
    ensures noun == "matches" <==> count != 1
  {
    if count == 1 then "match" else "matches"
  }

  /** The heading `${count} mutual ${noun}`: it starts with the count, which `parseInt` reads back. */
  function CountLabel(count: nat): (r: string)
    ensures ParseInt(r) == Some(count)
    ensures |r| >= |MatchNoun(count)| && r[|r| - |MatchNoun(count)|..] == MatchNoun(count)
  {
    var noun := MatchNoun(count);
    var rest := " mutual " + noun;
    assert rest[0] == ' ';
    ParseIntOfDecimal(count, rest);
    var r := IntToDecimal(count) + rest;
    assert r == (IntToDecimal(count) + " mutual ") + noun;
    assert r[|r| - |noun|..] == noun;
    r
  }
}
