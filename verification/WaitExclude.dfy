/** The waitExclude check against the exact amount of non-excluded time.

    The loop steps through the days from the last transition on and takes back what it counted on
    excluded days.  It is right except on an excluded day itself. */
module WaitExclude {

  import opened Calendar

  predicate IsExcluded(exclude: seq<int>, t: int) { Weekday(t) in exclude }

  predicate IsSameDay(t: int, u: int) { DayNumber(t) == DayNumber(u) }

  /** The seconds in [a, b) that do not lie on an excluded day. */
  ghost function Measure(exclude: seq<int>, a: int, b: int): nat
    decreases b - a
  {
    if b <= a then 0 else Measure(exclude, a, b - 1) + (if IsExcluded(exclude, b - 1) then 0 else 1)
  }

  // ---- the loop ----

  /** What iteration k takes back. */
  function Deduction(exclude: seq<int>, last: int, k: nat): int
  {
    var t := last + k * DAY;
    if !IsExcluded(exclude, t) then 0
    else if IsSameDay(t, last) then DAY - Clock(last)
    else DAY
  }

  function Deducted(exclude: seq<int>, last: int, k: nat): int
  {
    if k == 0 then 0 else Deducted(exclude, last, k - 1) + Deduction(exclude, last, k - 1)
  }

  function Iterations(last: int, now: int): nat
  {
    if now < last then 0 else (now - last) / DAY + 1
  }

  function Since(exclude: seq<int>, last: int, now: int): int
  {
    now - last - Deducted(exclude, last, Iterations(last, now))
    - (if !IsSameDay(last, now) && IsExcluded(exclude, now) then Clock(now) else 0)
  }

  method CheckInternal(exclude: seq<int>, duration: int, last: int, now: int) returns (passed: bool)
    ensures passed <==> Since(exclude, last, now) > duration
  {
    var timestamp := last;
    var since := now - last;
    ghost var k: nat := 0;
    while timestamp <= now
      invariant timestamp == last + k * DAY
      invariant since == now - last - Deducted(exclude, last, k)
      invariant k <= Iterations(last, now)
      decreases now - timestamp
    {
      if !IsExcluded(exclude, timestamp) {
        timestamp := timestamp + DAY;
        k := k + 1;
        continue;
      }
      var sub := DAY;
      if IsSameDay(timestamp, last) {
        sub := DAY - Clock(last);
      }
      since := since - sub;
      timestamp := timestamp + DAY;
      k := k + 1;
    }
    assert k == Iterations(last, now);
    if !IsSameDay(last, now) && IsExcluded(exclude, now) {
      since := since - Clock(now);
    }
    passed := since > duration;
  }

  // ---- the measure, day by day ----

  lemma {:induction false} MeasureSplits(exclude: seq<int>, a: int, b: int, c: int)
    requires a <= b <= c
    ensures Measure(exclude, a, c) == Measure(exclude, a, b) + Measure(exclude, b, c)
    decreases c - b
  {
    if b < c {
      MeasureSplits(exclude, a, b, c - 1);
    }
  }

  lemma {:induction false} MeasureInDay(exclude: seq<int>, d: int, a: int, b: int)
    requires d * DAY <= a <= b <= (d + 1) * DAY
    ensures Measure(exclude, a, b) == if WeekdayOf(d) in exclude then 0 else b - a
    decreases b - a
  {
    if a < b {
      MeasureInDay(exclude, d, a, b - 1);
      assert DayNumber(b - 1) == d;
    }
  }

  /** The number of excluded days in [d, e). */
  function ExcludedDays(exclude: seq<int>, d: int, e: int): nat
    decreases e - d
  {
    if e <= d then 0 else ExcludedDays(exclude, d, e - 1) + (if WeekdayOf(e - 1) in exclude then 1 else 0)
  }

  lemma {:induction false} MeasureOfDays(exclude: seq<int>, d: int, e: int)
    requires d <= e
    ensures Measure(exclude, d * DAY, e * DAY) == (e - d - ExcludedDays(exclude, d, e)) * DAY
    decreases e - d
  {
    if d < e {
      MeasureOfDays(exclude, d, e - 1);
      MeasureSplits(exclude, d * DAY, (e - 1) * DAY, e * DAY);
      MeasureInDay(exclude, e - 1, (e - 1) * DAY, e * DAY);
    }
  }

  /** The days the loop visits: the day of the last transition and the k - 1 days after it. */
  lemma {:induction false} DeductedDays(exclude: seq<int>, last: int, k: nat)
    requires k > 0
    ensures var d := DayNumber(last);
      Deducted(exclude, last, k) ==
      (if WeekdayOf(d) in exclude then DAY - Clock(last) else 0) + ExcludedDays(exclude, d + 1, d + k) * DAY
  {
    var d := DayNumber(last);
    assert DayNumber(last + (k - 1) * DAY) == d + k - 1;
    if k == 1 {
      assert Deducted(exclude, last, 1) == Deducted(exclude, last, 0) + Deduction(exclude, last, 0);
    } else {
      DeductedDays(exclude, last, k - 1);
    }
  }

  lemma MeasureAcrossDays(exclude: seq<int>, last: int, now: int)
    requires DayNumber(last) < DayNumber(now)
    ensures var d, e := DayNumber(last), DayNumber(now);
      Measure(exclude, last, now) ==
      (if WeekdayOf(d) in exclude then 0 else DAY - Clock(last))
      + (e - d - 1 - ExcludedDays(exclude, d + 1, e)) * DAY
      + (if WeekdayOf(e) in exclude then 0 else Clock(now))
  {
    var d, e := DayNumber(last), DayNumber(now);
    MeasureSplits(exclude, last, (d + 1) * DAY, now);
    MeasureSplits(exclude, (d + 1) * DAY, e * DAY, now);
    MeasureInDay(exclude, d, last, (d + 1) * DAY);
    MeasureOfDays(exclude, d + 1, e);
    MeasureInDay(exclude, e, e * DAY, now);
  }

  /** By how much the loop falls short of the exact measure. */
  function Shortfall(exclude: seq<int>, last: int, now: int): (s: int)
    ensures s >= 0
  {
    if !IsExcluded(exclude, now) then 0
    else if IsSameDay(last, now) then DAY - Clock(now)
    else if Clock(now) >= Clock(last) then DAY
    else 0
  }

  /** The exact deviation: none unless today is excluded; a whole day on an excluded later day from
      the transition's time of day on; and on the transition's own excluded day the rest of that day. */
  lemma SinceExact(exclude: seq<int>, last: int, now: int)
    requires last <= now
    ensures Since(exclude, last, now) == Measure(exclude, last, now) - Shortfall(exclude, last, now)
  {
    var d, e := DayNumber(last), DayNumber(now);
    var k := Iterations(last, now);
    assert now - last == (e - d) * DAY + Clock(now) - Clock(last);
    DeductedDays(exclude, last, k);
    if d == e {
      assert k == 1;
      MeasureInDay(exclude, d, last, now);
    } else {
      assert d < e;
      MeasureAcrossDays(exclude, last, now);
      if Clock(now) >= Clock(last) {
        assert k == e - d + 1;
      } else {
        assert k == e - d;
      }
    }
  }

  /** The check never passes early, and it disagrees with the exact measure precisely on an excluded
      day after the transition's, at or after the transition's time of day, when the exact time has
      passed by no more than a day. */
  lemma VerdictExact(exclude: seq<int>, duration: nat, last: int, now: int)
    ensures Since(exclude, last, now) > duration ==> Measure(exclude, last, now) > duration
    ensures (Since(exclude, last, now) > duration) != (Measure(exclude, last, now) > duration) <==>
      && last <= now && IsExcluded(exclude, now) && !IsSameDay(last, now) && Clock(now) >= Clock(last)
      && Measure(exclude, last, now) - DAY <= duration < Measure(exclude, last, now)
  {
    if last <= now {
      SinceExact(exclude, last, now);
      if IsSameDay(last, now) {
        MeasureInDay(exclude, DayNumber(now), last, now);
      }
    }
  }

  /** Waiting longer can undo the verdict: Saturday excluded, the transition on Monday at ten. */
  lemma NotMonotone()
    ensures var exclude, duration, last := [6], 395999, 36000;
      var before, at := 5 * DAY + 35999, 5 * DAY + 36000;
      before < at && Since(exclude, last, before) > duration && Since(exclude, last, at) <= duration
  {
    var exclude, last := [6], 36000;
    var before, at := 5 * DAY + 35999, 5 * DAY + 36000;
    SinceExact(exclude, last, before);
    SinceExact(exclude, last, at);
    MeasureAcrossDays(exclude, last, before);
    MeasureAcrossDays(exclude, last, at);
    assert ExcludedDays(exclude, 1, 5) == 0 by {
      assert ExcludedDays(exclude, 1, 1) == 0;
      assert ExcludedDays(exclude, 1, 2) == 0;
      assert ExcludedDays(exclude, 1, 3) == 0;
      assert ExcludedDays(exclude, 1, 4) == 0;
    }
  }
}
