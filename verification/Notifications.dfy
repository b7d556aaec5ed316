/** The three notification schedules, and what they guarantee about the messages that are sent
    when every send is recorded as the last notification time of its instance. */
module Notifications {

  import opened Errors
  import opened Labels
  import opened Calendar

  datatype Schedule =
    | Periodic(interval: int)
    | Scheduled(instant: int, weekdays: seq<int>)
    | Oneshot(delay: int)

  /** What a schedule looks at.  `now` is the reading that is recorded; `later` is the second
      reading of the clock that the oneshot schedule takes. */
  datatype Situation = Situation(
    current: NodeStateLabel, previous: NodeStateLabel, now: nat, later: nat, last: nat, stateChange: nat)

  predicate ShouldNotify(s: Schedule, at: Situation)
  {
    match s
    case Periodic(interval) =>
      at.current != at.previous || (at.now - at.last >= interval && at.previous != Operational)
    case Scheduled(instant, weekdays) =>
      && Weekday(at.now) in weekdays
      && !(Clock(at.now) < instant)
      && DayOfMonth(DayNumber(at.last)) != DayOfMonth(DayNumber(at.now))
    case Oneshot(delay) =>
      && at.stateChange != 0
      && !(at.last > at.stateChange)
      && at.later - at.stateChange >= delay
  }

  // ---- the scheduled decision against full dates ----

  /** Once per calendar date, on an allowed weekday, from the instant on. */
  predicate DueByDate(s: Schedule, at: Situation)
    requires s.Scheduled?
  {
    && Weekday(at.now) in s.weekdays
    && s.instant <= Clock(at.now)
    && DayNumber(at.last) != DayNumber(at.now)
  }

  /** A due message is suppressed exactly on the same day of a different month. */
  lemma ScheduledAgrees(s: Schedule, at: Situation)
    requires s.Scheduled?
    ensures ShouldNotify(s, at) ==> DueByDate(s, at)
    ensures DueByDate(s, at) ==>
              (ShouldNotify(s, at) <==> DayOfMonth(DayNumber(at.last)) != DayOfMonth(DayNumber(at.now)))
    ensures MonthOf(DayNumber(at.last)) == MonthOf(DayNumber(at.now)) ==>
              (ShouldNotify(s, at) <==> DueByDate(s, at))
  {
    DateIsDay(DayNumber(at.last), DayNumber(at.now));
  }

  /** The zero last time never lets a first message out on the first of any later month. */
  lemma ScheduledFirstOfMonth(s: Schedule, at: Situation, m: nat)
    requires s.Scheduled? && at.last == 0 && m > 0 && DayNumber(at.now) == MonthStart(m)
    requires Weekday(at.now) in s.weekdays && s.instant <= Clock(at.now)
    ensures DueByDate(s, at) && !ShouldNotify(s, at)
  {
    FirstOfMonth(0);
    FirstOfMonth(m);
    MonthStartGrows(0, m);
  }

  lemma ScheduledWitness()
    ensures var s, at := Scheduled(0, [4]), Situation(Required, Required, 31 * DAY, 31 * DAY, 0, 0);
            DueByDate(s, at) && !ShouldNotify(s, at)
  {
    assert MonthStart(1) == MonthStart(0) + MonthLength(0) == 31;
    var s, at := Scheduled(0, [4]), Situation(Required, Required, 31 * DAY, 31 * DAY, 0, 0);
    assert DayNumber(at.now) == 31 && Clock(at.now) == 0 && Weekday(at.now) == 4;
    ScheduledFirstOfMonth(s, at, 1);
  }

  // ---- logs of sends ----

  datatype Send = Send(instance: string, profile: string, schedule: Schedule, at: Situation)

  /** The latest of the first n sends that went through the given instance. */
  function LastBefore(log: seq<Send>, n: nat, instance: string): (r: Option<nat>)
    requires n <= |log|
    ensures r.Some? ==> r.value < n && log[r.value].instance == instance
    ensures r.Some? ==> forall k :: r.value < k < n ==> log[k].instance != instance
    ensures r.None? ==> forall k :: 0 <= k < n ==> log[k].instance != instance
  {
    if n == 0 then None
    else if log[n - 1].instance == instance then Some(n - 1)
    else LastBefore(log, n - 1, instance)
  }

  predicate SendOk(log: seq<Send>, i: nat)
    requires i < |log|
  {
    && ShouldNotify(log[i].schedule, log[i].at)
    && var j := LastBefore(log, i, log[i].instance);
       j.Some? ==> log[i].at.last == log[j.value].at.now
  }

  /** Every send was decided on against the previous send of its instance. */
  ghost predicate Consistent(log: seq<Send>)
  {
    forall i :: 0 <= i < |log| ==> SendOk(log, i)
  }

  /** The stored times are those of the latest sends. */
  ghost predicate Recorded(notes: map<string, nat>, log: seq<Send>)
  {
    forall x ::
      var j := LastBefore(log, |log|, x);
      j.Some? ==> x in notes && notes[x] == log[j.value].at.now
  }

  lemma {:induction false} LastBeforePrefix(log: seq<Send>, s: Send, n: nat, x: string)
    requires n <= |log|
    ensures LastBefore(log + [s], n, x) == LastBefore(log, n, x)
  {
    if n > 0 {
      LastBeforePrefix(log, s, n - 1, x);
    }
  }

  lemma AppendSend(notes: map<string, nat>, log: seq<Send>, s: Send)
    requires Consistent(log) && Recorded(notes, log)
    requires s.instance in notes && s.at.last == notes[s.instance] && ShouldNotify(s.schedule, s.at)
    ensures Consistent(log + [s]) && Recorded(notes[s.instance := s.at.now], log + [s])
  {
    var log' := log + [s];
    forall i | 0 <= i < |log'| ensures SendOk(log', i) {
      LastBeforePrefix(log, s, i, log'[i].instance);
      assert i < |log| ==> SendOk(log, i);
    }
    forall x
      ensures var j := LastBefore(log', |log'|, x);
              j.Some? ==> x in notes[s.instance := s.at.now] && notes[s.instance := s.at.now][x] == log'[j.value].at.now
    {
      LastBeforePrefix(log, s, |log|, x);
    }
  }

  /** Filling in a zero time for an instance that never sent anything keeps the record. */
  lemma FillNote(notes: map<string, nat>, log: seq<Send>, x: string, t: nat)
    requires Recorded(notes, log) && x !in notes
    ensures Recorded(notes[x := t], log)
  {
    forall z
      ensures var j := LastBefore(log, |log|, z);
              j.Some? ==> z in notes[x := t] && notes[x := t][z] == log[j.value].at.now
    {}
  }

  ghost predicate Nondecreasing(log: seq<Send>)
  {
    forall i, j :: 0 <= i <= j < |log| ==> log[i].at.now <= log[j].at.now
  }

  /** Scheduled: an instance is never sent twice on the same calendar date. */
  lemma ScheduledOncePerDate(log: seq<Send>, i: nat, j: nat)
    requires Consistent(log) && Nondecreasing(log)
    requires i < j < |log| && log[i].instance == log[j].instance && log[j].schedule.Scheduled?
    ensures DayNumber(log[i].at.now) < DayNumber(log[j].at.now)
  {
    assert SendOk(log, j);
    var k := LastBefore(log, j, log[j].instance).value;
    assert log[i].at.now <= log[k].at.now <= log[j].at.now;
  }

  /** Oneshot: a message is only ever sent for a state change at or after the previous sends of its
      instance; so none is sent twice for a state change that lies before its first send. */
  lemma OneshotOncePerChange(log: seq<Send>, i: nat, j: nat)
    requires Consistent(log) && Nondecreasing(log)
    requires i < j < |log| && log[i].instance == log[j].instance && log[j].schedule.Oneshot?
    ensures log[i].at.now <= log[j].at.stateChange
    ensures log[i].at.stateChange < log[i].at.now ==> log[i].at.stateChange < log[j].at.stateChange
    ensures log[i].at.stateChange == log[j].at.stateChange && log[i].at.stateChange <= log[i].at.now ==>
              log[i].at.now == log[i].at.stateChange
  {
    assert SendOk(log, j);
    var k := LastBefore(log, j, log[j].instance).value;
    assert log[i].at.now <= log[k].at.now;
  }

  /** The condition is exact: a first message read at the very instant of the state change, which a
      positive delay allows when the second reading of the clock is late enough, is followed by another. */
  lemma OneshotTwice(x: string, p: string, l: NodeStateLabel, delay: nat, t: nat, later: nat)
    requires 0 < t && t + delay <= later
    ensures var log := [Send(x, p, Oneshot(delay), Situation(l, l, t, later, 0, t)),
                        Send(x, p, Oneshot(delay), Situation(l, l, later, later, t, t))];
            Consistent(log) && Nondecreasing(log)
  {
    var log := [Send(x, p, Oneshot(delay), Situation(l, l, t, later, 0, t)),
                Send(x, p, Oneshot(delay), Situation(l, l, later, later, t, t))];
    assert LastBefore(log, 0, x) == None && LastBefore(log, 1, x) == Some(0);
    assert SendOk(log, 0) && SendOk(log, 1);
  }

  /** Periodic: a repetition without a state change waits for the whole interval. */
  lemma PeriodicSpacing(log: seq<Send>, i: nat, j: nat)
    requires Consistent(log) && Nondecreasing(log)
    requires i < j < |log| && log[i].instance == log[j].instance && log[j].schedule.Periodic?
    requires log[j].at.current == log[j].at.previous
    ensures log[j].at.now - log[i].at.now >= log[j].schedule.interval
    ensures log[j].at.current != Operational
  {
    assert SendOk(log, j);
    var k := LastBefore(log, j, log[j].instance).value;
    assert log[i].at.now <= log[k].at.now;
  }

  /** Every message of a consistent log had its reason: a periodic one a state change or a whole interval
      outside the operational state, a scheduled one an allowed weekday after the instant on a new date, a
      oneshot one a state change that lies at least the delay back. */
  lemma MessagesHaveReasons(log: seq<Send>, i: nat)
    requires Consistent(log) && i < |log|
    ensures var at := log[i].at;
      match log[i].schedule
      case Periodic(interval) => at.current != at.previous || (at.now >= at.last + interval && at.previous != Operational)
      case Scheduled(instant, weekdays) => DueByDate(log[i].schedule, at)
      case Oneshot(delay) => 0 < at.stateChange && at.last <= at.stateChange && at.stateChange + delay <= at.later
  {
    assert SendOk(log, i);
    if log[i].schedule.Scheduled? {
      ScheduledAgrees(log[i].schedule, log[i].at);
    }
  }
}
