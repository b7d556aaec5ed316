/** What one reconcile pass guarantees, whatever the plugins do. */
module Passes {

  import opened Errors
  import opened Labels
  import opened CheckExpressions
  import opened Notifications
  import opened Plugins
  import opened States
  import opened Applications
  import opened Handler

  // ---- results of the collect loop ----

  /** The application of profile i within a pass. */
  function AppliedAt<W>(pl: Plugins<W>, w: W, states: seq<ProfileState>, profiles: map<string, ProfileData>,
                        notes: map<string, nat>, i: nat): Applied<W>
    requires i < |states| && StatesPresent(states, profiles)
  {
    var c := Collect(pl, w, states, profiles, notes, i);
    ApplyOne(pl, c.world, states[i], AnyInMaintenance(states), profiles, c.notes)
  }

  lemma {:induction false} TriesGrow<W>(pl: Plugins<W>, w: W, states: seq<ProfileState>, profiles: map<string, ProfileData>,
                                        notes: map<string, nat>, m: nat, n: nat)
    requires m <= n <= |states| && StatesPresent(states, profiles)
    ensures forall j :: 0 <= j < m ==>
      Collect(pl, w, states, profiles, notes, n).tries[j] == Collect(pl, w, states, profiles, notes, m).tries[j]
  {
    hide CollectStep, AnyInMaintenance;
    if m < n {
      TriesGrow(pl, w, states, profiles, notes, m, n - 1);
    }
  }

  lemma TryLast<W>(pl: Plugins<W>, w: W, states: seq<ProfileState>, profiles: map<string, ProfileData>,
                   notes: map<string, nat>, i: nat)
    requires i < |states| && StatesPresent(states, profiles) && !states[i].state.Unknown?
    ensures var a := AppliedAt(pl, w, states, profiles, notes, i);
            Collect(pl, w, states, profiles, notes, i + 1).tries[i] == Ran(a.report, a.error)
  {}

  lemma TryAt<W>(pl: Plugins<W>, w: W, states: seq<ProfileState>, profiles: map<string, ProfileData>,
                 notes: map<string, nat>, n: nat, i: nat)
    requires i < n <= |states| && StatesPresent(states, profiles) && !states[i].state.Unknown?
    ensures var a := AppliedAt(pl, w, states, profiles, notes, i);
            Collect(pl, w, states, profiles, notes, n).tries[i] == Ran(a.report, a.error)
  {
    hide Collect, AppliedAt;
    TriesGrow(pl, w, states, profiles, notes, i + 1, n);
    TryLast(pl, w, states, profiles, notes, i);
  }

  // ---- the commit loop ----

  ghost predicate Distinct(states: seq<ProfileState>)
  {
    forall i, j :: 0 <= i < j < |states| ==> states[i].profile.name != states[j].profile.name
  }

  /** A new current state comes from a report of that very profile. */
  lemma {:induction false} CommitOrigin<W>(pl: Plugins<W>, w: W, states: seq<ProfileState>, reports: seq<Report>,
      retrying: set<string>, profiles: map<string, ProfileData>, n: nat, x: string)
    requires n <= |states| == |reports| && StatesPresent(states, profiles) && x in profiles
    requires forall i :: 0 <= i < |states| ==> reports[i].state == states[i].state
    ensures var t := Commit(pl, w, states, reports, retrying, profiles, n).profiles;
      || t[x].current == profiles[x].current
      || exists i :: 0 <= i < n && states[i].profile.name == x && x !in retrying
                     && reports[i].next == t[x].current && reports[i].next != states[i].state
  {
    if n > 0 {
      CommitOrigin(pl, w, states, reports, retrying, profiles, n - 1, x);
    }
  }

  lemma {:induction false} CommitUntouched<W>(pl: Plugins<W>, w: W, states: seq<ProfileState>, reports: seq<Report>,
      retrying: set<string>, profiles: map<string, ProfileData>, n: nat, x: string)
    requires n <= |states| == |reports| && StatesPresent(states, profiles) && x in profiles
    requires forall i :: 0 <= i < |states| ==> reports[i].state == states[i].state
    requires x in retrying || forall i :: 0 <= i < n ==> states[i].profile.name != x
    ensures Commit(pl, w, states, reports, retrying, profiles, n).profiles[x] == profiles[x]
  {
    if n > 0 {
      CommitUntouched(pl, w, states, reports, retrying, profiles, n - 1, x);
    }
  }

  /** What committing report r makes of a triple. */
  predicate Settled(before: ProfileData, after: ProfileData, r: Report)
  {
    && after.current == r.next
    && after.previous == r.state
    && (r.next == r.state ==> after.transition == before.transition)
  }

  lemma {:induction false} CommitSettles<W>(pl: Plugins<W>, w: W, states: seq<ProfileState>, reports: seq<Report>,
      retrying: set<string>, profiles: map<string, ProfileData>, n: nat, i: nat)
    requires i < n <= |states| == |reports| && StatesPresent(states, profiles) && Distinct(states)
    requires forall k :: 0 <= k < |states| ==> reports[k].state == states[k].state == profiles[states[k].profile.name].current
    requires states[i].profile.name !in retrying
    ensures var x := states[i].profile.name;
            Settled(profiles[x], Commit(pl, w, states, reports, retrying, profiles, n).profiles[x], reports[i])
  {
    if i == n - 1 {
      CommitUntouched(pl, w, states, reports, retrying, profiles, n - 1, states[i].profile.name);
    } else {
      assert states[n - 1].profile.name != states[i].profile.name;
      hide Distinct, Settled;
      CommitSettles(pl, w, states, reports, retrying, profiles, n - 1, i);
    }
  }

  /** A transition is stamped with the clock as the commit loop reads it at that profile's turn, and a
      triple that does not move keeps its stamp. */
  lemma {:induction false} CommitStamps<W>(pl: Plugins<W>, w: W, states: seq<ProfileState>, reports: seq<Report>,
      retrying: set<string>, profiles: map<string, ProfileData>, n: nat, x: string) returns (k: nat)
    requires n <= |states| == |reports| && StatesPresent(states, profiles) && x in profiles
    requires forall i :: 0 <= i < |states| ==> reports[i].state == states[i].state == profiles[states[i].profile.name].current
    ensures var after := Commit(pl, w, states, reports, retrying, profiles, n).profiles[x];
      || (after.transition == profiles[x].transition && after.current == profiles[x].current)
      || (k < n && states[k].profile.name == x && reports[k].next != reports[k].state
          && after.transition == pl.now(Commit(pl, w, states, reports, retrying, profiles, k).world).0)
  {
    k := 0;
    if n > 0 {
      k := CommitStamps(pl, w, states, reports, retrying, profiles, n - 1, x);
      if states[n - 1].profile.name == x && x !in retrying && states[n - 1].state != reports[n - 1].next {
        k := n - 1;
      }
    }
  }

  /** All or nothing.  A pass over distinct profiles errors exactly when some profile has an unknown
      state or fails without asking for a retry, and then no triple changes.  Otherwise the profiles
      that ask for a retry keep their triple and every other profile commits its own result. */
  lemma AllOrNothing<W>(pl: Plugins<W>, w: W, tag: string, cfg: Config, data: Data)
    requires AllPresent(data.profiles, Active(tag, cfg))
    requires Distinct(StatesOf(data.profiles, Active(tag, cfg)))
    ensures var states := StatesOf(data.profiles, Active(tag, cfg));
      var a := ApplyAll(pl, w, tag, cfg, data);
      && |a.tries| == |states|
      && (a.error.Some? <==> exists i :: 0 <= i < |states| && Breaks(a.tries[i]))
      && (a.error.Some? ==> a.data.profiles == data.profiles)
      && a.data.profiles.Keys == data.profiles.Keys
      && (a.error.None? ==> forall i :: 0 <= i < |states| ==>
            var x := states[i].profile.name;
            && a.tries[i].Ran? && a.tries[i].report.name == x && a.tries[i].report.state == states[i].state
            && if Retries(a.tries[i]) then a.data.profiles[x] == data.profiles[x]
               else Settled(data.profiles[x], a.data.profiles[x], a.tries[i].report))
  {
    hide Collect, Commit, Active, ErrorsOf, ReportsOf, RetryingOf;
    var states := StatesOf(data.profiles, Active(tag, cfg));
    var c := Collect(pl, w, states, data.profiles, data.notifications, |states|);
    Aligned(c.tries);
    if ErrorsOf(c.tries) == [] {
      forall i | 0 <= i < |states|
        ensures var x := states[i].profile.name;
                var after := Commit(pl, c.world, states, ReportsOf(c.tries), RetryingOf(c.tries), data.profiles, |states|).profiles[x];
                if Retries(c.tries[i]) then after == data.profiles[x] else Settled(data.profiles[x], after, c.tries[i].report)
      {
        RetryingIs(states, c.tries, i);
        if Retries(c.tries[i]) {
          CommitUntouched(pl, c.world, states, ReportsOf(c.tries), RetryingOf(c.tries), data.profiles, |states|, states[i].profile.name);
        } else {
          CommitSettles(pl, c.world, states, ReportsOf(c.tries), RetryingOf(c.tries), data.profiles, |states|, i);
        }
      }
    }
  }

  lemma RetryingIs(states: seq<ProfileState>, tries: seq<Try>, i: nat)
    requires i < |states| == |tries| && Distinct(states)
    requires forall k :: 0 <= k < |tries| ==> tries[k].Ran? && tries[k].report.name == states[k].profile.name
    ensures states[i].profile.name in RetryingOf(tries) <==> Retries(tries[i])
  {
    assert tries[i] in tries;
  }

  /** A profile the label does not activate is left alone. */
  lemma InactiveUntouched<W>(pl: Plugins<W>, w: W, tag: string, cfg: Config, data: Data, x: string)
    requires AllPresent(data.profiles, Active(tag, cfg)) && x in data.profiles
    requires forall i :: 0 <= i < |Active(tag, cfg)| ==> Active(tag, cfg)[i].name != x
    ensures ApplyAll(pl, w, tag, cfg, data).data.profiles[x] == data.profiles[x]
  {
    var states := StatesOf(data.profiles, Active(tag, cfg));
    var c := Collect(pl, w, states, data.profiles, data.notifications, |states|);
    Aligned(c.tries);
    if ErrorsOf(c.tries) == [] {
      CommitUntouched(pl, c.world, states, ReportsOf(c.tries), RetryingOf(c.tries), data.profiles, |states|, x);
    }
  }

  // ---- which transition is followed ----

  lemma {:induction false} ExecutedAt<W>(pl: Plugins<W>, w: W, prm: Params, ts: seq<Transition>, n: nat, j: nat)
    requires j < n <= |ts|
    ensures var x, r := ExecuteAll(pl, w, prm, ts, n), ExecuteTransition(pl, ExecuteAll(pl, w, prm, ts, j).world, prm, ts[j]);
            x.passed[j] == r.passed && (x.errors == [] ==> r.error.None?)
  {
    if j < n - 1 {
      ExecutedAt(pl, w, prm, ts, n - 1, j);
    }
  }

  /** Transition j is executed in the world the earlier ones left. */
  function ExecutionOf<W>(pl: Plugins<W>, w: W, prm: Params, ts: seq<Transition>, j: nat): ChainRun<W>
    requires j < |ts|
  {
    ExecuteTransition(pl, ExecuteAll(pl, w, prm, ts, j).world, prm, ts[j])
  }

  /** Moving on means: no check errored, transition `pick` passed and none before it did. */
  lemma Followed<W>(pl: Plugins<W>, w: W, prm: Params, ts: seq<Transition>)
    requires var d := Decide(pl, w, prm, ts); d.error.None? && d.next != prm.state
    ensures var d := Decide(pl, w, prm, ts);
      && d.pick.Some? && d.pick.value < |ts| && d.next == ts[d.pick.value].next
      && ExecutionOf(pl, w, prm, ts, d.pick.value).passed
      && (forall j :: 0 <= j < |ts| ==> ExecutionOf(pl, w, prm, ts, j).error.None?)
      && (forall j :: 0 <= j < d.pick.value ==> !ExecutionOf(pl, w, prm, ts, j).passed)
  {
    forall j | 0 <= j < |ts|
      ensures ExecutionOf(pl, w, prm, ts, j).error.None?
      ensures ExecuteAll(pl, w, prm, ts, |ts|).passed[j] == ExecutionOf(pl, w, prm, ts, j).passed
    {
      ExecutedAt(pl, w, prm, ts, |ts|, j);
    }
  }

  /** The world in which a profile decides about its transitions. */
  function DecidingWorld<W>(pl: Plugins<W>, w: W, prm: Params, chains: PluginChains, data: Data): W
    requires prm.profile in data.profiles
  {
    RunPrelude(pl, w, prm, chains, data.profiles[prm.profile], data.notifications).world
  }

  lemma AppliedMove<W>(pl: Plugins<W>, w: W, prm: Params, chains: PluginChains, data: Data)
    requires var r := Apply(pl, w, prm, chains, data).report; r.next != r.state
    ensures prm.profile in data.profiles
    ensures var r := Apply(pl, w, prm, chains, data).report;
      var d := Decide(pl, DecidingWorld(pl, w, prm, chains, data), prm, chains.transitions);
      d.error.None? && d.next == r.next && d.pick == r.pick && r.ran == FirstTo(chains.transitions, r.next)
  {}

  /** The triggers of a move belong to the first transition with its target. */
  lemma TriggerOwner<W>(pl: Plugins<W>, w: W, prm: Params, chains: PluginChains, data: Data)
    requires var r := Apply(pl, w, prm, chains, data).report; r.next != r.state
    ensures var r, ts := Apply(pl, w, prm, chains, data).report, chains.transitions;
      && r.pick.Some? && r.ran.Some? && r.ran.value <= r.pick.value < |ts|
      && ts[r.pick.value].next == ts[r.ran.value].next == r.next
  {
    AppliedMove(pl, w, prm, chains, data);
    Followed(pl, DecidingWorld(pl, w, prm, chains, data), prm, chains.transitions);
  }

  // ---- nothing is skipped ----

  /** A chain without an error had no failing trigger. */
  lemma {:induction false} EveryTriggerAgreed<W>(pl: Plugins<W>, w: W, prm: Params, names: seq<string>, n: nat, k: nat)
    requires k < n <= |names| && RunTriggers(pl, w, prm, names, n).error.None?
    ensures RunTriggers(pl, w, prm, names, k).error.None?
    ensures pl.trigger(RunTriggers(pl, w, prm, names, k).world, prm, names[k]).0.None?
  {
    if k < n - 1 {
      EveryTriggerAgreed(pl, w, prm, names, n - 1, k);
    }
  }

  lemma {:induction false} EveryHookAgreed<W>(pl: Plugins<W>, w: W, prm: Params, names: seq<string>, n: nat, k: nat)
    requires k < n <= |names| && RunHooks(pl, w, prm, names, n).error.None?
    ensures RunHooks(pl, w, prm, names, k).error.None?
    ensures pl.onTransition(RunHooks(pl, w, prm, names, k).world, prm, names[k]).0.None?
  {
    if k < n - 1 {
      EveryHookAgreed(pl, w, prm, names, n - 1, k);
    }
  }

  /** When a profile moves, every hook of the followed transition and then every trigger of the
      transition that owns the target ran and agreed. */
  lemma MovedWithAllActions<W>(pl: Plugins<W>, w: W, prm: Params, chains: PluginChains, data: Data)
    requires var r := Apply(pl, w, prm, chains, data).report; r.next != r.state
    ensures prm.profile in data.profiles
    ensures var r, ts := Apply(pl, w, prm, chains, data).report, chains.transitions;
      && r.pick.Some? && r.pick.value < |ts| && r.ran.Some? && r.ran.value < |ts|
      && var checked := ExecuteAll(pl, DecidingWorld(pl, w, prm, chains, data), prm, ts, |ts|).world;
         var hooks := ts[r.pick.value].check.plugins;
         var triggers := ts[r.ran.value].trigger;
         var hooked := RunHooks(pl, checked, prm, hooks, |hooks|).world;
         && (forall k :: 0 <= k < |hooks| ==> pl.onTransition(RunHooks(pl, checked, prm, hooks, k).world, prm, hooks[k]).0.None?)
         && (forall k :: 0 <= k < |triggers| ==> pl.trigger(RunTriggers(pl, hooked, prm, triggers, k).world, prm, triggers[k]).0.None?)
         && Apply(pl, w, prm, chains, data).world == RunTriggers(pl, hooked, prm, triggers, |triggers|).world
  {
    TriggerOwner(pl, w, prm, chains, data);
    var r, ts := Apply(pl, w, prm, chains, data).report, chains.transitions;
    var checked := ExecuteAll(pl, DecidingWorld(pl, w, prm, chains, data), prm, ts, |ts|).world;
    var hooks, triggers := ts[r.pick.value].check.plugins, ts[r.ran.value].trigger;
    var hooked := RunHooks(pl, checked, prm, hooks, |hooks|).world;
    MovedThrough(pl, w, prm, chains, data);
    hide Apply, Decide;
    forall k | 0 <= k < |hooks| ensures pl.onTransition(RunHooks(pl, checked, prm, hooks, k).world, prm, hooks[k]).0.None? {
      EveryHookAgreed(pl, checked, prm, hooks, |hooks|, k);
    }
    forall k | 0 <= k < |triggers| ensures pl.trigger(RunTriggers(pl, hooked, prm, triggers, k).world, prm, triggers[k]).0.None? {
      EveryTriggerAgreed(pl, hooked, prm, triggers, |triggers|, k);
    }
  }

  lemma MovedThrough<W>(pl: Plugins<W>, w: W, prm: Params, chains: PluginChains, data: Data)
    requires var r := Apply(pl, w, prm, chains, data).report;
      r.next != r.state && r.pick.Some? && r.pick.value < |chains.transitions| && r.ran.Some? && r.ran.value < |chains.transitions|
    ensures prm.profile in data.profiles
    ensures var r, ts := Apply(pl, w, prm, chains, data).report, chains.transitions;
      var checked := ExecuteAll(pl, DecidingWorld(pl, w, prm, chains, data), prm, ts, |ts|).world;
      var h := RunHooks(pl, checked, prm, ts[r.pick.value].check.plugins, |ts[r.pick.value].check.plugins|);
      var t := RunTriggers(pl, h.world, prm, ts[r.ran.value].trigger, |ts[r.ran.value].trigger|);
      h.error.None? && t.error.None? && Apply(pl, w, prm, chains, data).world == t.world
  {
    hide RunPrelude, ExecuteAll, RunHooks, RunTriggers, FirstPassing, FirstTo;
  }

  /** Due messages are sent: if the notifications of a profile meet no error, every instance whose
      schedule says so in its situation has its message among those sent. */
  lemma {:induction false} DueMessagesSent<W>(pl: Plugins<W>, w: W, prm: Params, pd: ProfileData, notes: map<string, nat>,
                                              chain: seq<NotificationInstance>, n: nat, k: nat)
    requires k < n <= |chain| && RunNotify(pl, w, prm, pd, notes, chain, n).error.None?
    ensures chain[k].schedule.Some?
    ensures var before := RunNotify(pl, w, prm, pd, notes, chain, k);
      var at := SituationOf(pl, before.world, pd, before.notes, chain[k]);
      ShouldNotify(chain[k].schedule.value, at) ==>
        Send(chain[k].name, prm.profile, chain[k].schedule.value, at) in RunNotify(pl, w, prm, pd, notes, chain, n).sent
  {
    hide ShouldNotify;
    if k < n - 1 {
      DueMessagesSent(pl, w, prm, pd, notes, chain, n - 1, k);
    }
  }

  /** No reason goes unheard: without an error, every periodic instance sends on a state change, and every
      oneshot instance sends once its delay after a state change it has not sent for is over. */
  lemma ReasonsAreHeard<W>(pl: Plugins<W>, w: W, prm: Params, pd: ProfileData, notes: map<string, nat>,
                           chain: seq<NotificationInstance>, k: nat)
    requires k < |chain| && RunNotify(pl, w, prm, pd, notes, chain, |chain|).error.None?
    ensures chain[k].schedule.Some?
    ensures var before := RunNotify(pl, w, prm, pd, notes, chain, k);
      var at, s := SituationOf(pl, before.world, pd, before.notes, chain[k]), chain[k].schedule.value;
      || (s.Periodic? && pd.current != pd.previous)
      || (s.Periodic? && pd.previous != Operational && at.last + s.interval <= at.now)
      || (s.Oneshot? && 0 < pd.transition && at.last <= pd.transition && pd.transition + s.delay <= at.later)
      ==> Send(chain[k].name, prm.profile, s, at) in RunNotify(pl, w, prm, pd, notes, chain, |chain|).sent
  {
    DueMessagesSent(pl, w, prm, pd, notes, chain, |chain|, k);
    hide RunNotify;
  }

  /** Plugins that never fail, with checks that always answer the same. */
  function Steady(o: CheckOutcome): Plugins<()>
  {
    Plugins((w: (), p: Params, x: string) => (o, w),
            (w: (), p: Params, x: string) => (None, w),
            (w: (), p: Params, x: string) => (None, w),
            (w: (), p: Params, x: string) => (None, w),
            (w: ()) => (0 as nat, w),
            (w: (), labels: map<string, string>) => labels)
  }

  /** Two transitions to one target: the second passes, the first one's triggers run. */
  lemma WrongTriggersWitness()
    ensures var always := CheckChain([], None);
      var never := CheckChain(["n"], Some(Leaf("n")));
      var chains := PluginChains([], [], [Transition(never, ["first"], Required), Transition(always, ["second"], Required)]);
      var pl := Steady(Failed);
      var prm := Params("p", Operational, false, 0);
      var data := Data(map["p" := ProfileData(0, Operational, Operational)], map[]);
      var r := Apply(pl, (), prm, chains, data).report;
      r.next == Required && r.pick == Some(1) && r.ran == Some(0)
  {
    var always := CheckChain([], None);
    var never := CheckChain(["n"], Some(Leaf("n")));
    var ts := [Transition(never, ["first"], Required), Transition(always, ["second"], Required)];
    var pl := Steady(Failed);
    var prm := Params("p", Operational, false, 0);
    assert RunChecks(pl, (), prm, ["n"], 1).outcomes == [Failed];
    assert Values(["n"], [Failed], 1) == map["n" := false];
    assert ExecuteAll(pl, (), prm, ts, 0) == Executed([], [], ());
    assert ExecuteAll(pl, (), prm, ts, 1) == Executed([false], [], ());
    assert ExecuteAll(pl, (), prm, ts, 2) == Executed([false, true], [], ());
    assert FirstPassing([false, true]) == Some(1);
    assert Decide(pl, (), prm, ts) == Decision(Required, Some(1), None, ());
  }

  // ---- mutual exclusion ----

  function InMaintenanceSet(profiles: map<string, ProfileData>): set<string>
  {
    set x | x in profiles && profiles[x].current == InMaintenance
  }

  /** With the flag set, nobody enters. */
  lemma FlagBlocks<W>(pl: Plugins<W>, w: W, prm: Params, chains: PluginChains, data: Data)
    requires prm.inMaintenance
    ensures var r := Apply(pl, w, prm, chains, data).report; r.next == InMaintenance ==> r.state == InMaintenance
  {
    var r := Apply(pl, w, prm, chains, data).report;
    if r.next != r.state {
      AppliedMove(pl, w, prm, chains, data);
      Followed(pl, DecidingWorld(pl, w, prm, chains, data), prm, chains.transitions);
    }
  }

  /** Whoever is newly in maintenance after the profiles were applied entered by its own report, while
      no active profile was in maintenance. */
  lemma EntryIndex<W>(pl: Plugins<W>, w: W, tag: string, cfg: Config, data: Data, x: string) returns (i: nat)
    requires AllPresent(data.profiles, Active(tag, cfg))
    requires x in InMaintenanceSet(ApplyAll(pl, w, tag, cfg, data).data.profiles) && x !in InMaintenanceSet(data.profiles)
    ensures var states := StatesOf(data.profiles, Active(tag, cfg));
      && !AnyInMaintenance(states)
      && i < |states| && states[i].profile.name == x && states[i].state != InMaintenance
      && AppliedAt(pl, w, states, data.profiles, data.notifications, i).report.next == InMaintenance
  {
    var states := StatesOf(data.profiles, Active(tag, cfg));
    var c := Collect(pl, w, states, data.profiles, data.notifications, |states|);
    Aligned(c.tries);
    CommitOrigin(pl, c.world, states, ReportsOf(c.tries), RetryingOf(c.tries), data.profiles, |states|, x);
    i :| 0 <= i < |states| && states[i].profile.name == x && ReportsOf(c.tries)[i].next == InMaintenance
         && InMaintenance != states[i].state;
    TryAt(pl, w, states, data.profiles, data.notifications, |states|, i);
    if AnyInMaintenance(states) {
      AppliedUnderFlag(pl, w, states, data.profiles, data.notifications, i);
    }
  }

  lemma AppliedUnderFlag<W>(pl: Plugins<W>, w: W, states: seq<ProfileState>, profiles: map<string, ProfileData>,
                            notes: map<string, nat>, i: nat)
    requires i < |states| && StatesPresent(states, profiles) && AnyInMaintenance(states)
    ensures AppliedAt(pl, w, states, profiles, notes, i).report.next == InMaintenance ==> states[i].state == InMaintenance
  {
    var c := Collect(pl, w, states, profiles, notes, i);
    FlagBlocks(pl, c.world, ParamsFor(states[i], true, profiles), ChainsOf(states[i].profile, states[i].state),
               Data(profiles, c.notes));
  }

  /** If an active profile is in maintenance when a pass starts, nobody enters. */
  lemma KeepsMaintenance<W>(pl: Plugins<W>, w: W, tag: string, cfg: Config, data: Data)
    requires AllPresent(data.profiles, Active(tag, cfg))
    requires AnyInMaintenance(StatesOf(data.profiles, Active(tag, cfg)))
    ensures InMaintenanceSet(ApplyAll(pl, w, tag, cfg, data).data.profiles) <= InMaintenanceSet(data.profiles)
  {
    forall x | x in InMaintenanceSet(ApplyAll(pl, w, tag, cfg, data).data.profiles)
      ensures x in InMaintenanceSet(data.profiles)
    {
      if x !in InMaintenanceSet(data.profiles) {
        var i := EntryIndex(pl, w, tag, cfg, data, x);
      }
    }
  }
}
