/** What a pass can do to the world is what its plugin calls can do to it: a reflexive and transitive
    relation that every single call respects relates the world before a pass to every world in it. */
module Worlds {

  import opened Errors
  import opened Labels
  import opened CheckExpressions
  import opened Plugins
  import opened States
  import opened Handler
  import opened Passes

  ghost predicate Preorder<W(!new)>(r: (W, W) -> bool)
  {
    (forall a :: r(a, a)) && (forall a, b, c :: r(a, b) && r(b, c) ==> r(a, c))
  }

  /** Triggers, notifications and clock readings respect the relation. */
  ghost predicate ActionsRespect<W(!new)>(pl: Plugins<W>, r: (W, W) -> bool)
  {
    && Preorder(r)
    && (forall w, p, x :: r(w, pl.trigger(w, p, x).1))
    && (forall w, p, x :: r(w, pl.notify(w, p, x).1))
    && (forall w :: r(w, pl.now(w).1))
  }

  ghost predicate Respects<W(!new)>(pl: Plugins<W>, r: (W, W) -> bool)
  {
    && ActionsRespect(pl, r)
    && (forall w, p, x :: r(w, pl.check(w, p, x).1))
    && (forall w, p, x :: r(w, pl.onTransition(w, p, x).1))
  }

  lemma {:induction false} ChecksRespect<W(!new)>(pl: Plugins<W>, r: (W, W) -> bool, w: W, prm: Params, names: seq<string>, n: nat)
    requires Respects(pl, r) && n <= |names|
    ensures r(w, RunChecks(pl, w, prm, names, n).world)
  {
    if n > 0 { ChecksRespect(pl, r, w, prm, names, n - 1); }
  }

  lemma {:induction false} TriggersRespect<W(!new)>(pl: Plugins<W>, r: (W, W) -> bool, w: W, prm: Params, names: seq<string>, n: nat)
    requires ActionsRespect(pl, r) && n <= |names|
    ensures r(w, RunTriggers(pl, w, prm, names, n).world)
  {
    if n > 0 { TriggersRespect(pl, r, w, prm, names, n - 1); }
  }

  lemma {:induction false} HooksRespect<W(!new)>(pl: Plugins<W>, r: (W, W) -> bool, w: W, prm: Params, names: seq<string>, n: nat)
    requires Respects(pl, r) && n <= |names|
    ensures r(w, RunHooks(pl, w, prm, names, n).world)
  {
    if n > 0 { HooksRespect(pl, r, w, prm, names, n - 1); }
  }

  lemma {:induction false} NotifyRespects<W(!new)>(pl: Plugins<W>, r: (W, W) -> bool, w: W, prm: Params, pd: ProfileData,
                                                   notes: map<string, nat>, chain: seq<NotificationInstance>, n: nat)
    requires ActionsRespect(pl, r) && n <= |chain|
    ensures r(w, RunNotify(pl, w, prm, pd, notes, chain, n).world)
  {
    if n > 0 { NotifyRespects(pl, r, w, prm, pd, notes, chain, n - 1); }
  }

  lemma PreludeRespects<W(!new)>(pl: Plugins<W>, r: (W, W) -> bool, w: W, prm: Params, chains: PluginChains, pd: ProfileData, notes: map<string, nat>)
    requires ActionsRespect(pl, r)
    ensures r(w, RunPrelude(pl, w, prm, chains, pd, notes).world)
  {
    TriggersRespect(pl, r, w, prm, chains.enter, |chains.enter|);
    var e := if pd.previous != pd.current then RunTriggers(pl, w, prm, chains.enter, |chains.enter|) else ActionRun(None, w);
    NotifyRespects(pl, r, e.world, prm, pd, notes, chains.notification, |chains.notification|);
  }

  lemma ExecuteRespects<W(!new)>(pl: Plugins<W>, r: (W, W) -> bool, w: W, prm: Params, chain: CheckChain)
    requires Respects(pl, r)
    ensures r(w, ExecuteChecks(pl, w, prm, chain).world)
  {
    ChecksRespect(pl, r, w, prm, chain.plugins, |chain.plugins|);
  }

  lemma {:induction false} ExecuteAllRespects<W(!new)>(pl: Plugins<W>, r: (W, W) -> bool, w: W, prm: Params, ts: seq<Transition>, n: nat)
    requires Respects(pl, r) && n <= |ts|
    ensures r(w, ExecuteAll(pl, w, prm, ts, n).world)
  {
    if n > 0 {
      ExecuteAllRespects(pl, r, w, prm, ts, n - 1);
      ExecuteRespects(pl, r, ExecuteAll(pl, w, prm, ts, n - 1).world, prm, ts[n - 1].check);
    }
  }

  lemma DecideRespects<W(!new)>(pl: Plugins<W>, r: (W, W) -> bool, w: W, prm: Params, ts: seq<Transition>)
    requires Respects(pl, r)
    ensures r(w, Decide(pl, w, prm, ts).world)
  {
    ExecuteAllRespects(pl, r, w, prm, ts, |ts|);
    var x := ExecuteAll(pl, w, prm, ts, |ts|);
    var k := FirstPassing(x.passed);
    if k.Some? {
      HooksRespect(pl, r, x.world, prm, ts[k.value].check.plugins, |ts[k.value].check.plugins|);
    }
  }

  lemma RunTriggersToRespects<W(!new)>(pl: Plugins<W>, r: (W, W) -> bool, w: W, prm: Params, ts: seq<Transition>, next: NodeStateLabel)
    requires ActionsRespect(pl, r)
    ensures r(w, RunTriggersTo(pl, w, prm, ts, next).world)
  {
    var k := FirstTo(ts, next);
    if k.Some? {
      TriggersRespect(pl, r, w, prm, ts[k.value].trigger, |ts[k.value].trigger|);
    }
  }

  lemma ApplyRespects<W(!new)>(pl: Plugins<W>, r: (W, W) -> bool, w: W, prm: Params, chains: PluginChains, data: Data)
    requires Respects(pl, r)
    ensures r(w, Apply(pl, w, prm, chains, data).world)
  {
    if prm.profile in data.profiles {
      PreludeRespects(pl, r, w, prm, chains, data.profiles[prm.profile], data.notifications);
      var v := DecidingWorld(pl, w, prm, chains, data);
      DecideRespects(pl, r, v, prm, chains.transitions);
      var d := Decide(pl, v, prm, chains.transitions);
      RunTriggersToRespects(pl, r, d.world, prm, chains.transitions, d.next);
    }
  }

  lemma {:induction false} CollectRespects<W(!new)>(pl: Plugins<W>, r: (W, W) -> bool, w: W, states: seq<ProfileState>,
      profiles: map<string, ProfileData>, notes: map<string, nat>, n: nat)
    requires Respects(pl, r) && n <= |states| && StatesPresent(states, profiles)
    ensures r(w, Collect(pl, w, states, profiles, notes, n).world)
  {
    if n > 0 {
      CollectRespects(pl, r, w, states, profiles, notes, n - 1);
      var c, ps := Collect(pl, w, states, profiles, notes, n - 1), states[n - 1];
      ApplyRespects(pl, r, c.world, ParamsFor(ps, AnyInMaintenance(states), profiles), ChainsOf(ps.profile, ps.state), Data(profiles, c.notes));
    }
  }

  lemma {:induction false} AddNewRespects<W(!new)>(pl: Plugins<W>, r: (W, W) -> bool, w: W, profiles: map<string, ProfileData>, ps: seq<Profile>, n: nat)
    requires ActionsRespect(pl, r) && n <= |ps|
    ensures r(w, AddNew(pl, w, profiles, ps, n).world)
  {
    if n > 0 { AddNewRespects(pl, r, w, profiles, ps, n - 1); }
  }

  lemma {:induction false} CommitRespects<W(!new)>(pl: Plugins<W>, r: (W, W) -> bool, w: W, states: seq<ProfileState>, reports: seq<Report>,
      retrying: set<string>, profiles: map<string, ProfileData>, n: nat)
    requires ActionsRespect(pl, r) && n <= |states| == |reports| && StatesPresent(states, profiles)
    requires forall i :: 0 <= i < |states| ==> reports[i].state == states[i].state
    ensures r(w, Commit(pl, w, states, reports, retrying, profiles, n).world)
  {
    if n > 0 { CommitRespects(pl, r, w, states, reports, retrying, profiles, n - 1); }
  }

  // ---- a guard on every way into maintenance ----

  /** Every transition into maintenance needs instance g to pass. */
  ghost predicate Guarded(ts: seq<Transition>, g: string)
  {
    forall k :: 0 <= k < |ts| && ts[k].next == InMaintenance ==> ts[k].check.expr.Some? && Implies(ts[k].check.expr.value, g)
  }

  /** A chain that needs g passes only if g passed somewhere in its run. */
  lemma PassedGuard<W(!new)>(pl: Plugins<W>, r: (W, W) -> bool, w: W, prm: Params, chain: CheckChain, g: string) returns (v: W)
    requires Respects(pl, r) && chain.expr.Some? && Implies(chain.expr.value, g) && ExecuteChecks(pl, w, prm, chain).passed
    ensures r(w, v) && pl.check(v, prm, g).0 == Passed
  {
    var names := chain.plugins;
    var outcomes := RunChecks(pl, w, prm, names, |names|).outcomes;
    var k := ValueSource(names, outcomes, |names|, g);
    v := RunChecks(pl, w, prm, names, k).world;
    ChecksRespect(pl, r, w, prm, names, k);
    OutcomeOf(pl, w, prm, names, |names|, k);
  }

  lemma {:induction false} OutcomeOf<W>(pl: Plugins<W>, w: W, prm: Params, names: seq<string>, n: nat, k: nat)
    requires k < n <= |names|
    ensures RunChecks(pl, w, prm, names, n).outcomes[k] == pl.check(RunChecks(pl, w, prm, names, k).world, prm, names[k]).0
  {
    if k < n - 1 { OutcomeOf(pl, w, prm, names, n - 1, k); }
  }

  /** A profile enters maintenance only if the guard passed during its pass. */
  lemma EntryGuard<W(!new)>(pl: Plugins<W>, r: (W, W) -> bool, w: W, prm: Params, chains: PluginChains, data: Data, g: string) returns (v: W)
    requires Respects(pl, r) && Guarded(chains.transitions, g) && prm.state != InMaintenance
    requires Apply(pl, w, prm, chains, data).report.next == InMaintenance
    ensures r(w, v) && pl.check(v, prm, g).0 == Passed
  {
    var ts := chains.transitions;
    AppliedMove(pl, w, prm, chains, data);
    var start := DecidingWorld(pl, w, prm, chains, data);
    PreludeRespects(pl, r, w, prm, chains, data.profiles[prm.profile], data.notifications);
    v := DecisionGuard(pl, r, start, prm, ts, g);
  }

  lemma DecisionGuard<W(!new)>(pl: Plugins<W>, r: (W, W) -> bool, w: W, prm: Params, ts: seq<Transition>, g: string) returns (v: W)
    requires Respects(pl, r) && Guarded(ts, g) && prm.state != InMaintenance
    requires var d := Decide(pl, w, prm, ts); d.error.None? && d.next == InMaintenance
    ensures r(w, v) && pl.check(v, prm, g).0 == Passed
  {
    Followed(pl, w, prm, ts);
    var k := Decide(pl, w, prm, ts).pick.value;
    ExecuteAllRespects(pl, r, w, prm, ts, k);
    v := PassedGuard(pl, r, ExecuteAll(pl, w, prm, ts, k).world, prm, ts[k].check, g);
  }
}
