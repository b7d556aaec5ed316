/** Only one profile of a node should be in maintenance at a time.  The flag that enforces this is
    computed once per pass, so a pass that starts with nobody in maintenance keeps the promise for
    every plugin behaviour exactly when at most one active profile has a way in. */
module Exclusion {

  import opened Errors
  import opened Labels
  import opened Plugins
  import opened States
  import opened Handler
  import opened Passes
  import opened Scripts

  // ---- a static condition on the transitions of a state ----

  /** Transition k leads into maintenance and can be followed. */
  ghost predicate Opens(ts: seq<Transition>, k: nat)
  {
    Followable(ts, k, false) && ts[k].next == InMaintenance
  }

  ghost predicate CanEnter(ts: seq<Transition>)
  {
    exists k: nat :: Opens(ts, k)
  }

  function TransitionsAt(ps: ProfileState): seq<Transition>
  {
    ChainsOf(ps.profile, ps.state).transitions
  }

  ghost predicate OneWayIn(states: seq<ProfileState>)
  {
    forall i, j :: 0 <= i < |states| && 0 <= j < |states| && CanEnter(TransitionsAt(states[i])) && CanEnter(TransitionsAt(states[j])) ==>
      states[i].profile.name == states[j].profile.name
  }

  // ---- the condition is enough ----

  lemma EnteringWasPossible<W>(pl: Plugins<W>, w: W, prm: Params, chains: PluginChains, data: Data)
    requires !prm.inMaintenance && prm.state != InMaintenance
    requires Apply(pl, w, prm, chains, data).report.next == InMaintenance
    ensures CanEnter(chains.transitions)
  {
    AppliedMove(pl, w, prm, chains, data);
    FollowedIsFollowable(pl, DecidingWorld(pl, w, prm, chains, data), prm, chains.transitions);
    assert Opens(chains.transitions, Apply(pl, w, prm, chains, data).report.pick.value);
  }

  /** Starting with nobody in maintenance and at most one way in, at most one profile enters,
      whatever the plugins do. */
  lemma ExclusionHolds<W>(pl: Plugins<W>, w: W, tag: string, cfg: Config, data: Data)
    requires AllPresent(data.profiles, Active(tag, cfg)) && InMaintenanceSet(data.profiles) == {}
    requires OneWayIn(StatesOf(data.profiles, Active(tag, cfg)))
    ensures KeptBy(pl, w, tag, cfg, data)
  {
    forall x, y | x in InMaintenanceSet(ApplyAll(pl, w, tag, cfg, data).data.profiles)
                  && y in InMaintenanceSet(ApplyAll(pl, w, tag, cfg, data).data.profiles)
      ensures x == y
    {
      var i := EntrantIndex(pl, w, tag, cfg, data, x);
      var j := EntrantIndex(pl, w, tag, cfg, data, y);
    }
  }

  lemma EntrantIndex<W>(pl: Plugins<W>, w: W, tag: string, cfg: Config, data: Data, x: string) returns (i: nat)
    requires AllPresent(data.profiles, Active(tag, cfg)) && InMaintenanceSet(data.profiles) == {}
    requires x in InMaintenanceSet(ApplyAll(pl, w, tag, cfg, data).data.profiles)
    ensures var states := StatesOf(data.profiles, Active(tag, cfg));
            i < |states| && states[i].profile.name == x && CanEnter(TransitionsAt(states[i]))
  {
    var states := StatesOf(data.profiles, Active(tag, cfg));
    i := EntryIndex(pl, w, tag, cfg, data, x);
    var c := Collect(pl, w, states, data.profiles, data.notifications, i);
    EnteringWasPossible(pl, c.world, ParamsFor(states[i], false, data.profiles), ChainsOf(states[i].profile, states[i].state),
                        Data(data.profiles, c.notes));
  }

  // ---- the condition is needed: plugins that follow a script ----

  ghost predicate Usable(ps: ProfileState)
  {
    !ps.state.Unknown? && Sound(ChainsOf(ps.profile, ps.state))
  }

  /** The way in that is taken, if there is one. */
  ghost function Target(ts: seq<Transition>): (k: Option<nat>)
    ensures k.Some? <==> CanEnter(ts)
    ensures k.Some? ==> Opens(ts, k.value)
  {
    if CanEnter(ts) then var k: nat :| Opens(ts, k); Some(k) else None
  }

  /** The answers that let a profile in if it has a way in. */
  ghost function EntryScript(ts: seq<Transition>): seq<bool> { ScriptFrom(ts, Target(ts), false, 0) }

  ghost function PassScript(states: seq<ProfileState>, i: nat): seq<bool>
    requires i <= |states|
    decreases |states| - i
  {
    if i == |states| then [] else EntryScript(TransitionsAt(states[i])) + PassScript(states, i + 1)
  }

  ghost predicate AllUsable(states: seq<ProfileState>)
  {
    !AnyInMaintenance(states) && forall k :: 0 <= k < |states| ==> Usable(states[k])
  }

  /** The profile was applied without an error, and went in if it could. */
  ghost predicate TookWayIn(ps: ProfileState, t: Try)
  {
    t.Ran? && t.error.None? && (CanEnter(TransitionsAt(ps)) ==> t.report.next == InMaintenance)
  }

  lemma CollectScriptStep(ps: ProfileState, profiles: map<string, ProfileData>, c: Collected<seq<bool>>, rest: seq<bool>)
    requires Usable(ps) && ps.profile.name in profiles && c.world == EntryScript(TransitionsAt(ps)) + rest
    ensures var c' := CollectStep(Scripted(), ps, false, profiles, c); c'.world == rest && TookWayIn(ps, c'.tries[|c.tries|])
  {
    hide Apply, ScriptFrom, CanEnter, Sound;
    var ts := TransitionsAt(ps);
    assert Target(ts).Some? <==> CanEnter(ts);
    ApplyScript(ChainsOf(ps.profile, ps.state), Target(ts), ParamsFor(ps, false, profiles), rest, Data(profiles, c.notes));
  }

  lemma {:induction false} CollectScript(states: seq<ProfileState>, profiles: map<string, ProfileData>, notes: map<string, nat>, n: nat)
    requires n <= |states| && StatesPresent(states, profiles) && AllUsable(states)
    ensures Collect(Scripted(), PassScript(states, 0), states, profiles, notes, n).world == PassScript(states, n)
    ensures forall i :: 0 <= i < n ==> TookWayIn(states[i], Collect(Scripted(), PassScript(states, 0), states, profiles, notes, n).tries[i])
  {
    hide CollectStep, Usable, EntryScript, TookWayIn, Scripted;
    if n > 0 {
      CollectScript(states, profiles, notes, n - 1);
      var c := Collect(Scripted(), PassScript(states, 0), states, profiles, notes, n - 1);
      CollectScriptStep(states[n - 1], profiles, c, PassScript(states, n));
    }
  }

  lemma {:induction false} CommitEnters<W>(pl: Plugins<W>, w: W, states: seq<ProfileState>, reports: seq<Report>,
      profiles: map<string, ProfileData>, n: nat, i: nat)
    requires i < n <= |states| == |reports| && StatesPresent(states, profiles)
    requires forall k :: 0 <= k < |states| ==> reports[k].state == states[k].state && states[k].state != InMaintenance
    requires forall k :: 0 <= k < |states| && states[k].profile.name == states[i].profile.name ==> reports[k].next == InMaintenance
    ensures Commit(pl, w, states, reports, {}, profiles, n).profiles[states[i].profile.name].current == InMaintenance
  {
    if i < n - 1 {
      CommitEnters(pl, w, states, reports, profiles, n - 1, i);
    }
  }

  lemma ScriptedCommit(states: seq<ProfileState>, profiles: map<string, ProfileData>, notes: map<string, nat>, i: nat)
    requires StatesPresent(states, profiles) && AllUsable(states) && i < |states| && CanEnter(TransitionsAt(states[i]))
    requires forall k :: 0 <= k < |states| && states[k].profile.name == states[i].profile.name ==> states[k] == states[i]
    ensures var c := Collect(Scripted(), PassScript(states, 0), states, profiles, notes, |states|);
      && ErrorsOf(c.tries) == [] && |ReportsOf(c.tries)| == |states|
      && (forall k :: 0 <= k < |states| ==> ReportsOf(c.tries)[k].state == states[k].state)
      && Commit(Scripted(), c.world, states, ReportsOf(c.tries), RetryingOf(c.tries), profiles, |states|).profiles[states[i].profile.name].current == InMaintenance
  {
    hide Collect, Commit, PassScript, Usable, CanEnter, Opens;
    CollectScript(states, profiles, notes, |states|);
    var c := Collect(Scripted(), PassScript(states, 0), states, profiles, notes, |states|);
    Aligned(c.tries);
    assert RetryingOf(c.tries) == {};
    CommitEnters(Scripted(), c.world, states, ReportsOf(c.tries), profiles, |states|, i);
  }

  lemma ScriptedEntry(tag: string, cfg: Config, data: Data, i: nat)
    requires AllPresent(data.profiles, Active(tag, cfg)) && NamedByKey(cfg)
    requires var states := StatesOf(data.profiles, Active(tag, cfg));
      AllUsable(states) && i < |states| && CanEnter(TransitionsAt(states[i]))
    ensures var states := StatesOf(data.profiles, Active(tag, cfg));
      var a := ApplyAll(Scripted(), PassScript(states, 0), tag, cfg, data);
      a.error.None? && states[i].profile.name in InMaintenanceSet(a.data.profiles)
  {
    var states := StatesOf(data.profiles, Active(tag, cfg));
    SameNameSameProfile(tag, cfg);
    assert forall k :: 0 <= k < |states| && states[k].profile.name == states[i].profile.name ==> states[k] == states[i];
    ScriptedCommit(states, data.profiles, data.notifications, i);
  }

  ghost predicate AtMostOne(s: set<string>)
  {
    forall x, y :: x in s && y in s ==> x == y
  }

  ghost predicate KeptBy<W>(pl: Plugins<W>, w: W, tag: string, cfg: Config, data: Data)
    requires AllPresent(data.profiles, Active(tag, cfg))
  {
    AtMostOne(InMaintenanceSet(ApplyAll(pl, w, tag, cfg, data).data.profiles))
  }

  /** From a table with nobody in maintenance, the promise is kept under every script of check
      answers exactly when at most one active profile has a way in. */
  lemma ExclusionExact(tag: string, cfg: Config, data: Data)
    requires AllPresent(data.profiles, Active(tag, cfg)) && NamedByKey(cfg)
    requires InMaintenanceSet(data.profiles) == {} && AllUsable(StatesOf(data.profiles, Active(tag, cfg)))
    ensures OneWayIn(StatesOf(data.profiles, Active(tag, cfg))) <==>
            forall w: seq<bool> :: KeptBy(Scripted(), w, tag, cfg, data)
  {
    var states := StatesOf(data.profiles, Active(tag, cfg));
    if OneWayIn(states) {
      forall w: seq<bool> ensures KeptBy(Scripted(), w, tag, cfg, data) {
        ExclusionHolds(Scripted(), w, tag, cfg, data);
      }
    } else {
      var i, j :| && 0 <= i < |states| && 0 <= j < |states| && states[i].profile.name != states[j].profile.name
                  && CanEnter(TransitionsAt(states[i])) && CanEnter(TransitionsAt(states[j]));
      ScriptedEntry(tag, cfg, data, i);
      ScriptedEntry(tag, cfg, data, j);
      assert !KeptBy(Scripted(), PassScript(states, 0), tag, cfg, data);
    }
  }

  lemma SameNameSameProfile(tag: string, cfg: Config)
    requires NamedByKey(cfg)
    ensures var ps := Active(tag, cfg); forall i, j :: 0 <= i < |ps| && 0 <= j < |ps| && ps[i].name == ps[j].name ==> ps[i] == ps[j]
  {
    ConfiguredMembers(Parts(tag), cfg, |Parts(tag)|);
    var ps := Active(tag, cfg);
    forall i | 0 <= i < |ps| ensures ps[i].name in cfg && ps[i] == cfg[ps[i].name] {
      assert ps[i] in ps;
    }
  }
}
