/** Whose triggers run.  The triggers of a move are looked up by its target, so they are those of the
    followed transition for every plugin behaviour exactly when no transition that can be followed
    shares its target with an earlier one that has other triggers. */
module Routing {

  import opened Errors
  import opened Labels
  import opened Plugins
  import opened States
  import opened Applications
  import opened Passes
  import opened Scripts

  /** The first transition with the target of transition k has other triggers. */
  ghost predicate Misrouted(ts: seq<Transition>, k: nat)
    requires k < |ts|
  {
    exists j :: 0 <= j < k && FirstWith(ts, j, ts[k].next) && ts[j].trigger != ts[k].trigger
  }

  /** Every transition that can be followed out of the state finds its own triggers. */
  ghost predicate WellRouted(ts: seq<Transition>, state: NodeStateLabel, flag: bool)
  {
    forall k :: 0 <= k < |ts| && Followable(ts, k, flag) && ts[k].next != state ==> !Misrouted(ts, k)
  }

  /** If the profile moved, the triggers that ran are the followed transition's. */
  predicate OwnTriggers(r: Report, ts: seq<Transition>)
  {
    r.next != r.state ==>
      && r.pick.Some? && r.pick.value < |ts| && r.ran.Some? && r.ran.value < |ts|
      && ts[r.pick.value].next == r.next && ts[r.ran.value].trigger == ts[r.pick.value].trigger
  }

  /** In a well-routed state the followed transition's triggers run, whatever the plugins do. */
  lemma RightTriggersHold<W>(pl: Plugins<W>, w: W, prm: Params, chains: PluginChains, data: Data)
    requires WellRouted(chains.transitions, prm.state, prm.inMaintenance)
    ensures OwnTriggers(Apply(pl, w, prm, chains, data).report, chains.transitions)
  {
    var r, ts := Apply(pl, w, prm, chains, data).report, chains.transitions;
    if r.next != r.state {
      AppliedMove(pl, w, prm, chains, data);
      FollowedIsFollowable(pl, DecidingWorld(pl, w, prm, chains, data), prm, ts);
      hide Apply, Decide, Followable;
      var k, j := r.pick.value, r.ran.value;
      assert FirstWith(ts, j, r.next) && j <= k && !Misrouted(ts, k);
    }
  }

  /** The promise of right triggers is kept under every script of check answers exactly in a
      well-routed state. */
  lemma RightTriggersExact(prm: Params, chains: PluginChains, data: Data)
    requires Sound(chains) && prm.profile in data.profiles
    ensures WellRouted(chains.transitions, prm.state, prm.inMaintenance) <==>
            forall w: seq<bool> :: OwnTriggers(Apply(Scripted(), w, prm, chains, data).report, chains.transitions)
  {
    hide Apply, Sound, Followable;
    var ts, flag := chains.transitions, prm.inMaintenance;
    if WellRouted(ts, prm.state, flag) {
      forall w: seq<bool> ensures OwnTriggers(Apply(Scripted(), w, prm, chains, data).report, ts) {
        RightTriggersHold(Scripted(), w, prm, chains, data);
      }
    } else {
      var k :| 0 <= k < |ts| && Followable(ts, k, flag) && ts[k].next != prm.state && Misrouted(ts, k);
      var j :| 0 <= j < k && FirstWith(ts, j, ts[k].next) && ts[j].trigger != ts[k].trigger;
      ApplyScript(chains, Some(k), prm, [], data);
      var w := ScriptFrom(ts, Some(k), flag, 0) + [];
      assert Apply(Scripted(), w, prm, chains, data).report.ran == Some(j);
      assert !OwnTriggers(Apply(Scripted(), w, prm, chains, data).report, ts);
    }
  }

  /** With distinct targets in a state's list, the very transition that is followed is the one whose
      triggers run, whatever the plugins do. */
  lemma DistinctTargets<W>(pl: Plugins<W>, w: W, prm: Params, chains: PluginChains, data: Data)
    requires forall i, j :: 0 <= i < j < |chains.transitions| ==> chains.transitions[i].next != chains.transitions[j].next
    ensures var r := Apply(pl, w, prm, chains, data).report; r.next != r.state ==> r.pick.Some? && r.ran == r.pick
    ensures WellRouted(chains.transitions, prm.state, prm.inMaintenance)
  {
    if Apply(pl, w, prm, chains, data).report.next != prm.state {
      TriggerOwner(pl, w, prm, chains, data);
    }
  }
}
