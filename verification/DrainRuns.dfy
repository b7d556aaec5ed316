/** What a drain in the enter chain of a state guarantees before the state is left. */
module DrainRuns {

  import opened Plugins
  import opened States
  import opened Handler
  import opened Passes
  import opened Runs
  import opened History
  import opened Drain

  /** The enter chain of profile i of a pass. */
  function EnterChain<W>(cfg: Config, node: NodeObject, s: Step<W>, i: nat): seq<string>
    requires s.Pass? && i < |Snapshot(s.pl, s.w, cfg, node)|
  {
    var ps := Snapshot(s.pl, s.w, cfg, node)[i];
    ChainsOf(ps.profile, ps.state).enter
  }

  /** The first k triggers of the enter chain of profile i, run where the pass runs them. */
  function EnterRun<W>(cfg: Config, node: NodeObject, s: Step<W>, i: nat, k: nat): ActionRun<W>
    requires s.Pass? && i < |Snapshot(s.pl, s.w, cfg, node)| && k <= |EnterChain(cfg, node, s, i)|
  {
    RunTriggers(s.pl, EnterWorld(cfg, node, s, i), EnterParams(cfg, node, s, i), EnterChain(cfg, node, s, i), k)
  }

  function EnterWorld<W>(cfg: Config, node: NodeObject, s: Step<W>, i: nat): W
    requires s.Pass? && i < |Snapshot(s.pl, s.w, cfg, node)|
  {
    var t := Maintained(s.pl, s.w, cfg, node);
    Collect(s.pl, t.world, Snapshot(s.pl, s.w, cfg, node), t.profiles, DataOf(node).notifications, i).world
  }

  function EnterParams<W>(cfg: Config, node: NodeObject, s: Step<W>, i: nat): Params
    requires s.Pass? && i < |Snapshot(s.pl, s.w, cfg, node)|
  {
    var states := Snapshot(s.pl, s.w, cfg, node);
    ParamsFor(states[i], AnyInMaintenance(states), Maintained(s.pl, s.w, cfg, node).profiles)
  }

  lemma AppliedEnter<W>(pl: Plugins<W>, w: W, prm: Params, chains: PluginChains, data: Data)
    requires Apply(pl, w, prm, chains, data).report.entered
    ensures RunTriggers(pl, w, prm, chains.enter, |chains.enter|).error.None?
  {}

  lemma TriedEnter<W>(pl: Plugins<W>, w: W, states: seq<ProfileState>, profiles: map<string, ProfileData>, notes: map<string, nat>, i: nat)
    requires i < |states| && StatesPresent(states, profiles) && !states[i].state.Unknown?
    requires Collect(pl, w, states, profiles, notes, |states|).tries[i].report.entered
    ensures var c, enter := Collect(pl, w, states, profiles, notes, i), ChainsOf(states[i].profile, states[i].state).enter;
            RunTriggers(pl, c.world, ParamsFor(states[i], AnyInMaintenance(states), profiles), enter, |enter|).error.None?
  {
    TryAt(pl, w, states, profiles, notes, |states|, i);
    var c := Collect(pl, w, states, profiles, notes, i);
    AppliedEnter(pl, c.world, ParamsFor(states[i], AnyInMaintenance(states), profiles),
                 ChainsOf(states[i].profile, states[i].state), Data(profiles, c.notes));
  }

  /** The profile a committed result belongs to. */
  lemma OutcomeIndex<W>(cfg: Config, node: NodeObject, s: Step<W>, p: string) returns (i: nat)
    requires s.Pass? && Concerns(cfg, node, p) && Outcome(cfg, node, s, p).Some?
    ensures i < |Snapshot(s.pl, s.w, cfg, node)| && Snapshot(s.pl, s.w, cfg, node)[i].profile == cfg[p]
    ensures var t := Maintained(s.pl, s.w, cfg, node);
            var states := Snapshot(s.pl, s.w, cfg, node);
            var tries := Collect(s.pl, t.world, states, t.profiles, DataOf(node).notifications, |states|).tries;
            tries[i].Ran? && tries[i].report == Outcome(cfg, node, s, p).value && states[i].state == tries[i].report.state
  {
    i := IndexOf(cfg, node, s, p);
    var t := Maintained(s.pl, s.w, cfg, node);
    var states := Snapshot(s.pl, s.w, cfg, node);
    AllOrNothing(s.pl, t.world, Tag(node), cfg, Data(t.profiles, DataOf(node).notifications));
    FindReportIs(states, Collect(s.pl, t.world, states, t.profiles, DataOf(node).notifications, |states|).tries, i);
  }

  /** A result that entered ran the whole enter chain of its state without an error. */
  lemma EnteredWhole<W>(cfg: Config, node: NodeObject, s: Step<W>, p: string) returns (i: nat)
    requires s.Pass? && Concerns(cfg, node, p) && Entered(Outcome(cfg, node, s, p))
    ensures i < |Snapshot(s.pl, s.w, cfg, node)|
    ensures EnterChain(cfg, node, s, i) == ChainsOf(cfg[p], Outcome(cfg, node, s, p).value.state).enter
    ensures EnterRun(cfg, node, s, i, |EnterChain(cfg, node, s, i)|).error.None?
  {
    i := OutcomeIndex(cfg, node, s, p);
    var t := Maintained(s.pl, s.w, cfg, node);
    TriedEnter(s.pl, t.world, Snapshot(s.pl, s.w, cfg, node), t.profiles, DataOf(node).notifications, i);
  }

  /** Instance g is the drain action: it agrees only when the node has no pod left to drain. */
  ghost predicate Drains<W(!new)>(pl: Plugins<W>, pods: W -> seq<Pod>, g: string)
  {
    forall v, prm :: pl.trigger(v, prm, g).0.None? ==> Candidates(pods(v)) == []
  }

  /** Pass m ran the enter chain of profile i, and its k-th trigger found the node drained. */
  ghost predicate FoundDrained<W>(cfg: Config, node: NodeObject, s: Step<W>, pods: W -> seq<Pod>, i: nat, k: nat)
    requires s.Pass? && i < |Snapshot(s.pl, s.w, cfg, node)| && k <= |EnterChain(cfg, node, s, i)|
  {
    Candidates(pods(EnterRun(cfg, node, s, i, k).world)) == []
  }

  lemma PassFoundDrained<W(!new)>(cfg: Config, node: NodeObject, s: Step<W>, p: string, pods: W -> seq<Pod>, g: string)
    returns (i: nat, k: nat)
    requires s.Pass? && Concerns(cfg, node, p) && Entered(Outcome(cfg, node, s, p)) && Drains(s.pl, pods, g)
    requires g in ChainsOf(cfg[p], Outcome(cfg, node, s, p).value.state).enter
    ensures i < |Snapshot(s.pl, s.w, cfg, node)|
    ensures EnterChain(cfg, node, s, i) == ChainsOf(cfg[p], Outcome(cfg, node, s, p).value.state).enter
    ensures k < |EnterChain(cfg, node, s, i)| && EnterChain(cfg, node, s, i)[k] == g
    ensures FoundDrained(cfg, node, s, pods, i, k)
  {
    i := EnteredWhole(cfg, node, s, p);
    var enter := EnterChain(cfg, node, s, i);
    k :| 0 <= k < |enter| && enter[k] == g;
    EveryTriggerAgreed(s.pl, EnterWorld(cfg, node, s, i), EnterParams(cfg, node, s, i), enter, |enter|, k);
  }

  /** A profile that moved into a state with a drain in its enter chain leaves it only after a
      committed pass whose drain found no drainable pod, unless a label dropped the profile meanwhile. */
  lemma DrainedBeforeLeaving<W(!new)>(cfg: Config, start: NodeObject, steps: seq<Step<W>>, p: string, i: nat, j: nat,
                                      pods: W -> seq<Pod>, g: string) returns (m: nat, at: nat, k: nat)
    requires i < j < |steps| && Tracks(cfg, start, steps, p)
    requires forall n :: 0 <= n < |steps| && steps[n].Pass? ==> Drains(steps[n].pl, pods, g)
    requires Moved(OutcomeAt(cfg, start, steps, p, i)) && Moved(OutcomeAt(cfg, start, steps, p, j))
    requires p in cfg && g in ChainsOf(cfg[p], OutcomeAt(cfg, start, steps, p, i).value.next).enter
    ensures i < m <= j && Commits(cfg, At(cfg, start, steps, m), steps[m])
    ensures LosesAt(cfg, start, steps, p, m) || DrainedIn(cfg, At(cfg, start, steps, m), steps[m], pods, g, at, k)
    ensures p in Parts(Tag(At(cfg, start, steps, m))) ==> DrainedIn(cfg, At(cfg, start, steps, m), steps[m], pods, g, at, k)
  {
    m := EnterBeforeLeave(cfg, start, steps, p, i, j);
    at, k := 0, 0;
    if !LosesAt(cfg, start, steps, p, m) {
      StaysReadable(cfg, start, steps, m);
      NamedIfEntered(cfg, At(cfg, start, steps, m), steps[m], p);
      at, k := PassFoundDrained(cfg, At(cfg, start, steps, m), steps[m], p, pods, g);
    }
  }

  /** Only a pass that names the profile has a result for it. */
  lemma NamedIfEntered<W>(cfg: Config, node: NodeObject, s: Step<W>, p: string)
    requires s.Pass? && NamedByKey(cfg) && !node.stored.Garbled? && Outcome(cfg, node, s, p).Some?
    ensures p in Parts(Tag(node))
  {
    if p !in Parts(Tag(node)) {
      DetachedStep(cfg, node, s, p);
    }
  }

  /** The k-th trigger of the enter chain of profile `at` of this pass is the drain g, and it found no
      drainable pod. */
  ghost predicate DrainedIn<W>(cfg: Config, node: NodeObject, s: Step<W>, pods: W -> seq<Pod>, g: string, at: nat, k: nat)
  {
    && s.Pass? && at < |Snapshot(s.pl, s.w, cfg, node)|
    && k < |EnterChain(cfg, node, s, at)| && EnterChain(cfg, node, s, at)[k] == g
    && FoundDrained(cfg, node, s, pods, at, k)
  }

  /** While the label names the profile, a drain before leaving is certain. */
  lemma DrainedWhileNamed<W(!new)>(cfg: Config, start: NodeObject, steps: seq<Step<W>>, p: string, i: nat, j: nat,
                                   pods: W -> seq<Pod>, g: string) returns (m: nat, at: nat, k: nat)
    requires i < j < |steps| && Tracks(cfg, start, steps, p)
    requires forall n :: 0 <= n < |steps| && steps[n].Pass? ==> Drains(steps[n].pl, pods, g)
    requires Moved(OutcomeAt(cfg, start, steps, p, i)) && Moved(OutcomeAt(cfg, start, steps, p, j))
    requires p in cfg && g in ChainsOf(cfg[p], OutcomeAt(cfg, start, steps, p, i).value.next).enter
    requires forall n :: i < n <= j && steps[n].Pass? ==> p in Parts(Tag(At(cfg, start, steps, n)))
    ensures i < m <= j && Commits(cfg, At(cfg, start, steps, m), steps[m])
    ensures DrainedIn(cfg, At(cfg, start, steps, m), steps[m], pods, g, at, k)
  {
    hide DrainedIn, OutcomeAt, Tracks, AppliedIn;
    m, at, k := DrainedBeforeLeaving(cfg, start, steps, p, i, j, pods, g);
  }
}
