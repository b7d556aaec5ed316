/** What a whole pass means in terms of the plugin calls: the turns of the profiles, the errors that fail
    it, and the retries it lives with. */
module Turns {

  import opened Errors
  import opened Labels
  import opened Plugins
  import opened States
  import opened Handler
  import opened Calls
  import opened Applications
  import opened Passes

  /** The pass of the active profiles of a label over their data. */
  datatype Scene<!W> = Scene(pl: Plugins<W>, w: W, tag: string, cfg: Config, data: Data)

  ghost predicate Valid<W>(s: Scene<W>) { AllPresent(s.data.profiles, Active(s.tag, s.cfg)) }

  function ActiveStates<W>(s: Scene<W>): (states: seq<ProfileState>)
    requires Valid(s)
    ensures |states| == |Active(s.tag, s.cfg)| && StatesPresent(states, s.data.profiles)
  {
    StatesOf(s.data.profiles, Active(s.tag, s.cfg))
  }

  /** Where the turn of profile i starts, and with which notification times. */
  function Turn<W>(s: Scene<W>, i: nat): Collected<W>
    requires Valid(s) && i <= |ActiveStates(s)|
  {
    Collect(s.pl, s.w, ActiveStates(s), s.data.profiles, s.data.notifications, i)
  }

  function DataAt<W>(s: Scene<W>, i: nat): Data
    requires Valid(s) && i <= |ActiveStates(s)|
  {
    Data(s.data.profiles, Turn(s, i).notes)
  }

  function ParamsAt<W>(s: Scene<W>, i: nat): Params
    requires Valid(s) && i < |ActiveStates(s)|
  {
    ParamsFor(ActiveStates(s)[i], AnyInMaintenance(ActiveStates(s)), s.data.profiles)
  }

  function ChainsAt<W>(s: Scene<W>, i: nat): PluginChains
    requires Valid(s) && i < |ActiveStates(s)|
  {
    ChainsOf(ActiveStates(s)[i].profile, ActiveStates(s)[i].state)
  }

  function AppliedTo<W>(s: Scene<W>, i: nat): Applied<W>
    requires Valid(s) && i < |ActiveStates(s)|
  {
    Apply(s.pl, Turn(s, i).world, ParamsAt(s, i), ChainsAt(s, i), DataAt(s, i))
  }

  function Run<W>(s: Scene<W>): AppliedAll<W>
    requires Valid(s)
  {
    ApplyAll(s.pl, s.w, s.tag, s.cfg, s.data)
  }

  /** Profiles take their turns one after the other, each in the world and with the notification times the
      previous one left; every plugin is told the profile, its state, when it last changed, and whether any
      profile was in maintenance at the start. */
  lemma TurnsFollow<W>(s: Scene<W>, i: nat)
    requires Valid(s) && i < |ActiveStates(s)| && !ActiveStates(s)[i].state.Unknown?
    ensures Turn(s, 0).world == s.w && Turn(s, 0).notes == s.data.notifications && Turn(s, 0).sent == []
    ensures var a, next := AppliedTo(s, i), Turn(s, i + 1);
            next.world == a.world && next.notes == a.notes && next.sent == Turn(s, i).sent + a.sent && next.tries[i] == Ran(a.report, a.error)
    ensures ParamsAt(s, i) == Params(ActiveStates(s)[i].profile.name, s.data.profiles[ActiveStates(s)[i].profile.name].current,
                                     exists k :: 0 <= k < |ActiveStates(s)| && ActiveStates(s)[k].state == InMaintenance,
                                     s.data.profiles[ActiveStates(s)[i].profile.name].transition)
  {
    hide Apply;
  }

  /** The plugins profile i has to call in its turn all agree. */
  ghost predicate GoesWell<W>(s: Scene<W>, i: nat)
    requires Valid(s) && i < |ActiveStates(s)|
  {
    AllGoesWell(s.pl, Turn(s, i).world, ParamsAt(s, i), ChainsAt(s, i), DataAt(s, i))
  }

  /** The enter chain of profile i is due, and its first trigger that does not agree is trigger k, with e. */
  ghost predicate EnterRefused<W>(s: Scene<W>, i: nat, k: nat, e: Error)
    requires Valid(s) && i < |ActiveStates(s)|
  {
    && PendingEnter(s.data.profiles[ActiveStates(s)[i].profile.name])
    && Refuses(s.pl.trigger, Turn(s, i).world, ParamsAt(s, i), ChainsAt(s, i).enter, k)
    && AnswerOf(s.pl.trigger, Turn(s, i).world, ParamsAt(s, i), ChainsAt(s, i).enter, k) == Some(e)
  }

  /** Some check of profile i errs, after it was entered and its messages were sent. */
  ghost predicate CheckRefused<W>(s: Scene<W>, i: nat)
    requires Valid(s) && i < |ActiveStates(s)|
  {
    && Opened(s.pl, Turn(s, i).world, ParamsAt(s, i), ChainsAt(s, i), DataAt(s, i))
    && !NoCheckErrs(s.pl, NoticedIn(s.pl, Turn(s, i).world, ParamsAt(s, i), ChainsAt(s, i), DataAt(s, i)).world,
                    ParamsAt(s, i), ChainsAt(s, i).transitions)
  }

  ghost predicate Ready<W>(s: Scene<W>)
  {
    && Valid(s) && Distinct(ActiveStates(s))
    && forall i :: 0 <= i < |ActiveStates(s)| ==> !ActiveStates(s)[i].state.Unknown?
  }

  lemma TurnTry<W>(s: Scene<W>, i: nat)
    requires Ready(s) && i < |ActiveStates(s)|
    ensures |Run(s).tries| == |ActiveStates(s)| && Run(s).tries[i] == Ran(AppliedTo(s, i).report, AppliedTo(s, i).error)
    ensures AppliedAt(s.pl, s.w, ActiveStates(s), s.data.profiles, s.data.notifications, i) == AppliedTo(s, i)
  {
    hide Collect, Apply, Commit;
    TryAt(s.pl, s.w, ActiveStates(s), s.data.profiles, s.data.notifications, |ActiveStates(s)|, i);
  }

  lemma WellMeansNoError<W>(s: Scene<W>, i: nat)
    requires Ready(s) && i < |ActiveStates(s)|
    ensures AppliedTo(s, i).error.None? <==> GoesWell(s, i)
  {
    hide Apply, AllGoesWell, Collect;
    ApplyMeans(s.pl, Turn(s, i).world, ParamsAt(s, i), ChainsAt(s, i), DataAt(s, i));
  }

  lemma EnterError<W>(pl: Plugins<W>, w: W, prm: Params, chains: PluginChains, data: Data, k: nat)
    requires prm.profile in data.profiles && PendingEnter(data.profiles[prm.profile]) && Refuses(pl.trigger, w, prm, chains.enter, k)
    ensures var a, e := Apply(pl, w, prm, chains, data), AnswerOf(pl.trigger, w, prm, chains.enter, k).value;
            a.error.Some? && (IsRetry(a.error.value) <==> IsRetry(e)) && !a.report.entered
  {
    TriggersMean(pl, w, prm, chains.enter);
    hide RunTriggers, Refuses, AnswerOf, RunNotify, Decide, RunTriggersTo;
  }

  /** A drain that asks for a retry, or any other enter trigger that does: the profile keeps its triple and
      its enter chain stays due; and if everything goes well for the others, the pass has no error and each
      of them commits its own result. */
  lemma RetryKeepsProfile<W>(s: Scene<W>, i: nat, k: nat)
    requires Ready(s) && i < |ActiveStates(s)| && EnterRefused(s, i, k, Retry)
    ensures Run(s).data.profiles[ActiveStates(s)[i].profile.name] == s.data.profiles[ActiveStates(s)[i].profile.name]
    ensures (forall j :: 0 <= j < |ActiveStates(s)| && j != i ==> GoesWell(s, j)) ==>
      && Run(s).error.None?
      && forall j :: 0 <= j < |ActiveStates(s)| && j != i ==>
           var x := ActiveStates(s)[j].profile.name; Settled(s.data.profiles[x], Run(s).data.profiles[x], AppliedTo(s, j).report)
  {
    hide Apply, Collect, Commit, GoesWell, AnswerOf, Refuses;
    EnterError(s.pl, Turn(s, i).world, ParamsAt(s, i), ChainsAt(s, i), DataAt(s, i), k);
    forall j | 0 <= j < |ActiveStates(s)|
      ensures Run(s).tries[j] == Ran(AppliedTo(s, j).report, AppliedTo(s, j).error)
      ensures AppliedTo(s, j).error.None? <==> GoesWell(s, j)
    {
      TurnTry(s, j);
      WellMeansNoError(s, j);
    }
    AllOrNothing(s.pl, s.w, s.tag, s.cfg, s.data);
    hide ApplyAll;
  }

  /** Any other error of an enter trigger fails the pass, and no triple changes. */
  lemma PlainErrorFailsPass<W>(s: Scene<W>, i: nat, k: nat, r: Reason)
    requires Ready(s) && i < |ActiveStates(s)| && EnterRefused(s, i, k, Plain(r))
    ensures Run(s).error.Some? && Run(s).data.profiles == s.data.profiles
  {
    hide Apply, Collect, Commit, AnswerOf, Refuses;
    EnterError(s.pl, Turn(s, i).world, ParamsAt(s, i), ChainsAt(s, i), DataAt(s, i), k);
    TurnTry(s, i);
    AllOrNothing(s.pl, s.w, s.tag, s.cfg, s.data);
    assert Breaks(Run(s).tries[i]);
  }

  lemma CheckError<W>(pl: Plugins<W>, w: W, prm: Params, chains: PluginChains, data: Data)
    requires prm.profile in data.profiles && Opened(pl, w, prm, chains, data)
    requires !NoCheckErrs(pl, NoticedIn(pl, w, prm, chains, data).world, prm, chains.transitions)
    ensures var a := Apply(pl, w, prm, chains, data); a.error.Some? && !IsRetry(a.error.value)
  {
    PreludeMeans(pl, w, prm, chains, data);
    CheckErrorIsError(pl, NoticedIn(pl, w, prm, chains, data).world, prm, chains.transitions);
    hide RunPrelude, Decide, Opened, NoticedIn, NoCheckErrs;
  }

  /** A check plugin that errs fails the pass, whatever the other checks say, and no triple changes: a due
      enter chain that has just run stays due. */
  lemma CheckErrorFailsPass<W>(s: Scene<W>, i: nat)
    requires Ready(s) && i < |ActiveStates(s)| && CheckRefused(s, i)
    ensures Run(s).error.Some? && Run(s).data.profiles == s.data.profiles
  {
    hide Apply, Collect, Commit, Opened, NoticedIn, NoCheckErrs;
    CheckError(s.pl, Turn(s, i).world, ParamsAt(s, i), ChainsAt(s, i), DataAt(s, i));
    TurnTry(s, i);
    AllOrNothing(s.pl, s.w, s.tag, s.cfg, s.data);
    assert Breaks(Run(s).tries[i]);
  }

  /** If everything goes well for every profile, the pass has no error and commits every result. */
  lemma AllWell<W>(s: Scene<W>)
    requires Ready(s) && forall i :: 0 <= i < |ActiveStates(s)| ==> GoesWell(s, i)
    ensures Run(s).error.None?
    ensures forall i :: 0 <= i < |ActiveStates(s)| ==>
      var x := ActiveStates(s)[i].profile.name; Settled(s.data.profiles[x], Run(s).data.profiles[x], AppliedTo(s, i).report)
  {
    hide Apply, Collect, Commit, GoesWell;
    forall j | 0 <= j < |ActiveStates(s)|
      ensures Run(s).tries[j] == Ran(AppliedTo(s, j).report, AppliedTo(s, j).error) && AppliedTo(s, j).error.None?
    {
      TurnTry(s, j);
      WellMeansNoError(s, j);
    }
    AllOrNothing(s.pl, s.w, s.tag, s.cfg, s.data);
    hide ApplyAll;
  }

  // ---- the pass over a node ----

  /** The scene of a pass over a node. */
  function SceneOf<W>(pl: Plugins<W>, w: W, cfg: Config, node: NodeObject): Scene<W>
  {
    var t := Maintained(pl, w, cfg, node);
    Scene(pl, t.world, Tag(node), cfg, Data(t.profiles, DataOf(node).notifications))
  }

  /** A pass over a node fails exactly if its data cannot be read or its scene fails, and then the node is
      unchanged. */
  lemma NodePass<W>(pl: Plugins<W>, w: W, cfg: Config, node: NodeObject)
    ensures Valid(SceneOf(pl, w, cfg, node))
    ensures var r := RunPass(pl, w, cfg, node);
      && (r.error.Some? <==> node.stored.Garbled? || Run(SceneOf(pl, w, cfg, node)).error.Some?)
      && (r.error.Some? ==> r.node == node)
      && (r.error.None? ==> r.node.stored == Decoded(Run(SceneOf(pl, w, cfg, node)).data))
  {
    hide ApplyAll, Maintain, Active;
  }

  /** An erring check plugin fails the pass over the node: nothing is written. */
  lemma CheckErrorWritesNothing<W>(pl: Plugins<W>, w: W, cfg: Config, node: NodeObject, i: nat, patchOk: bool)
    requires !node.stored.Garbled? && Ready(SceneOf(pl, w, cfg, node)) && i < |ActiveStates(SceneOf(pl, w, cfg, node))|
    requires CheckRefused(SceneOf(pl, w, cfg, node), i)
    ensures RunPass(pl, w, cfg, node).error.Some? && Persisted(pl, w, cfg, node, patchOk) == node
  {
    hide RunPass, SceneOf, Ready, CheckRefused;
    CheckErrorFailsPass(SceneOf(pl, w, cfg, node), i);
    NodePass(pl, w, cfg, node);
  }
}
