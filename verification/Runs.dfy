/** Runs of reconcile passes over one node, with arbitrary plugins in every pass and arbitrary label
    edits between passes, and what every such run keeps. */
module Runs {

  import opened Errors
  import opened Strings
  import opened Labels
  import opened CheckExpressions
  import opened Plugins
  import opened States
  import opened Handler
  import opened Passes
  import opened Scripts
  import opened Exclusion

  datatype Step<!W> =
    | Pass(pl: Plugins<W>, w: W, patchOk: bool)
    | Relabel(labels: map<string, string>)

  function After<W>(cfg: Config, node: NodeObject, s: Step<W>): NodeObject
  {
    match s
    case Pass(pl, w, patchOk) => Persisted(pl, w, cfg, node, patchOk)
    case Relabel(labels) => node.(labels := labels)
  }

  /** The node after the first n steps. */
  function At<W>(cfg: Config, start: NodeObject, steps: seq<Step<W>>, n: nat): NodeObject
    requires n <= |steps|
  {
    if n == 0 then start else After(cfg, At(cfg, start, steps, n - 1), steps[n - 1])
  }

  lemma PassData<W>(pl: Plugins<W>, w: W, cfg: Config, node: NodeObject, patchOk: bool)
    requires !node.stored.Garbled?
    ensures var a := AppliedIn(pl, w, cfg, node);
      var after := Persisted(pl, w, cfg, node, patchOk);
      && RunPass(pl, w, cfg, node).error == a.error
      && RunPass(pl, w, cfg, node).tries == a.tries
      && RunPass(pl, w, cfg, node).sent == a.sent
      && (if a.error.None? && patchOk then after.stored == Decoded(a.data) else after == node)
  {}

  // ---- reachable data is well formed ----

  ghost predicate WellFormedConfig(cfg: Config)
  {
    && NamedByKey(cfg)
    && forall x, l, k :: x in cfg && 0 <= k < |ChainsOf(cfg[x], l).transitions| ==> !ChainsOf(cfg[x], l).transitions[k].next.Unknown?
  }

  ghost predicate Along(p: Profile, from: NodeStateLabel, to: NodeStateLabel)
  {
    exists k :: 0 <= k < |ChainsOf(p, from).transitions| && ChainsOf(p, from).transitions[k].next == to
  }

  ghost predicate WellFormedEntry(cfg: Config, x: string, pd: ProfileData)
  {
    && x in cfg && !pd.current.Unknown? && !pd.previous.Unknown?
    && (pd.previous != pd.current ==> Along(cfg[x], pd.previous, pd.current))
  }

  ghost predicate WellFormedTable(cfg: Config, profiles: map<string, ProfileData>)
  {
    forall x :: x in profiles ==> WellFormedEntry(cfg, x, profiles[x])
  }

  ghost predicate WellFormed(cfg: Config, node: NodeObject)
  {
    !node.stored.Garbled? && WellFormedTable(cfg, DataOf(node).profiles)
  }

  /** A triple after the commit loop is the old one, or its previous state is the old current state
      and its current state is that state or the target of a report. */
  lemma {:induction false} CommitShape<W>(pl: Plugins<W>, w: W, states: seq<ProfileState>, reports: seq<Report>,
      retrying: set<string>, profiles: map<string, ProfileData>, n: nat, x: string)
    requires n <= |states| == |reports| && StatesPresent(states, profiles) && x in profiles
    requires forall i :: 0 <= i < |states| ==> reports[i].state == states[i].state == profiles[states[i].profile.name].current
    ensures var pd, old_ := Commit(pl, w, states, reports, retrying, profiles, n).profiles[x], profiles[x];
      || pd == old_
      || (&& pd.previous == old_.current
          && (|| pd.current == old_.current
              || exists i :: 0 <= i < n && states[i].profile.name == x && reports[i].next == pd.current && reports[i].next != reports[i].state))
  {
    if n > 0 {
      CommitShape(pl, w, states, reports, retrying, profiles, n - 1, x);
    }
  }

  /** A report only ever leads along a configured transition of its profile's state. */
  lemma ReportAlong<W>(pl: Plugins<W>, w: W, states: seq<ProfileState>, profiles: map<string, ProfileData>,
                       notes: map<string, nat>, i: nat)
    requires i < |states| && StatesPresent(states, profiles) && !states[i].state.Unknown?
    ensures var r := Collect(pl, w, states, profiles, notes, |states|).tries[i].report;
            r.next != r.state ==> Along(states[i].profile, r.state, r.next)
  {
    TryAt(pl, w, states, profiles, notes, |states|, i);
    var c := Collect(pl, w, states, profiles, notes, i);
    var prm, chains := ParamsFor(states[i], AnyInMaintenance(states), profiles), ChainsOf(states[i].profile, states[i].state);
    var r := Apply(pl, c.world, prm, chains, Data(profiles, c.notes)).report;
    if r.next != r.state {
      AppliedMove(pl, c.world, prm, chains, Data(profiles, c.notes));
      Followed(pl, DecidingWorld(pl, c.world, prm, chains, Data(profiles, c.notes)), prm, chains.transitions);
    }
  }

  lemma ActiveAreConfigured(tag: string, cfg: Config)
    requires NamedByKey(cfg)
    ensures var ps := Active(tag, cfg); forall i :: 0 <= i < |ps| ==> ps[i].name in cfg && ps[i] == cfg[ps[i].name]
    ensures forall x :: x in Parts(tag) && x in cfg ==> cfg[x] in Active(tag, cfg)
  {
    ConfiguredMembers(Parts(tag), cfg, |Parts(tag)|);
    var ps := Active(tag, cfg);
    forall i | 0 <= i < |ps| ensures ps[i].name in cfg && ps[i] == cfg[ps[i].name] {
      assert ps[i] in ps;
    }
  }

  lemma AlongKnown(cfg: Config, x: string)
    requires WellFormedConfig(cfg) && x in cfg
    ensures forall l, m :: Along(cfg[x], l, m) ==> !m.Unknown?
  {}

  lemma ApplyWellFormed<W>(pl: Plugins<W>, w: W, tag: string, cfg: Config, data: Data)
    requires WellFormedConfig(cfg) && WellFormedTable(cfg, data.profiles) && AllPresent(data.profiles, Active(tag, cfg))
    ensures WellFormedTable(cfg, ApplyAll(pl, w, tag, cfg, data).data.profiles)
    ensures forall i :: 0 <= i < |Active(tag, cfg)| ==> ApplyAll(pl, w, tag, cfg, data).tries[i].Ran?
  {
    hide Collect, Commit, Active, Along, ErrorsOf, ReportsOf, RetryingOf;
    var states := StatesOf(data.profiles, Active(tag, cfg));
    var c := Collect(pl, w, states, data.profiles, data.notifications, |states|);
    ActiveAreConfigured(tag, cfg);
    assert forall i :: 0 <= i < |states| ==> WellFormedEntry(cfg, states[i].profile.name, data.profiles[states[i].profile.name]);
    Aligned(c.tries);
    if ErrorsOf(c.tries) == [] {
      var after := Commit(pl, c.world, states, ReportsOf(c.tries), RetryingOf(c.tries), data.profiles, |states|).profiles;
      forall x | x in after ensures WellFormedEntry(cfg, x, after[x]) {
        assert WellFormedEntry(cfg, x, data.profiles[x]);
        AlongKnown(cfg, x);
        CommitShape(pl, c.world, states, ReportsOf(c.tries), RetryingOf(c.tries), data.profiles, |states|, x);
        forall i | 0 <= i < |states| && states[i].profile.name == x
          ensures var r := ReportsOf(c.tries)[i]; r.next != r.state ==> Along(cfg[x], data.profiles[x].current, r.next)
        {
          ReportAlong(pl, w, states, data.profiles, data.notifications, i);
        }
      }
    }
  }

  lemma StepWellFormed<W>(cfg: Config, node: NodeObject, s: Step<W>)
    requires WellFormedConfig(cfg) && WellFormed(cfg, node)
    ensures WellFormed(cfg, After(cfg, node, s))
    ensures s.Pass? ==> WellFormedTable(cfg, Maintained(s.pl, s.w, cfg, node).profiles)
    ensures s.Pass? ==> forall t :: t in AppliedIn(s.pl, s.w, cfg, node).tries ==> t.Ran?
  {
    if s.Pass? {
      var t := Maintained(s.pl, s.w, cfg, node);
      MaintainedTable(s.pl, s.w, DataOf(node).profiles, Tag(node), cfg);
      forall x | x in t.profiles ensures WellFormedEntry(cfg, x, t.profiles[x]) {
        assert x in DataOf(node).profiles ==> WellFormedEntry(cfg, x, DataOf(node).profiles[x]);
      }
      ApplyWellFormed(s.pl, t.world, Tag(node), cfg, Data(t.profiles, DataOf(node).notifications));
      PassData(s.pl, s.w, cfg, node, s.patchOk);
    }
  }

  /** From a node without data, on every run: the stored data stays readable, every profile in it is
      configured and in a known state, a pending state change lies along a configured transition, and
      no pass ever meets a profile whose state object cannot be made. */
  lemma {:induction false} ReachableWellFormed<W>(cfg: Config, start: NodeObject, steps: seq<Step<W>>, n: nat)
    requires n <= |steps| && WellFormedConfig(cfg) && start.stored.Absent?
    ensures WellFormed(cfg, At(cfg, start, steps, n))
    ensures n < |steps| && steps[n].Pass? ==>
      forall t :: t in RunPass(steps[n].pl, steps[n].w, cfg, At(cfg, start, steps, n)).tries ==> t.Ran?
  {
    hide WellFormedConfig, AppliedIn;
    if n > 0 {
      ReachableWellFormed(cfg, start, steps, n - 1);
      StepWellFormed(cfg, At(cfg, start, steps, n - 1), steps[n - 1]);
    }
    if n < |steps| && steps[n].Pass? {
      var node := At(cfg, start, steps, n);
      StepWellFormed(cfg, node, steps[n]);
      PassData(steps[n].pl, steps[n].w, cfg, node, steps[n].patchOk);
    }
  }

  // ---- at most one profile in maintenance ----

  /** Profile i of this pass wants to go into maintenance. */
  ghost predicate WantsIn<W>(pl: Plugins<W>, w: W, cfg: Config, node: NodeObject, i: nat)
    requires i < |Snapshot(pl, w, cfg, node)|
  {
    var t, states := Maintained(pl, w, cfg, node), Snapshot(pl, w, cfg, node);
    && states[i].state != InMaintenance
    && AppliedAt(pl, t.world, states, t.profiles, DataOf(node).notifications, i).report.next == InMaintenance
  }

  /** At most one profile's own result leads into maintenance. */
  ghost predicate OneEntrant<W>(pl: Plugins<W>, w: W, cfg: Config, node: NodeObject)
  {
    var states := Snapshot(pl, w, cfg, node);
    forall i, j :: 0 <= i < |states| && 0 <= j < |states| && WantsIn(pl, w, cfg, node, i) && WantsIn(pl, w, cfg, node, j) ==>
      states[i].profile.name == states[j].profile.name
  }

  predicate Commits<W>(cfg: Config, node: NodeObject, s: Step<W>)
  {
    s.Pass? && s.patchOk && AppliedIn(s.pl, s.w, cfg, node).error.None?
  }

  /** If the step commits anything, at most one profile enters in it. */
  ghost predicate EntersOne<W>(cfg: Config, node: NodeObject, s: Step<W>)
  {
    Commits(cfg, node, s) ==> OneEntrant(s.pl, s.w, cfg, node)
  }

  /** A profile that is in maintenance in the maintained table raises the flag. */
  lemma ActiveIn<W>(cfg: Config, node: NodeObject, s: Step<W>, x: string)
    requires WellFormedConfig(cfg) && WellFormed(cfg, node) && s.Pass?
    requires x in InMaintenanceSet(Maintained(s.pl, s.w, cfg, node).profiles)
    ensures AnyInMaintenance(Snapshot(s.pl, s.w, cfg, node))
  {
    hide Maintain, Active, After, AppliedIn;
    MaintainedTable(s.pl, s.w, DataOf(node).profiles, Tag(node), cfg);
    StepWellFormed(cfg, node, s);
    ActiveAreConfigured(Tag(node), cfg);
    assert WellFormedEntry(cfg, x, Maintained(s.pl, s.w, cfg, node).profiles[x]);
    var ps := Active(Tag(node), cfg);
    var i :| 0 <= i < |ps| && ps[i] == cfg[x];
    assert Snapshot(s.pl, s.w, cfg, node)[i].state == InMaintenance;
  }

  /** One step keeps the promise if at most one profile enters in it. */
  lemma StepExclusion<W>(cfg: Config, node: NodeObject, s: Step<W>)
    requires WellFormedConfig(cfg) && WellFormed(cfg, node) && EntersOne(cfg, node, s)
    requires AtMostOne(InMaintenanceSet(DataOf(node).profiles))
    ensures AtMostOne(InMaintenanceSet(DataOf(After(cfg, node, s)).profiles))
  {
    if s.Pass? {
      PassData(s.pl, s.w, cfg, node, s.patchOk);
      if Commits(cfg, node, s) {
        CommitExclusion(cfg, node, s);
      }
    }
  }

  lemma CommitExclusion<W>(cfg: Config, node: NodeObject, s: Step<W>)
    requires WellFormedConfig(cfg) && WellFormed(cfg, node) && s.Pass? && OneEntrant(s.pl, s.w, cfg, node)
    requires AtMostOne(InMaintenanceSet(DataOf(node).profiles))
    ensures AtMostOne(InMaintenanceSet(AppliedIn(s.pl, s.w, cfg, node).data.profiles))
  {
    hide Maintain, Active, ApplyAll, Apply, WellFormedTable;
    var t := Maintained(s.pl, s.w, cfg, node);
    var data := Data(t.profiles, DataOf(node).notifications);
    MaintainedTable(s.pl, s.w, DataOf(node).profiles, Tag(node), cfg);
    assert InMaintenanceSet(t.profiles) <= InMaintenanceSet(DataOf(node).profiles);
    if x :| x in InMaintenanceSet(t.profiles) {
      ActiveIn(cfg, node, s, x);
      KeepsMaintenance(s.pl, t.world, Tag(node), cfg, data);
    } else {
      forall x, y | x in InMaintenanceSet(AppliedIn(s.pl, s.w, cfg, node).data.profiles)
                    && y in InMaintenanceSet(AppliedIn(s.pl, s.w, cfg, node).data.profiles)
        ensures x == y
      {
        var i := EntryIndex(s.pl, t.world, Tag(node), cfg, data, x);
        var j := EntryIndex(s.pl, t.world, Tag(node), cfg, data, y);
        assert WantsIn(s.pl, s.w, cfg, node, i) && WantsIn(s.pl, s.w, cfg, node, j);
      }
    }
  }

  /** Whoever wants in gets in when the pass is committed. */
  lemma EntrantEnters<W>(cfg: Config, node: NodeObject, s: Step<W>, i: nat)
    requires !node.stored.Garbled? && Commits(cfg, node, s) && Distinct(Snapshot(s.pl, s.w, cfg, node))
    requires i < |Snapshot(s.pl, s.w, cfg, node)| && !Snapshot(s.pl, s.w, cfg, node)[i].state.Unknown?
    requires WantsIn(s.pl, s.w, cfg, node, i)
    ensures Snapshot(s.pl, s.w, cfg, node)[i].profile.name in InMaintenanceSet(DataOf(After(cfg, node, s)).profiles)
  {
    hide Maintain, Active, Apply;
    var t, states := Maintained(s.pl, s.w, cfg, node), Snapshot(s.pl, s.w, cfg, node);
    PassData(s.pl, s.w, cfg, node, s.patchOk);
    AllOrNothing(s.pl, t.world, Tag(node), cfg, Data(t.profiles, DataOf(node).notifications));
    TryAt(s.pl, t.world, states, t.profiles, DataOf(node).notifications, |states|, i);
  }

  /** At most one profile is ever in maintenance on a run over distinct labels, exactly if at most one
      profile enters in every committed pass. */
  lemma ExclusionOverRuns<W>(cfg: Config, start: NodeObject, steps: seq<Step<W>>)
    requires WellFormedConfig(cfg) && start.stored.Absent?
    requires forall k :: 0 <= k < |steps| ==> DistinctStep(cfg, At(cfg, start, steps, k), steps[k])
    ensures (forall n :: 0 <= n <= |steps| ==> KeptAt(cfg, start, steps, n)) <==>
            (forall k :: 0 <= k < |steps| ==> EntersOne(cfg, At(cfg, start, steps, k), steps[k]))
  {
    hide DistinctStep, KeptAt, EntersOne;
    if forall k :: 0 <= k < |steps| ==> EntersOne(cfg, At(cfg, start, steps, k), steps[k]) {
      forall n | 0 <= n <= |steps| ensures KeptAt(cfg, start, steps, n) {
        EntrantsOverRuns(cfg, start, steps, n);
      }
    } else if forall n :: 0 <= n <= |steps| ==> KeptAt(cfg, start, steps, n) {
      forall k | 0 <= k < |steps| ensures EntersOne(cfg, At(cfg, start, steps, k), steps[k]) {
        assert KeptAt(cfg, start, steps, k + 1);
        KeptMeansOne(cfg, start, steps, k);
      }
    }
  }

  ghost predicate KeptAt<W>(cfg: Config, start: NodeObject, steps: seq<Step<W>>, n: nat)
    requires n <= |steps|
  {
    AtMostOne(InMaintenanceSet(DataOf(At(cfg, start, steps, n)).profiles))
  }

  ghost predicate DistinctStep<W>(cfg: Config, node: NodeObject, s: Step<W>)
  {
    s.Pass? ==> Distinct(Snapshot(s.pl, s.w, cfg, node))
  }

  lemma KeptMeansOne<W>(cfg: Config, start: NodeObject, steps: seq<Step<W>>, k: nat)
    requires WellFormedConfig(cfg) && start.stored.Absent? && k < |steps|
    requires DistinctStep(cfg, At(cfg, start, steps, k), steps[k]) && KeptAt(cfg, start, steps, k + 1)
    ensures EntersOne(cfg, At(cfg, start, steps, k), steps[k])
  {
    var node, s := At(cfg, start, steps, k), steps[k];
    ReachableWellFormed(cfg, start, steps, k);
    assert At(cfg, start, steps, k + 1) == After(cfg, node, s);
    hide At;
    if Commits(cfg, node, s) {
      KeptStepMeansOne(cfg, node, s);
    }
  }

  lemma KeptStepMeansOne<W>(cfg: Config, node: NodeObject, s: Step<W>)
    requires WellFormedConfig(cfg) && WellFormed(cfg, node) && Commits(cfg, node, s) && Distinct(Snapshot(s.pl, s.w, cfg, node))
    requires AtMostOne(InMaintenanceSet(DataOf(After(cfg, node, s)).profiles))
    ensures OneEntrant(s.pl, s.w, cfg, node)
  {
    hide After, AppliedIn, WantsIn, InMaintenanceSet;
    var states := Snapshot(s.pl, s.w, cfg, node);
    forall i, j | 0 <= i < |states| && 0 <= j < |states| && WantsIn(s.pl, s.w, cfg, node, i) && WantsIn(s.pl, s.w, cfg, node, j)
      ensures states[i].profile.name == states[j].profile.name
    {
      KnownState(cfg, node, s, i);
      KnownState(cfg, node, s, j);
      EntrantEnters(cfg, node, s, i);
      EntrantEnters(cfg, node, s, j);
    }
  }

  lemma KnownState<W>(cfg: Config, node: NodeObject, s: Step<W>, i: nat)
    requires WellFormedConfig(cfg) && WellFormed(cfg, node) && s.Pass? && i < |Snapshot(s.pl, s.w, cfg, node)|
    ensures !Snapshot(s.pl, s.w, cfg, node)[i].state.Unknown?
  {
    hide Maintain, After, AppliedIn;
    StepWellFormed(cfg, node, s);
    var t := Maintained(s.pl, s.w, cfg, node);
    assert WellFormedEntry(cfg, Active(Tag(node), cfg)[i].name, t.profiles[Active(Tag(node), cfg)[i].name]);
  }

  lemma NobodyWithoutData(node: NodeObject)
    requires node.stored.Absent?
    ensures AtMostOne(InMaintenanceSet(DataOf(node).profiles))
  {}

  /** On every run from a node without data, if at most one profile enters in every committed pass, at
      most one profile is ever in maintenance: the flag keeps all others out in later passes. */
  lemma {:induction false} EntrantsOverRuns<W>(cfg: Config, start: NodeObject, steps: seq<Step<W>>, n: nat)
    requires n <= |steps| && WellFormedConfig(cfg) && start.stored.Absent?
    requires forall k :: 0 <= k < n ==> EntersOne(cfg, At(cfg, start, steps, k), steps[k])
    ensures KeptAt(cfg, start, steps, n)
  {
    hide EntersOne, WellFormed, AtMostOne, InMaintenanceSet, After, NamedByKey;
    if n == 0 {
      NobodyWithoutData(start);
    } else {
      EntrantsOverRuns(cfg, start, steps, n - 1);
      ReachableWellFormed(cfg, start, steps, n - 1);
      assert EntersOne(cfg, At(cfg, start, steps, n - 1), steps[n - 1]);
      StepExclusion(cfg, At(cfg, start, steps, n - 1), steps[n - 1]);
    }
  }

  // ---- the same, read off the configuration ----

  /** A pass that starts with nobody in maintenance has at most one active profile with a way in.
      Several profiles may have one as long as the flag is up. */
  ghost predicate OneWayInPass<W>(cfg: Config, node: NodeObject, s: Step<W>)
  {
    s.Pass? && InMaintenanceSet(Maintained(s.pl, s.w, cfg, node).profiles) == {} ==> OneWayIn(Snapshot(s.pl, s.w, cfg, node))
  }

  lemma OneWayMeansOneEntrant<W>(cfg: Config, node: NodeObject, s: Step<W>)
    requires WellFormedConfig(cfg) && WellFormed(cfg, node) && OneWayInPass(cfg, node, s)
    ensures EntersOne(cfg, node, s)
  {
    hide Maintain, Active, OneWayIn, WellFormedTable, AppliedIn;
    if s.Pass? {
      if x :| x in InMaintenanceSet(Maintained(s.pl, s.w, cfg, node).profiles) {
        ActiveIn(cfg, node, s, x);
        NobodyWantsIn(s.pl, s.w, cfg, node);
      } else {
        OnlyWayWantsIn(s.pl, s.w, cfg, node);
      }
    }
  }

  lemma NobodyWantsIn<W>(pl: Plugins<W>, w: W, cfg: Config, node: NodeObject)
    requires AnyInMaintenance(Snapshot(pl, w, cfg, node))
    ensures forall i :: 0 <= i < |Snapshot(pl, w, cfg, node)| ==> !WantsIn(pl, w, cfg, node, i)
  {
    hide Maintain, Active, AppliedAt, AnyInMaintenance;
    var t, states := Maintained(pl, w, cfg, node), Snapshot(pl, w, cfg, node);
    forall i | 0 <= i < |states| ensures !WantsIn(pl, w, cfg, node, i) {
      AppliedUnderFlag(pl, t.world, states, t.profiles, DataOf(node).notifications, i);
    }
  }

  lemma OnlyWayWantsIn<W>(pl: Plugins<W>, w: W, cfg: Config, node: NodeObject)
    requires OneWayIn(Snapshot(pl, w, cfg, node)) && InMaintenanceSet(Maintained(pl, w, cfg, node).profiles) == {}
    ensures OneEntrant(pl, w, cfg, node)
  {
    hide Maintain, Active, Apply, CanEnter;
    var t, states, notes := Maintained(pl, w, cfg, node), Snapshot(pl, w, cfg, node), DataOf(node).notifications;
    forall i | 0 <= i < |states| && WantsIn(pl, w, cfg, node, i) ensures CanEnter(TransitionsAt(states[i])) {
      assert states[i].profile.name !in InMaintenanceSet(t.profiles);
      assert !AnyInMaintenance(states) by {
        assert forall k :: 0 <= k < |states| ==> states[k].profile.name !in InMaintenanceSet(t.profiles);
      }
      var c := Collect(pl, t.world, states, t.profiles, notes, i);
      EnteringWasPossible(pl, c.world, ParamsFor(states[i], false, t.profiles), ChainsOf(states[i].profile, states[i].state), Data(t.profiles, c.notes));
    }
  }

  /** If in every pass that starts with nobody in maintenance at most one active profile has a way in,
      at most one profile is ever in maintenance, whatever the plugins do. */
  lemma {:induction false} OneWayOverRuns<W>(cfg: Config, start: NodeObject, steps: seq<Step<W>>, n: nat)
    requires n <= |steps| && WellFormedConfig(cfg) && start.stored.Absent?
    requires forall k :: 0 <= k < n ==> OneWayInPass(cfg, At(cfg, start, steps, k), steps[k])
    ensures KeptAt(cfg, start, steps, n)
  {
    hide EntersOne, OneWayInPass, KeptAt;
    forall k | 0 <= k < n ensures EntersOne(cfg, At(cfg, start, steps, k), steps[k]) {
      ReachableWellFormed(cfg, start, steps, k);
      OneWayMeansOneEntrant(cfg, At(cfg, start, steps, k), steps[k]);
    }
    EntrantsOverRuns(cfg, start, steps, n);
  }

  // ---- two profiles that enter together ----

  /** A profile that goes straight into maintenance, without any condition. */
  function Eager(name: string): Profile
  {
    Profile(name, map[Operational := PluginChains([], [], [Transition(CheckChain([], None), [], InMaintenance)])])
  }

  function TwoEager(): Config { map["a" := Eager("a"), "b" := Eager("b")] }

  function Newcomer(): NodeObject { NodeObject(map[PROFILE_KEY := "a--b"], Absent) }

  lemma {:induction false} QuietAddNew(w: seq<bool>, profiles: map<string, ProfileData>, ps: seq<Profile>, n: nat)
    requires n <= |ps|
    ensures AddNew(Scripted(), w, profiles, ps, n).world == w
  {
    if n > 0 {
      QuietAddNew(w, profiles, ps, n - 1);
    }
  }

  lemma TwoParts()
    ensures Parts("a--b") == ["a", "b"] && Active("a--b", TwoEager()) == [Eager("a"), Eager("b")]
  {
    assert "a" + "--" + "b" == "a--b";
    assert "a" + "--" == "a--";
    assert !OccursAt("a--", "--", 0) by { assert "a--"[0..2] == "a-"; }
    assert OccursAt("a--", "--", 1) by { assert "a--"[1..3] == "--"; }
    IndexIs("a--", "--", 0, 1);
    SplitFirst("a", "--", "b");
    assert Index("b", "--", 1).None? && Index("b", "--").None?;
    var parts := ["a", "b"];
    assert Configured(parts, TwoEager(), 0) == [];
    assert Configured(parts, TwoEager(), 1) == [Eager("a")];
  }

  /** The table the first pass over the newcomer works on. */
  lemma NewcomerTable() returns (t: Table<seq<bool>>)
    ensures t == Maintained(Scripted(), [], TwoEager(), Newcomer()) && t.world == []
    ensures t.profiles.Keys == {"a", "b"} && InMaintenanceSet(t.profiles) == {}
    ensures forall x :: x in t.profiles ==> t.profiles[x].current == Operational
  {
    hide AddNew, Active, Scripted;
    var node := Newcomer();
    t := Maintained(Scripted(), [], TwoEager(), node);
    MaintainedTable(Scripted(), [], map[], Tag(node), TwoEager());
    TwoParts();
    var ps := Active(Tag(node), TwoEager());
    QuietAddNew([], Kept(map[], Effective(Tag(node))), ps, |ps|);
  }

  lemma BothEnter(data: Data)
    requires data.profiles.Keys == {"a", "b"} && forall x :: x in data.profiles ==> data.profiles[x].current == Operational
    ensures AllPresent(data.profiles, Active("a--b", TwoEager()))
    ensures ApplyAll(Scripted(), [], "a--b", TwoEager(), data).error.None?
    ensures {"a", "b"} <= InMaintenanceSet(ApplyAll(Scripted(), [], "a--b", TwoEager(), data).data.profiles)
  {
    hide Active, Scripted, ApplyAll, Usable, CanEnter, PassScript;
    TwoParts();
    var states := StatesOf(data.profiles, Active("a--b", TwoEager()));
    EagerEnters(states[0]);
    EagerEnters(states[1]);
    NoScript(states);
    assert AllUsable(states);
    ScriptedEntry("a--b", TwoEager(), data, 0);
    ScriptedEntry("a--b", TwoEager(), data, 1);
  }

  /** Without the condition the promise breaks: from a node without data, one pass takes both profiles
      into maintenance, because the flag is computed before either of them moves. */
  lemma BothEnterWitness()
    ensures {"a", "b"} <= InMaintenanceSet(DataOf(Persisted(Scripted(), [], TwoEager(), Newcomer(), true)).profiles)
  {
    hide Maintained, ApplyAll, Active, Scripted, InMaintenanceSet, Persisted, RunPass, TwoEager;
    var t := NewcomerTable();
    BothEnter(Data(t.profiles, map[]));
    PassData(Scripted(), [], TwoEager(), Newcomer(), true);
  }

  lemma EagerEnters(ps: ProfileState)
    requires ps.profile == Eager(ps.profile.name) && ps.state == Operational
    ensures Usable(ps) && CanEnter(TransitionsAt(ps)) && |EntryScript(TransitionsAt(ps))| == 0
  {
    var ts := TransitionsAt(ps);
    assert CanAnswer(ts[0].check, true);
    assert Opens(ts, 0);
    assert ScriptFrom(ts, Target(ts), false, 1) == [];
  }

  lemma NoScript(states: seq<ProfileState>)
    requires |states| == 2 && forall k :: 0 <= k < 2 ==> states[k].profile == Eager(states[k].profile.name) && states[k].state == Operational
    ensures PassScript(states, 0) == []
  {
    EagerEnters(states[0]);
    EagerEnters(states[1]);
    assert PassScript(states, 2) == [];
  }
}
