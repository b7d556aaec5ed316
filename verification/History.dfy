/** Bookkeeping over runs: transitions against executions of the enter chain, and the messages sent. */
module History {

  import opened Errors
  import opened Strings
  import opened Labels
  import opened Calendar
  import opened Notifications
  import opened Plugins
  import opened States
  import opened Handler
  import opened Passes
  import opened Scripts
  import opened Runs

  // ---- what a step does to one profile ----

  ghost predicate DistinctParts(tag: string)
  {
    forall i, j :: 0 <= i < j < |Parts(tag)| ==> Parts(tag)[i] != Parts(tag)[j]
  }

  lemma {:induction false} DistinctConfigured(parts: seq<string>, cfg: Config, n: nat)
    requires n <= |parts| && NamedByKey(cfg) && forall i, j :: 0 <= i < j < |parts| ==> parts[i] != parts[j]
    ensures forall i :: 0 <= i < |Configured(parts, cfg, n)| ==> Configured(parts, cfg, n)[i].name in parts[..n]
    ensures forall i, j :: 0 <= i < j < |Configured(parts, cfg, n)| ==> Configured(parts, cfg, n)[i].name != Configured(parts, cfg, n)[j].name
  {
    if n > 0 {
      DistinctConfigured(parts, cfg, n - 1);
      assert parts[..n] == parts[..n - 1] + [parts[n - 1]];
      assert parts[n - 1] !in parts[..n - 1];
    }
  }

  /** The pass is about a configured profile p that its label names, and names only once. */
  ghost predicate Concerns(cfg: Config, node: NodeObject, p: string)
  {
    && NamedByKey(cfg) && !node.stored.Garbled?
    && DistinctParts(Tag(node)) && p in Parts(Tag(node)) && p in cfg
  }

  /** The position of profile p in a pass. */
  lemma IndexOf<W>(cfg: Config, node: NodeObject, s: Step<W>, p: string) returns (i: nat)
    requires s.Pass? && Concerns(cfg, node, p)
    ensures i < |Snapshot(s.pl, s.w, cfg, node)| && Snapshot(s.pl, s.w, cfg, node)[i].profile == cfg[p]
    ensures Distinct(Snapshot(s.pl, s.w, cfg, node))
  {
    var ps := Active(Tag(node), cfg);
    ActiveAreConfigured(Tag(node), cfg);
    i :| 0 <= i < |ps| && ps[i] == cfg[p];
    DistinctConfigured(Parts(Tag(node)), cfg, |Parts(Tag(node))|);
  }

  /** The first result of profile p that is not a retry. */
  function FindReport(tries: seq<Try>, p: string, from: nat := 0): (r: Option<Report>)
    requires from <= |tries|
    ensures r.Some? ==> r.value.name == p && exists k :: from <= k < |tries| && tries[k].Ran? && tries[k].report == r.value && !Retries(tries[k])
    ensures r.None? ==> forall k :: from <= k < |tries| && tries[k].Ran? && tries[k].report.name == p ==> Retries(tries[k])
    decreases |tries| - from
  {
    if from == |tries| then None
    else if tries[from].Ran? && tries[from].report.name == p && !Retries(tries[from]) then Some(tries[from].report)
    else FindReport(tries, p, from + 1)
  }

  /** The result a step commits for profile p, if any. */
  function Outcome<W>(cfg: Config, node: NodeObject, s: Step<W>, p: string): Option<Report>
  {
    if Commits(cfg, node, s) then FindReport(AppliedIn(s.pl, s.w, cfg, node).tries, p) else None
  }

  /** A state change whose enter chain has not been committed yet. */
  ghost predicate Pending(node: NodeObject, p: string)
  {
    var ps := DataOf(node).profiles; p in ps && ps[p].previous != ps[p].current
  }

  lemma EnteredWhenPending<W>(pl: Plugins<W>, w: W, prm: Params, chains: PluginChains, data: Data)
    requires prm.profile in data.profiles && Apply(pl, w, prm, chains, data).error.None?
    ensures Apply(pl, w, prm, chains, data).report.entered <==>
            data.profiles[prm.profile].previous != data.profiles[prm.profile].current
  {}

  lemma EnteredAt<W>(pl: Plugins<W>, w: W, states: seq<ProfileState>, profiles: map<string, ProfileData>, notes: map<string, nat>, i: nat)
    requires i < |states| && StatesPresent(states, profiles) && !states[i].state.Unknown?
    ensures var t, pd := Collect(pl, w, states, profiles, notes, |states|).tries[i], profiles[states[i].profile.name];
            t.error.None? ==> (t.report.entered <==> pd.previous != pd.current)
  {
    TryAt(pl, w, states, profiles, notes, |states|, i);
    var c := Collect(pl, w, states, profiles, notes, i);
    var a := AppliedAt(pl, w, states, profiles, notes, i);
    if a.error.None? {
      EnteredWhenPending(pl, c.world, ParamsFor(states[i], AnyInMaintenance(states), profiles),
                         ChainsOf(states[i].profile, states[i].state), Data(profiles, c.notes));
    }
  }

  /** The table entry of one profile before and after its result is committed. */
  lemma ApplyOutcome<W>(pl: Plugins<W>, w: W, tag: string, cfg: Config, data: Data, i: nat)
    requires AllPresent(data.profiles, Active(tag, cfg)) && Distinct(StatesOf(data.profiles, Active(tag, cfg)))
    requires i < |Active(tag, cfg)| && ApplyAll(pl, w, tag, cfg, data).error.None?
    ensures var a, p := ApplyAll(pl, w, tag, cfg, data), Active(tag, cfg)[i].name;
      var before := data.profiles[p];
      && p in a.data.profiles
      && match FindReport(a.tries, p)
         case None => a.data.profiles[p] == before
         case Some(r) => Settled(before, a.data.profiles[p], r) && r.state == before.current && (r.entered <==> before.previous != before.current)
  {
    AllOrNothing(pl, w, tag, cfg, data);
    var states := StatesOf(data.profiles, Active(tag, cfg));
    var c := Collect(pl, w, states, data.profiles, data.notifications, |states|);
    EnteredAt(pl, w, states, data.profiles, data.notifications, i);
    FindReportIs(states, c.tries, i);
  }

  lemma FindReportIs(states: seq<ProfileState>, tries: seq<Try>, i: nat)
    requires i < |states| == |tries| && Distinct(states)
    requires forall k :: 0 <= k < |tries| ==> tries[k].Ran? && tries[k].report.name == states[k].profile.name
    requires forall k :: 0 <= k < |tries| ==> !Breaks(tries[k])
    ensures FindReport(tries, states[i].profile.name) == if Retries(tries[i]) then None else Some(tries[i].report)
    ensures !Retries(tries[i]) ==> tries[i].error.None?
  {
    var r := FindReport(tries, states[i].profile.name);
    if r.Some? {
      var k :| 0 <= k < |tries| && tries[k].report == r.value && !Retries(tries[k]);
      assert states[k].profile.name == states[i].profile.name;
    }
    assert !Breaks(tries[i]);
  }

  /** One pass that names the profile: without a committed result nothing about it changes; with one,
      the enter chain ran exactly if it was due, and it is due again exactly if the profile moved. */
  ghost predicate StepMeaning(before: NodeObject, after: NodeObject, o: Option<Report>, p: string)
  {
    match o
    case None =>
      && (Pending(after, p) <==> Pending(before, p)) && StateOf(after, p) == StateOf(before, p)
      && (p in DataOf(before).profiles ==> p in DataOf(after).profiles && DataOf(after).profiles[p] == DataOf(before).profiles[p])
    case Some(r) =>
      && (r.entered <==> Pending(before, p))
      && (Pending(after, p) <==> r.next != r.state)
      && p in DataOf(after).profiles && DataOf(after).profiles[p].current == r.next
      && r.state == StateOf(before, p)
  }

  /** The stored state of a profile; a profile without an entry would start operational. */
  ghost function StateOf(node: NodeObject, p: string): NodeStateLabel
  {
    if p in DataOf(node).profiles then DataOf(node).profiles[p].current else Operational
  }

  lemma StepOutcome<W>(cfg: Config, node: NodeObject, s: Step<W>, p: string)
    requires s.Pass? && Concerns(cfg, node, p)
    ensures StepMeaning(node, After(cfg, node, s), Outcome(cfg, node, s, p), p)
  {
    PassData(s.pl, s.w, cfg, node, s.patchOk);
    if Commits(cfg, node, s) {
      var i := IndexOf(cfg, node, s, p);
      var t := Maintained(s.pl, s.w, cfg, node);
      KeptEntry(s.pl, s.w, cfg, node, p);
      ApplyOutcome(s.pl, t.world, Tag(node), cfg, Data(t.profiles, DataOf(node).notifications), i);
    }
  }

  lemma KeptEntry<W>(pl: Plugins<W>, w: W, cfg: Config, node: NodeObject, p: string)
    requires Concerns(cfg, node, p)
    ensures var t, old_ := Maintained(pl, w, cfg, node).profiles, DataOf(node).profiles;
      p in t && if p in old_ then t[p] == old_[p] else t[p].current == t[p].previous == Operational
  {
    MaintainedTable(pl, w, DataOf(node).profiles, Tag(node), cfg);
  }

  // ---- a label that drops the profile ----

  /** A committed pass whose label does not name the profile deletes its entry, together with an enter
      chain that is still due. */
  ghost predicate LosesDue<W>(cfg: Config, node: NodeObject, s: Step<W>, p: string)
  {
    Commits(cfg, node, s) && p !in Parts(Tag(node)) && Pending(node, p)
  }

  lemma FindNothing(tries: seq<Try>, p: string)
    requires forall k :: 0 <= k < |tries| && tries[k].Ran? ==> tries[k].report.name != p
    ensures FindReport(tries, p) == None
  {}

  /** A pass that does not name the profile has no result for it, and forgets it if it is committed. */
  lemma DetachedStep<W>(cfg: Config, node: NodeObject, s: Step<W>, p: string)
    requires s.Pass? && NamedByKey(cfg) && !node.stored.Garbled? && p !in Parts(Tag(node))
    ensures Outcome(cfg, node, s, p) == None
    ensures if Commits(cfg, node, s) then p !in DataOf(After(cfg, node, s)).profiles else After(cfg, node, s) == node
  {
    hide Maintain, Collect, Commit, RunPass;
    PassData(s.pl, s.w, cfg, node, s.patchOk);
    var t, states := Maintained(s.pl, s.w, cfg, node), Snapshot(s.pl, s.w, cfg, node);
    MaintainedTable(s.pl, s.w, DataOf(node).profiles, Tag(node), cfg);
    ActiveAreNamed(Tag(node), cfg);
    FindNothing(Collect(s.pl, t.world, states, t.profiles, DataOf(node).notifications, |states|).tries, p);
  }

  lemma ActiveAreNamed(tag: string, cfg: Config)
    requires NamedByKey(cfg)
    ensures forall i :: 0 <= i < |Active(tag, cfg)| ==> Active(tag, cfg)[i].name in Parts(tag)
  {
    var ps := Active(tag, cfg);
    ConfiguredMembers(Parts(tag), cfg, |Parts(tag)|);
    forall i | 0 <= i < |ps| ensures ps[i].name in Parts(tag) {
      assert ps[i] in ps;
    }
  }

  // ---- conservation ----

  ghost predicate Moved(o: Option<Report>) { o.Some? && o.value.next != o.value.state }

  ghost predicate Entered(o: Option<Report>) { o.Some? && o.value.entered }

  ghost function OutcomeAt<W>(cfg: Config, start: NodeObject, steps: seq<Step<W>>, p: string, k: nat): Option<Report>
    requires k < |steps|
  {
    if steps[k].Pass? then Outcome(cfg, At(cfg, start, steps, k), steps[k], p) else None
  }

  ghost predicate LosesAt<W>(cfg: Config, start: NodeObject, steps: seq<Step<W>>, p: string, k: nat)
    requires k < |steps|
  {
    LosesDue(cfg, At(cfg, start, steps, k), steps[k], p)
  }

  /** A run about a configured profile p; where a pass names p, its label names nothing twice.  Labels may
      drop and take up the profile at any time. */
  ghost predicate Tracks<W>(cfg: Config, start: NodeObject, steps: seq<Step<W>>, p: string)
  {
    && NamedByKey(cfg) && p in cfg && !start.stored.Garbled?
    && forall k :: 0 <= k < |steps| && steps[k].Pass? ==> NamedOnce(At(cfg, start, steps, k), p)
  }

  ghost predicate NamedOnce(node: NodeObject, p: string)
  {
    p in Parts(Tag(node)) ==> DistinctParts(Tag(node))
  }

  /** How profile p goes through a run: its state and whether its enter chain is due before every
      step, the result every step commits for it, and whether the step loses a due enter chain. */
  datatype Course = Course(state: seq<NodeStateLabel>, due: seq<bool>, outcomes: seq<Option<Report>>, lost: seq<bool>)

  /** Without a committed result a due enter chain stays due unless it is lost; a result ran the enter
      chain exactly if it was due, and makes it due again exactly if it moved the profile. */
  ghost predicate FaithfulStep(state: NodeStateLabel, due: bool, o: Option<Report>, lost: bool, state': NodeStateLabel, due': bool)
  {
    match o
    case None => (lost ==> due) && (due' <==> due && !lost) && (due' ==> state' == state)
    case Some(r) => !lost && (r.entered <==> due) && r.state == state && (due' <==> Moved(o)) && state' == r.next
  }

  ghost predicate WellShaped(c: Course) { |c.state| == |c.due| == |c.outcomes| + 1 && |c.lost| == |c.outcomes| }

  ghost predicate Faithful(c: Course, k: nat)
    requires WellShaped(c) && k < |c.outcomes|
  {
    FaithfulStep(c.state[k], c.due[k], c.outcomes[k], c.lost[k], c.state[k + 1], c.due[k + 1])
  }

  ghost function Moves(c: Course, n: nat): nat
    requires n <= |c.outcomes|
  {
    if n == 0 then 0 else Moves(c, n - 1) + (if Moved(c.outcomes[n - 1]) then 1 else 0)
  }

  ghost function Enters(c: Course, n: nat): nat
    requires n <= |c.outcomes|
  {
    if n == 0 then 0 else Enters(c, n - 1) + (if Entered(c.outcomes[n - 1]) then 1 else 0)
  }

  ghost function Lost(c: Course, n: nat): nat
    requires n <= |c.lost|
  {
    if n == 0 then 0 else Lost(c, n - 1) + (if c.lost[n - 1] then 1 else 0)
  }

  lemma {:induction false} Balance(c: Course, n: nat)
    requires WellShaped(c) && n <= |c.outcomes| && !c.due[0]
    requires forall k :: 0 <= k < |c.outcomes| ==> Faithful(c, k)
    ensures Moves(c, n) == Enters(c, n) + Lost(c, n) + (if c.due[n] then 1 else 0)
  {
    if n > 0 {
      Balance(c, n - 1);
      assert Faithful(c, n - 1);
    }
  }

  /** A due enter chain runs or is lost before the profile moves again. */
  lemma {:induction false} DueRuns(c: Course, n: nat, j: nat) returns (m: nat)
    requires WellShaped(c) && n <= j < |c.outcomes|
    requires forall k :: 0 <= k < |c.outcomes| ==> Faithful(c, k)
    requires c.due[n] && Moved(c.outcomes[j])
    ensures n <= m <= j && (c.lost[m] || (Entered(c.outcomes[m]) && c.outcomes[m].value.state == c.state[n]))
    decreases j - n
  {
    assert Faithful(c, n);
    if c.outcomes[n].Some? || c.lost[n] {
      m := n;
    } else {
      m := DueRuns(c, n + 1, j);
    }
  }

  lemma LeavesAfterEntering(c: Course, i: nat, j: nat) returns (m: nat)
    requires WellShaped(c) && i < j < |c.outcomes|
    requires forall k :: 0 <= k < |c.outcomes| ==> Faithful(c, k)
    requires Moved(c.outcomes[i]) && Moved(c.outcomes[j])
    ensures i < m <= j && (c.lost[m] || (Entered(c.outcomes[m]) && c.outcomes[m].value.state == c.outcomes[i].value.next))
  {
    assert Faithful(c, i);
    m := DueRuns(c, i + 1, j);
  }

  ghost function CourseOf<W>(cfg: Config, start: NodeObject, steps: seq<Step<W>>, p: string): (c: Course)
    ensures WellShaped(c) && |c.outcomes| == |steps|
  {
    Course(seq(|steps| + 1, k requires 0 <= k <= |steps| => StateOf(At(cfg, start, steps, k), p)),
           seq(|steps| + 1, k requires 0 <= k <= |steps| => Pending(At(cfg, start, steps, k), p)),
           seq(|steps|, k requires 0 <= k < |steps| => OutcomeAt(cfg, start, steps, p, k)),
           seq(|steps|, k requires 0 <= k < |steps| => LosesAt(cfg, start, steps, p, k)))
  }

  lemma {:induction false} StaysReadable<W>(cfg: Config, start: NodeObject, steps: seq<Step<W>>, n: nat)
    requires n <= |steps| && !start.stored.Garbled?
    ensures !At(cfg, start, steps, n).stored.Garbled?
  {
    hide AppliedIn, RunPass;
    if n > 0 {
      StaysReadable(cfg, start, steps, n - 1);
      if steps[n - 1].Pass? {
        PassData(steps[n - 1].pl, steps[n - 1].w, cfg, At(cfg, start, steps, n - 1), steps[n - 1].patchOk);
      }
    }
  }

  lemma MeaningIsFaithful(before: NodeObject, after: NodeObject, o: Option<Report>, p: string)
    requires StepMeaning(before, after, o, p)
    ensures FaithfulStep(StateOf(before, p), Pending(before, p), o, false, StateOf(after, p), Pending(after, p))
  {}

  lemma StepFaithful<W>(cfg: Config, node: NodeObject, s: Step<W>, p: string)
    requires NamedByKey(cfg) && p in cfg && !node.stored.Garbled? && (s.Pass? ==> NamedOnce(node, p))
    ensures var o := if s.Pass? then Outcome(cfg, node, s, p) else None;
            FaithfulStep(StateOf(node, p), Pending(node, p), o, LosesDue(cfg, node, s, p),
                         StateOf(After(cfg, node, s), p), Pending(After(cfg, node, s), p))
  {
    if s.Pass? {
      hide After, Outcome, Commits;
      if p in Parts(Tag(node)) {
        StepOutcome(cfg, node, s, p);
        MeaningIsFaithful(node, After(cfg, node, s), Outcome(cfg, node, s, p), p);
      } else {
        DetachedStep(cfg, node, s, p);
      }
    }
  }

  lemma CourseFaithful<W>(cfg: Config, start: NodeObject, steps: seq<Step<W>>, p: string, k: nat)
    requires k < |steps| && Tracks(cfg, start, steps, p)
    ensures Faithful(CourseOf(cfg, start, steps, p), k)
  {
    hide After, Outcome, StateOf, Pending, LosesDue, FaithfulStep, NamedOnce;
    StaysReadable(cfg, start, steps, k);
    StepFaithful(cfg, At(cfg, start, steps, k), steps[k], p);
  }

  /** Conservation: on every run, the committed transitions of a profile are its committed enter
      executions, plus the enter chains lost to labels that drop the profile, plus one if one is due. */
  lemma Conservation<W>(cfg: Config, start: NodeObject, steps: seq<Step<W>>, p: string, n: nat)
    requires n <= |steps| && Tracks(cfg, start, steps, p) && !Pending(start, p)
    ensures var c := CourseOf(cfg, start, steps, p);
            Moves(c, n) == Enters(c, n) + Lost(c, n) + (if Pending(At(cfg, start, steps, n), p) then 1 else 0)
  {
    var c := CourseOf(cfg, start, steps, p);
    forall k | 0 <= k < |steps| ensures Faithful(c, k) {
      CourseFaithful(cfg, start, steps, p, k);
    }
    assert c.due[0] == Pending(At(cfg, start, steps, 0), p);
    Balance(c, n);
  }

  /** Enter before leave: between a committed move into a state and the next committed move there is
      a committed pass in which the whole enter chain of that state succeeded, or one whose label had
      dropped the profile while that enter chain was due. */
  lemma EnterBeforeLeave<W>(cfg: Config, start: NodeObject, steps: seq<Step<W>>, p: string, i: nat, j: nat) returns (m: nat)
    requires i < j < |steps| && Tracks(cfg, start, steps, p)
    requires Moved(OutcomeAt(cfg, start, steps, p, i)) && Moved(OutcomeAt(cfg, start, steps, p, j))
    ensures i < m <= j
    ensures LosesAt(cfg, start, steps, p, m) ||
            (Entered(OutcomeAt(cfg, start, steps, p, m))
             && OutcomeAt(cfg, start, steps, p, m).value.state == OutcomeAt(cfg, start, steps, p, i).value.next)
  {
    hide Tracks, OutcomeAt, LosesAt;
    var c := CourseOf(cfg, start, steps, p);
    forall k | 0 <= k < |steps| ensures Faithful(c, k) {
      CourseFaithful(cfg, start, steps, p, k);
    }
    m := LeavesAfterEntering(c, i, j);
  }

  /** As long as the label names the profile, there is no such exception. */
  lemma EnterBeforeLeaveNamed<W>(cfg: Config, start: NodeObject, steps: seq<Step<W>>, p: string, i: nat, j: nat) returns (m: nat)
    requires i < j < |steps| && Tracks(cfg, start, steps, p)
    requires Moved(OutcomeAt(cfg, start, steps, p, i)) && Moved(OutcomeAt(cfg, start, steps, p, j))
    requires forall k :: i < k <= j && steps[k].Pass? ==> p in Parts(Tag(At(cfg, start, steps, k)))
    ensures i < m <= j && Entered(OutcomeAt(cfg, start, steps, p, m))
    ensures OutcomeAt(cfg, start, steps, p, m).value.state == OutcomeAt(cfg, start, steps, p, i).value.next
  {
    hide OutcomeAt, Pending, Tracks;
    m := EnterBeforeLeave(cfg, start, steps, p, i, j);
  }

  // ---- a lost enter chain ----

  const AGAIN: Step<seq<bool>> := Pass(Scripted(), [], true)

  const DROP: Step<seq<bool>> := Relabel(DroppedLabels())

  function DroppedLabels(): map<string, string> { map[PROFILE_KEY := "x"] }

  /** A pass that takes profile "a" into maintenance, a label that names nobody, and another pass. */
  function Detaching(): seq<Step<seq<bool>>> { [AGAIN, DROP, AGAIN] }

  lemma FirstPassEnters()
    ensures NamedByKey(TwoEager()) && NamedOnce(Newcomer(), "a") && "a" in Parts(Tag(Newcomer()))
    ensures var o, after := Outcome(TwoEager(), Newcomer(), AGAIN, "a"), After(TwoEager(), Newcomer(), AGAIN);
            Moved(o) && !Entered(o) && Pending(after, "a") && !after.stored.Garbled?
  {
    hide Outcome, RunPass, Maintain, Configured, AppliedIn;
    TwoParts();
    BothEnterWitness();
    StepOutcome(TwoEager(), Newcomer(), AGAIN, "a");
    PassData(Scripted(), [], TwoEager(), Newcomer(), true);
  }

  lemma NobodyNamed()
    ensures Parts("x") == ["x"] && Active("x", TwoEager()) == []
  {
    JoinRoundTrip(["x"], PROFILE_SEPARATOR);
    assert Index("x", PROFILE_SEPARATOR, 1).None?;
    assert Joinable(["x"], PROFILE_SEPARATOR) && Join(["x"], PROFILE_SEPARATOR) == "x";
    assert Configured(["x"], TwoEager(), 0) == [];
  }

  lemma ThirdPassLoses(node: NodeObject)
    requires Pending(node, "a") && !node.stored.Garbled? && node.labels == DroppedLabels()
    ensures "a" !in Parts(Tag(node)) && Commits(TwoEager(), node, AGAIN)
    ensures Outcome(TwoEager(), node, AGAIN, "a") == None && !Pending(After(TwoEager(), node, AGAIN), "a")
  {
    hide Outcome, RunPass, Configured, Split;
    NobodyNamed();
    assert NamedByKey(TwoEager());
    assert Tag(node) == "x";
    var t := Maintained(Scripted(), [], TwoEager(), node);
    assert StatesOf(t.profiles, Active("x", TwoEager())) == [];
    assert Collect(Scripted(), t.world, [], t.profiles, DataOf(node).notifications, 0).tries == [];
    DetachedStep(TwoEager(), node, AGAIN, "a");
  }

  /** Dropping the profile from the label loses the enter chain: one move, no enter execution, and
      nothing due any more. */
  lemma DetachWitness()
    ensures Tracks(TwoEager(), Newcomer(), Detaching(), "a")
    ensures var c := CourseOf(TwoEager(), Newcomer(), Detaching(), "a");
            Moves(c, 3) == 1 && Enters(c, 3) == 0 && Lost(c, 3) == 1
    ensures !Pending(At(TwoEager(), Newcomer(), Detaching(), 3), "a")
  {
    hide After, Outcome, Commits, Parts, Pending, Newcomer, TwoEager, DroppedLabels;
    var cfg, start, steps := TwoEager(), Newcomer(), Detaching();
    FirstPassEnters();
    var n1 := After(cfg, start, AGAIN);
    Relabelled(n1);
    var n2 := n1.(labels := DroppedLabels());
    ThirdPassLoses(n2);
    assert At(cfg, start, steps, 0) == start;
    assert At(cfg, start, steps, 1) == n1;
    assert At(cfg, start, steps, 2) == n2;
    assert At(cfg, start, steps, 3) == After(cfg, n2, AGAIN);
    var c := CourseOf(cfg, start, steps, "a");
    assert Moves(c, 1) == 1 && Enters(c, 1) == 0 && Lost(c, 1) == 0;
    assert Moves(c, 2) == 1 && Enters(c, 2) == 0 && Lost(c, 2) == 0;
  }

  lemma Relabelled(node: NodeObject)
    ensures After(TwoEager(), node, DROP) == node.(labels := DroppedLabels())
    ensures Pending(node.(labels := DroppedLabels()), "a") <==> Pending(node, "a")
    ensures !Commits(TwoEager(), node, DROP)
    ensures "a" in TwoEager() && !Newcomer().stored.Garbled?
  {}

  // ---- messages ----

  /** The messages of the committed passes among the first n steps. */
  ghost function Log<W>(cfg: Config, start: NodeObject, steps: seq<Step<W>>, n: nat): seq<Send>
    requires n <= |steps|
  {
    if n == 0 then []
    else
      var node := At(cfg, start, steps, n - 1);
      Log(cfg, start, steps, n - 1) +
      (if steps[n - 1].Pass? && !node.stored.Garbled? && Commits(cfg, node, steps[n - 1])
       then AppliedIn(steps[n - 1].pl, steps[n - 1].w, cfg, node).sent else [])
  }

  ghost predicate Sound(notes: map<string, nat>, log: seq<Send>)
  {
    Consistent(log) && Recorded(notes, log)
  }

  lemma SoundAtFirst(notes: map<string, nat>)
    ensures Sound(notes, [])
  {}

  lemma SoundJoined(notes: map<string, nat>, log: seq<Send>, a: seq<Send>, b: seq<Send>)
    ensures Sound(notes, log + (a + b)) <==> Sound(notes, (log + a) + b)
    ensures Sound(notes, log + []) <==> Sound(notes, log)
  {
    assert log + (a + b) == (log + a) + b;
    assert log + [] == log;
  }

  lemma NotifyOneSound<W>(pl: Plugins<W>, w: W, prm: Params, pd: ProfileData, notes: map<string, nat>, inst: NotificationInstance, log: seq<Send>)
    requires Sound(notes, log)
    ensures var r := NotifyOne(pl, w, prm, pd, notes, inst); Sound(r.notes, log + r.sent)
  {
    hide ShouldNotify;
    var r := NotifyOne(pl, w, prm, pd, notes, inst);
    if inst.name !in notes {
      FillNote(notes, log, inst.name, 0);
    }
    if r.sent == [] {
      assert log + r.sent == log;
    } else {
      AppendSend(WithNote(notes, inst.name), log, r.sent[0]);
      assert r.sent == [r.sent[0]];
    }
  }

  lemma {:induction false} NotifySound<W>(pl: Plugins<W>, w: W, prm: Params, pd: ProfileData, notes: map<string, nat>,
                                          chain: seq<NotificationInstance>, n: nat, log: seq<Send>)
    requires n <= |chain| && Sound(notes, log)
    ensures var r := RunNotify(pl, w, prm, pd, notes, chain, n); Sound(r.notes, log + r.sent)
  {
    if n == 0 {
      assert log + [] == log;
    } else {
      NotifySound(pl, w, prm, pd, notes, chain, n - 1, log);
      var r := RunNotify(pl, w, prm, pd, notes, chain, n - 1);
      if r.error.None? {
        NotifyOneSound(pl, r.world, prm, pd, r.notes, chain[n - 1], log + r.sent);
        var o := NotifyOne(pl, r.world, prm, pd, r.notes, chain[n - 1]);
        SoundJoined(o.notes, log, r.sent, o.sent);
      }
    }
  }

  lemma PreludeSound<W>(pl: Plugins<W>, w: W, prm: Params, chains: PluginChains, pd: ProfileData, notes: map<string, nat>, log: seq<Send>)
    requires Sound(notes, log)
    ensures var r := RunPrelude(pl, w, prm, chains, pd, notes); Sound(r.notes, log + r.sent)
  {
    assert log + [] == log;
    NotifySound(pl, w, prm, pd, notes, chains.notification, |chains.notification|, log);
    var e := RunTriggers(pl, w, prm, chains.enter, |chains.enter|);
    NotifySound(pl, e.world, prm, pd, notes, chains.notification, |chains.notification|, log);
  }

  lemma ApplySound<W>(pl: Plugins<W>, w: W, prm: Params, chains: PluginChains, data: Data, log: seq<Send>)
    requires Sound(data.notifications, log)
    ensures var r := Apply(pl, w, prm, chains, data); Sound(r.notes, log + r.sent)
  {
    SoundJoined(data.notifications, log, [], []);
    if prm.profile in data.profiles {
      AppliedMessages(pl, w, prm, chains, data);
      PreludeSound(pl, w, prm, chains, data.profiles[prm.profile], data.notifications, log);
    }
  }

  lemma AppliedMessages<W>(pl: Plugins<W>, w: W, prm: Params, chains: PluginChains, data: Data)
    requires prm.profile in data.profiles
    ensures var a, p := Apply(pl, w, prm, chains, data), RunPrelude(pl, w, prm, chains, data.profiles[prm.profile], data.notifications);
            a.notes == p.notes && a.sent == p.sent
  {
    hide RunPrelude, Decide, RunTriggersTo;
  }

  lemma CollectStepSound<W>(pl: Plugins<W>, ps: ProfileState, flag: bool, profiles: map<string, ProfileData>,
                            c: Collected<W>, log: seq<Send>)
    requires ps.profile.name in profiles && Sound(c.notes, log + c.sent)
    ensures var c' := CollectStep(pl, ps, flag, profiles, c); Sound(c'.notes, log + c'.sent)
  {
    if !ps.state.Unknown? {
      ApplySound(pl, c.world, ParamsFor(ps, flag, profiles), ChainsOf(ps.profile, ps.state), Data(profiles, c.notes), log + c.sent);
      var a := ApplyOne(pl, c.world, ps, flag, profiles, c.notes);
      SoundJoined(a.notes, log, c.sent, a.sent);
    }
  }

  lemma {:induction false} CollectSound<W>(pl: Plugins<W>, w: W, states: seq<ProfileState>, profiles: map<string, ProfileData>,
                                           notes: map<string, nat>, n: nat, log: seq<Send>)
    requires n <= |states| && StatesPresent(states, profiles) && Sound(notes, log)
    ensures var c := Collect(pl, w, states, profiles, notes, n); Sound(c.notes, log + c.sent)
  {
    if n == 0 {
      assert log + [] == log;
    } else {
      CollectSound(pl, w, states, profiles, notes, n - 1, log);
      CollectStepSound(pl, states[n - 1], AnyInMaintenance(states), profiles, Collect(pl, w, states, profiles, notes, n - 1), log);
    }
  }

  /** On every run the stored times are those of the latest committed messages, and every committed
      message was decided on against the previous one of its instance. */
  lemma {:induction false} LogSound<W>(cfg: Config, start: NodeObject, steps: seq<Step<W>>, n: nat)
    requires n <= |steps| && !start.stored.Garbled?
    ensures !At(cfg, start, steps, n).stored.Garbled?
    ensures Sound(DataOf(At(cfg, start, steps, n)).notifications, Log(cfg, start, steps, n))
  {
    hide Sound, Maintain, Collect;
    if n == 0 {
      SoundAtFirst(DataOf(start).notifications);
    } else {
      LogSound(cfg, start, steps, n - 1);
      var node, s, log := At(cfg, start, steps, n - 1), steps[n - 1], Log(cfg, start, steps, n - 1);
      assert log + [] == log;
      if s.Pass? {
        PassData(s.pl, s.w, cfg, node, s.patchOk);
        var t, states := Maintained(s.pl, s.w, cfg, node), Snapshot(s.pl, s.w, cfg, node);
        CollectSound(s.pl, t.world, states, t.profiles, DataOf(node).notifications, |states|, log);
      }
    }
  }

  /** Over every run with a clock that does not run backwards: a scheduled instance is never sent
      twice on one date, a oneshot instance only for a state change at or after its previous messages, and
      a periodic instance without a state change never before its interval has passed. */
  lemma MessagesOverRuns<W>(cfg: Config, start: NodeObject, steps: seq<Step<W>>, i: nat, j: nat)
    requires !start.stored.Garbled?
    requires var log := Log(cfg, start, steps, |steps|);
      Nondecreasing(log) && i < j < |log| && log[i].instance == log[j].instance && log[i].schedule == log[j].schedule
    ensures var log := Log(cfg, start, steps, |steps|);
      match log[j].schedule
      case Scheduled(_, _) => DayNumber(log[i].at.now) < DayNumber(log[j].at.now)
      case Oneshot(_) =>
        && log[i].at.now <= log[j].at.stateChange
        && (log[i].at.stateChange < log[i].at.now ==> log[i].at.stateChange < log[j].at.stateChange)
      case Periodic(interval) => log[j].at.current == log[j].at.previous ==> log[j].at.now - log[i].at.now >= interval
  {
    LogSound(cfg, start, steps, |steps|);
    var log := Log(cfg, start, steps, |steps|);
    match log[j].schedule
    case Scheduled(_, _) => ScheduledOncePerDate(log, i, j);
    case Oneshot(_) => OneshotOncePerChange(log, i, j);
    case Periodic(_) =>
      if log[j].at.current == log[j].at.previous {
        PeriodicSpacing(log, i, j);
      }
  }
}
