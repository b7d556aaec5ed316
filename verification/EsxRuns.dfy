/** What every run of the ESX controller keeps, whatever fails and whoever interferes. */
module EsxRuns {

  import opened Errors
  import opened Esx
  import Drain

  datatype Step = Pass(calls: Calls, reached: Reached) | Others(edit: Edit)

  function After(s: Node, step: Step): Node
  {
    match step
    case Pass(c, r) => PassOne(s, c, r)
    case Others(e) => Disturb(s, e)
  }

  /** The node after the first n steps. */
  function At(start: Node, steps: seq<Step>, n: nat): Node
    requires n <= |steps|
  {
    if n == 0 then start else After(At(start, steps, n - 1), steps[n - 1])
  }

  // ---- the order of steps ----

  /** In the same pass, one directly after the other: a node is annotated, cordoned, drained with the
      grace period its maintenance state asks for, found drained, and only then powered off; a machine is
      seen on, its node uncordoned, and only then the annotation removed. */
  ghost predicate InOrder(log: seq<Event>, k: nat)
    requires k < |log|
  {
    && (log[k].DrainAttempt? ==>
          && k >= 2 && log[k - 2].AnnotationEnsured? && log[k - 1].CordonEnsured? && log[k - 1].copy.unschedulable
          && (forall q :: q in log[k].evictions ==> q.grace == (if log[k - 1].copy.maintenance == Some("alarm") then Some(0) else None) && !Drain.Terminating(q.pod))
          && (forall q :: q in log[k].forced ==> q.kind == Drain.Delete && q.grace == Some(0) && Drain.Terminating(q.pod)))
    && (log[k].PowerOffAttempt? ==>
          && k >= 4 && log[k - 4].AnnotationEnsured? && log[k - 3].CordonEnsured? && log[k - 2].DrainAttempt?
          && log[k - 1].FoundDrained? && Drain.Candidates(log[k - 1].pods) == []
          && Annotated(log[k].api) && log[k].copy.unschedulable)
    && (log[k].AnnotationRemoved? ==>
          k >= 2 && log[k - 2].SeenOn? && log[k - 2].power == On && log[k - 1].UncordonEnsured? && !log[k - 1].copy.unschedulable)
  }

  ghost predicate Ordered(log: seq<Event>)
  {
    forall k :: 0 <= k < |log| ==> InOrder(log, k)
  }

  lemma OrderedStep(log: seq<Event>, e: Event)
    requires Ordered(log) && InOrder(log + [e], |log|)
    ensures Ordered(log + [e])
  {
    forall k | 0 <= k < |log| ensures InOrder(log + [e], k) {
      assert InOrder(log, k);
    }
  }

  lemma OrderedStart(log: seq<Event>, v: View)
    requires Ordered(log) && !v.unschedulable
    ensures Ordered(log + [SeenOn(On)]) && Ordered(log + [SeenOn(On)] + [UncordonEnsured(v)])
    ensures Ordered(log + [SeenOn(On)] + [UncordonEnsured(v)] + [AnnotationRemoved])
  {
    OrderedStep(log, SeenOn(On));
    OrderedStep(log + [SeenOn(On)], UncordonEnsured(v));
    OrderedStep(log + [SeenOn(On)] + [UncordonEnsured(v)], AnnotationRemoved);
  }

  /** Starting a node gets this far. */
  lemma StartLog(s: Node, c: Calls) returns (v: View)
    ensures !v.unschedulable
    ensures var log := StartOne(s, c).log;
      || log == s.log || log == s.log + [SeenOn(On)] || log == s.log + [SeenOn(On)] + [UncordonEnsured(v)]
      || log == s.log + [SeenOn(On)] + [UncordonEnsured(v)] + [AnnotationRemoved]
  {
    v := View(None, None, None, None, false);
    if ShouldStart(s.copy) && VmOn(s, c.on).ok {
      EnsureLog(VmOn(s, c.on).node, SetUnschedulable(false), c.uncordon);
      var b := Ensure(VmOn(s, c.on).node, SetUnschedulable(false), c.uncordon);
      if b.ok {
        v := b.node.copy;
        EnsureLog(Logged(b.node, UncordonEnsured(v)), RemoveInitiated, c.unannotate);
      }
    }
  }

  lemma EnsureLog(s: Node, c: Change, call: PatchCall)
    ensures var log := Ensure(s, c, call).node.log;
            log == s.log || (c.RemoveInitiated? && log == s.log + [AnnotationRemoved])
    ensures var d := Ensure(s, c, call); d.ok && c == SetUnschedulable(false) ==> !d.node.copy.unschedulable
  {}

  lemma StartOrdered(s: Node, c: Calls)
    requires Ordered(s.log)
    ensures Ordered(StartOne(s, c).log)
  {
    var v := StartLog(s, c);
    OrderedStart(s.log, v);
    hide Ordered, StartOne;
  }

  /** The copy does not claim an annotation the API server does not have. */
  ghost predicate Honest(s: Node) { Annotated(s.copy) ==> Annotated(s.api) }

  lemma ShutdownOrdered(s: Node, c: Calls)
    requires Ordered(s.log) && Honest(s)
    ensures Ordered(ShutdownOne(s, c).log)
  {
    var a := Ensure(s, SetInitiated, c.annotate);
    if ShouldShutdownNode(s.copy) && a.ok {
      OrderedStep(s.log, AnnotationEnsured);
      var l1 := s.log + [AnnotationEnsured];
      assert Annotated(a.node.api) && a.node.log == s.log;
      CordonFrom(Logged(a.node, AnnotationEnsured), c);
      var b := Ensure(Logged(a.node, AnnotationEnsured), SetUnschedulable(true), c.cordon);
      if b.ok {
        OrderedStep(l1, CordonEnsured(b.node.copy));
        ThenDrain(l1 + [CordonEnsured(b.node.copy)], Logged(b.node, CordonEnsured(b.node.copy)), c);
      }
    }
  }

  lemma CordonFrom(s: Node, c: Calls)
    requires Annotated(s.api)
    ensures var b := Ensure(s, SetUnschedulable(true), c.cordon);
            b.node.log == s.log && Annotated(b.node.api) && (b.ok ==> b.node.copy.unschedulable)
  {}

  lemma RequestsFit(s: Node, c: DrainCall)
    ensures forall q :: q in Evictions(s, c) ==> q.grace == GracePeriod(s.copy) && !Drain.Terminating(q.pod)
    ensures forall q :: q in ForcedDeletions(c) ==> q.kind == Drain.Delete && q.grace == Some(0) && Drain.Terminating(q.pod)
  {
    hide GracePeriod;
    forall q | q in Evictions(s, c) ensures q.grace == GracePeriod(s.copy) && !Drain.Terminating(q.pod) {
      var i :| 0 <= i < |Evictions(s, c)| && Evictions(s, c)[i] == q;
      assert q.pod in Drain.ActiveOf(Drain.Candidates(c.api.listed.value));
    }
    forall q | q in ForcedDeletions(c) ensures q.kind == Drain.Delete && q.grace == Some(0) && Drain.Terminating(q.pod) {
      var i :| 0 <= i < |ForcedDeletions(c)| && ForcedDeletions(c)[i] == q;
      assert q.pod in Drain.OverdueOf(Drain.TerminatingOf(Drain.Candidates(c.api.listed.value)), c.now);
    }
  }

  lemma OrderedDrain(log: seq<Event>, s: Node, c: DrainCall)
    requires Ordered(log) && |log| >= 2 && log[|log| - 2].AnnotationEnsured?
    requires log[|log| - 1] == CordonEnsured(s.copy) && s.copy.unschedulable
    ensures Ordered(log + [DrainAttempt(Evictions(s, c), ForcedDeletions(c))])
  {
    var e := DrainAttempt(Evictions(s, c), ForcedDeletions(c));
    RequestsFit(s, c);
    hide Evictions, ForcedDeletions;
    OrderedStep(log, e);
  }

  lemma ThenDrain(log: seq<Event>, s: Node, c: Calls)
    requires Ordered(log) && |log| >= 2 && log[|log| - 2].AnnotationEnsured? && log[|log| - 1] == CordonEnsured(s.copy)
    requires s.log == log && Annotated(s.api) && s.copy.unschedulable
    ensures var d := Drained(s, c.drain);
      && Ordered(d.log)
      && (Empty(c.drain.api) ==> Ordered(VmOff(Logged(d, FoundDrained(c.drain.api.listed.value)), c.off).node.log))
  {
    OrderedDrain(log, s, c.drain);
    var d := Drained(s, c.drain);
    if Empty(c.drain.api) {
      ThenPowerOff(d.log, d, c);
    }
  }

  lemma ThenPowerOff(log: seq<Event>, d: Node, c: Calls)
    requires Ordered(log) && |log| >= 3 && log[|log| - 3].AnnotationEnsured? && log[|log| - 2].CordonEnsured? && log[|log| - 1].DrainAttempt?
    requires d.log == log && Empty(c.drain.api) && Annotated(d.api) && d.copy.unschedulable
    ensures Ordered(VmOff(Logged(d, FoundDrained(c.drain.api.listed.value)), c.off).node.log)
  {
    var found := FoundDrained(c.drain.api.listed.value);
    OrderedStep(log, found);
    var e := Disturb(Logged(d, found), c.off.edit);
    OrderedAttempt(log + [found], e);
    assert e.log == log + [found];
    hide Ordered;
  }

  lemma OrderedAttempt(log: seq<Event>, e: Node)
    requires Ordered(log) && |log| >= 4 && Annotated(e.api) && e.copy.unschedulable
    requires log[|log| - 4].AnnotationEnsured? && log[|log| - 3].CordonEnsured? && log[|log| - 2].DrainAttempt?
    requires log[|log| - 1].FoundDrained? && Drain.Candidates(log[|log| - 1].pods) == []
    ensures Ordered(log + [PowerOffAttempt(e.api, e.copy)])
  {
    OrderedStep(log, PowerOffAttempt(e.api, e.copy));
  }

  lemma EnsureHonest(s: Node, c: Change, call: PatchCall)
    requires Honest(s)
    ensures Ensure(s, c, call).ok || !c.SetInitiated? ==> Honest(Ensure(s, c, call).node)
    ensures !c.RemoveInitiated? ==> Ensure(s, c, call).node.log == s.log
  {}

  lemma LabelHonest(s: Node, c: Calls, r: Reached)
    requires Honest(s)
    ensures Honest(Label(s, c, r)) && Label(s, c, r).log == s.log
  {
    var v := if r.version.Some? then Ensure(s, SetVersion(r.version.value), c.version).node else s;
    if r.version.Some? {
      EnsureHonest(s, SetVersion(r.version.value), c.version);
    }
    if r.maintenance.Some? {
      EnsureHonest(v, SetMaintenance(r.maintenance.value), c.maintenance);
    }
  }

  lemma StartHonest(s: Node, c: Calls)
    requires Honest(s)
    ensures Honest(StartOne(s, c))
  {
    var a := VmOn(s, c.on);
    if ShouldStart(s.copy) && a.ok {
      var b := Ensure(a.node, SetUnschedulable(false), c.uncordon);
      EnsureHonest(a.node, SetUnschedulable(false), c.uncordon);
      if b.ok {
        EnsureHonest(Logged(b.node, UncordonEnsured(b.node.copy)), RemoveInitiated, c.unannotate);
      }
    }
  }

  lemma HonestPass(s: Node, c: Calls, r: Reached) returns (l: Node)
    ensures l == Label(Listed(s, c), c, r) && l.log == s.log + [PassStarted]
    ensures Honest(StartOne(l, c))
  {
    LabelHonest(Listed(s, c), c, r);
    l := Label(Listed(s, c), c, r);
    StartHonest(l, c);
  }

  lemma PassOrdered(s: Node, c: Calls, r: Reached)
    requires Ordered(s.log)
    ensures Ordered(PassOne(s, c, r).log)
  {
    var l := HonestPass(s, c, r);
    OrderedStep(s.log, PassStarted);
    if r.powered {
      StartOrdered(l, c);
      ShutdownOrdered(StartOne(l, c), c);
    }
  }

  /** On every run, whatever fails and whoever interferes, the steps come in this order. */
  lemma {:induction false} OrderOverRuns(start: Node, steps: seq<Step>, n: nat)
    requires n <= |steps| && Ordered(start.log)
    ensures Ordered(At(start, steps, n).log)
  {
    if n > 0 {
      OrderOverRuns(start, steps, n - 1);
      if steps[n - 1].Pass? {
        PassOrdered(At(start, steps, n - 1), steps[n - 1].calls, steps[n - 1].reached);
      }
    }
  }

  // ---- labels ----

  /** Where the label patches are accepted, a listed node carries what the host says. */
  lemma LabelsShow(s: Node, c: Calls, r: Reached)
    requires c.version.answer == Applied && c.maintenance.answer == Applied
    ensures var l := Label(Listed(s, c), c, r);
      && l.copy.version == (if r.version.Some? then r.version else s.api.version)
      && (r.maintenance.Some? ==> l.copy.maintenance == r.maintenance)
  {
    var v := Listed(s, c);
    if r.version.Some? {
      VersionShows(v, r.version.value, c.version);
      v := Ensure(v, SetVersion(r.version.value), c.version).node;
    }
    if r.maintenance.Some? {
      MaintenanceShows(v, r.maintenance.value, c.maintenance);
    }
    hide Ensure;
  }

  lemma VersionShows(s: Node, x: string, call: PatchCall)
    requires s.copy == s.api && call.answer == Applied
    ensures var d := Ensure(s, SetVersion(x), call).node; d.copy.version == d.api.version == Some(x)
  {}

  lemma MaintenanceShows(s: Node, x: string, call: PatchCall)
    requires s.copy.version == s.api.version && call.answer == Applied
    ensures var d := Ensure(s, SetMaintenance(x), call).node; d.copy.maintenance == Some(x) && d.copy.version == s.copy.version
  {}

  // ---- switching off ----

  /** A shutdown succeeds exactly if the machine was off, the guest was seen off, or unplugging succeeded,
      and then the machine is off; it is unplugged only without guest tools or after the guest took too
      long, so that otherwise the power-off task would not have mattered. */
  lemma StoppedMeansOff(s: Node, c: OffCall)
    ensures VmOff(s, c).ok <==>
      (c.connected && c.retrieved && (Disturb(s, c.edit).power == Off || (c.guest == Asked && c.poll == SawOff)
       || ((c.guest == ToolsUnavailable || (c.guest == Asked && c.poll == TimedOut)) && c.task == Finished(true))))
    ensures VmOff(s, c).ok ==> VmOff(s, c).node.power == Off
    ensures forall t :: !(c.guest == ToolsUnavailable || (c.guest == Asked && c.poll == TimedOut)) ==> VmOff(s, c.(task := t)) == VmOff(s, c)
  {
    hide Disturb;
  }

  // ---- cordoned at the API server ----

  ghost predicate Calm(e: Edit) { e.unschedulable != Some(false) }

  /** Nobody else uncordons the node during the pass. */
  ghost predicate CalmCalls(c: Calls)
  {
    && Calm(c.version.edit) && Calm(c.maintenance.edit) && Calm(c.on.edit) && Calm(c.uncordon.edit)
    && Calm(c.unannotate.edit) && Calm(c.annotate.edit) && Calm(c.cordon.edit) && Calm(c.drain.edit) && Calm(c.off.edit)
  }

  ghost predicate CordonHonest(s: Node) { s.copy.unschedulable ==> s.api.unschedulable }

  lemma EnsureCalm(s: Node, c: Change, call: PatchCall)
    requires CordonHonest(s) && Calm(call.edit)
    ensures Ensure(s, c, call).ok || c != SetUnschedulable(true) ==> CordonHonest(Ensure(s, c, call).node)
  {}

  lemma CalmLabel(s: Node, c: Calls, r: Reached)
    requires CalmCalls(c) && CordonHonest(s)
    ensures CordonHonest(Label(s, c, r))
  {
    var v := if r.version.Some? then Ensure(s, SetVersion(r.version.value), c.version).node else s;
    if r.version.Some? {
      EnsureCalm(s, SetVersion(r.version.value), c.version);
    }
    if r.maintenance.Some? {
      EnsureCalm(v, SetMaintenance(r.maintenance.value), c.maintenance);
    }
  }

  lemma CalmStart(s: Node, c: Calls)
    requires CalmCalls(c) && CordonHonest(s)
    ensures CordonHonest(StartOne(s, c))
  {
    var a := VmOn(s, c.on);
    if ShouldStart(s.copy) && a.ok {
      var b := Ensure(a.node, SetUnschedulable(false), c.uncordon);
      EnsureCalm(a.node, SetUnschedulable(false), c.uncordon);
      if b.ok {
        EnsureCalm(Logged(b.node, UncordonEnsured(b.node.copy)), RemoveInitiated, c.unannotate);
      }
    }
  }

  ghost predicate CordonedAttempts(log: seq<Event>, from: nat)
  {
    forall k :: from <= k < |log| && log[k].PowerOffAttempt? ==> log[k].api.unschedulable
  }

  lemma AttemptsStep(log: seq<Event>, e: Event, from: nat)
    requires CordonedAttempts(log, from) && from <= |log| && (e.PowerOffAttempt? ==> e.api.unschedulable)
    ensures CordonedAttempts(log + [e], from)
  {}

  lemma StartAttempts(s: Node, c: Calls, from: nat)
    requires from <= |s.log| && CordonedAttempts(s.log, from)
    ensures CordonedAttempts(StartOne(s, c).log, from) && from <= |StartOne(s, c).log|
  {
    var v := StartLog(s, c);
    AttemptsStep(s.log, SeenOn(On), from);
    AttemptsStep(s.log + [SeenOn(On)], UncordonEnsured(v), from);
    AttemptsStep(s.log + [SeenOn(On)] + [UncordonEnsured(v)], AnnotationRemoved, from);
    hide CordonedAttempts, StartOne;
  }

  lemma OffAttempts(s: Node, c: OffCall, from: nat)
    requires from <= |s.log| && CordonedAttempts(s.log, from) && s.api.unschedulable && Calm(c.edit)
    ensures CordonedAttempts(VmOff(s, c).node.log, from)
  {
    var d := Disturb(s, c.edit);
    AttemptsStep(s.log, PowerOffAttempt(d.api, d.copy), from);
  }

  lemma ShutdownAttempts(s: Node, c: Calls, from: nat)
    requires CalmCalls(c) && CordonHonest(s) && from <= |s.log| && CordonedAttempts(s.log, from)
    ensures CordonedAttempts(ShutdownOne(s, c).log, from)
  {
    if ShouldShutdownNode(s.copy) {
      var a := Ensure(s, SetInitiated, c.annotate);
      EnsureCalm(s, SetInitiated, c.annotate);
      assert a.node.log == s.log;
      if a.ok {
        AttemptsStep(s.log, AnnotationEnsured, from);
        var b := Ensure(Logged(a.node, AnnotationEnsured), SetUnschedulable(true), c.cordon);
        EnsureCalm(Logged(a.node, AnnotationEnsured), SetUnschedulable(true), c.cordon);
        if b.ok {
          CordonedThenOff(b.node, c, from);
        }
      }
    }
  }

  lemma CordonedThenOff(s: Node, c: Calls, from: nat)
    requires CalmCalls(c) && s.api.unschedulable && from <= |s.log| && CordonedAttempts(s.log, from)
    ensures var d := Drained(Logged(s, CordonEnsured(s.copy)), c.drain);
      && CordonedAttempts(d.log, from)
      && (Empty(c.drain.api) ==> CordonedAttempts(VmOff(Logged(d, FoundDrained(c.drain.api.listed.value)), c.off).node.log, from))
  {
    var cordoned := Logged(s, CordonEnsured(s.copy));
    AttemptsStep(s.log, CordonEnsured(s.copy), from);
    AttemptsStep(cordoned.log, DrainAttempt(Evictions(cordoned, c.drain), ForcedDeletions(c.drain)), from);
    var d := Drained(cordoned, c.drain);
    if Empty(c.drain.api) {
      var found := FoundDrained(c.drain.api.listed.value);
      AttemptsStep(d.log, found, from);
      OffAttempts(Logged(d, found), c.off, from);
    }
  }

  /** In a pass during which nobody else uncordons the node, a power-off is attempted only while the
      node is cordoned at the API server. */
  lemma CordonedPowerOff(s: Node, c: Calls, r: Reached)
    requires CalmCalls(c)
    ensures CordonedAttempts(PassOne(s, c, r).log, |s.log|)
  {
    var l := HonestPass(s, c, r);
    CalmLabel(Listed(s, c), c, r);
    AttemptsStep(s.log, PassStarted, |s.log|);
    if r.powered {
      CalmStart(l, c);
      StartAttempts(l, c, |s.log|);
      ShutdownAttempts(StartOne(l, c), c, |s.log|);
    }
  }

  // ---- the obligation ----

  /** The marks agree with the node and the machine. */
  ghost predicate Coherent(s: Node)
  {
    (s.cordoned ==> s.api.unschedulable) && (s.stopped ==> s.power == Off) && (s.asked ==> s.power != Off)
  }

  /** A guest shutdown or a power-off task is outstanding. */
  predicate Pending(s: Node) { s.asked || s.queued }

  /** Whatever the controller cordoned, stopped or is about to stop carries the annotation. */
  ghost predicate Obliged(s: Node)
  {
    Coherent(s) && (s.cordoned || s.stopped || Pending(s) ==> Annotated(s.api))
  }

  ghost predicate Hasty(s: Node, c: Calls)
  {
    ShouldStart(s.copy) && Pending(Disturb(s, c.on.edit)) && VmOn(s, c.on).ok
  }

  /** The pass takes a machine for started that is still on its way down. */
  ghost predicate Premature(s: Node, c: Calls, r: Reached)
  {
    var l := Label(Listed(s, c), c, r);
    r.powered && Hasty(l, c)
  }

  lemma DisturbObliged(s: Node, e: Edit)
    requires Obliged(s)
    ensures Obliged(Disturb(s, e))
  {}

  /** Everything but removing the annotation and uncordoning keeps the obligation. */
  lemma EnsureObliged(s: Node, c: Change, call: PatchCall)
    requires Obliged(s) && !c.RemoveInitiated?
    requires c == SetUnschedulable(true) ==> Annotated(s.api)
    ensures Obliged(Ensure(s, c, call).node)
  {}

  /** A cordon of the controller shows in the copy. */
  ghost predicate Shown(s: Node) { s.cordoned ==> s.copy.unschedulable }

  lemma EnsureShown(s: Node, c: Change, call: PatchCall)
    requires Obliged(s) && Shown(s) && (c.SetVersion? || c.SetMaintenance?)
    ensures Shown(Ensure(s, c, call).node)
  {}

  lemma LabelObliged(s: Node, c: Calls, r: Reached)
    requires Obliged(s) && Shown(s)
    ensures Obliged(Label(s, c, r)) && Shown(Label(s, c, r))
  {
    var v := if r.version.Some? then Ensure(s, SetVersion(r.version.value), c.version).node else s;
    if r.version.Some? {
      EnsureObliged(s, SetVersion(r.version.value), c.version);
      EnsureShown(s, SetVersion(r.version.value), c.version);
    }
    if r.maintenance.Some? {
      EnsureObliged(v, SetMaintenance(r.maintenance.value), c.maintenance);
      EnsureShown(v, SetMaintenance(r.maintenance.value), c.maintenance);
    }
  }

  /** Nothing of the controller's is left on the node. */
  ghost predicate Clean(s: Node) { Coherent(s) && !s.cordoned && !s.stopped && !Pending(s) }

  lemma UncordonCleans(s: Node, call: PatchCall)
    requires Obliged(s) && Shown(s) && !s.stopped && !Pending(s)
    ensures var d := Ensure(s, SetUnschedulable(false), call); Obliged(d.node) && (d.ok ==> Clean(d.node))
  {}

  lemma CleanStays(s: Node, c: Change, call: PatchCall)
    requires Clean(s) && c != SetUnschedulable(true)
    ensures Clean(Ensure(s, c, call).node)
  {}

  lemma VmOnObliged(s: Node, c: OnCall)
    requires Obliged(s) && Shown(s)
    ensures var d := VmOn(s, c); Obliged(d.node) && Shown(d.node)
    ensures var d := VmOn(s, c); d.ok ==> !d.node.stopped && (Pending(d.node) <==> Pending(Disturb(s, c.edit)))
  {}

  lemma StartObliged(s: Node, c: Calls)
    requires Obliged(s) && Shown(s)
    requires !Hasty(s, c)
    ensures Obliged(StartOne(s, c))
  {
    VmOnObliged(s, c.on);
    var a := VmOn(s, c.on);
    hide VmOn, Ensure, Disturb, Coherent, Shown;
    if ShouldStart(s.copy) && a.ok {
      UncordonCleans(a.node, c.uncordon);
      var b := Ensure(a.node, SetUnschedulable(false), c.uncordon);
      if b.ok {
        LoggedClean(b.node, UncordonEnsured(b.node.copy));
        CleanStays(Logged(b.node, UncordonEnsured(b.node.copy)), RemoveInitiated, c.unannotate);
      }
    }
  }

  lemma LoggedClean(s: Node, e: Event)
    ensures Clean(s) ==> Clean(Logged(s, e))
    ensures Obliged(s) ==> Obliged(Logged(s, e))
  {}

  lemma OffObliged(s: Node, c: OffCall)
    requires Obliged(s) && Annotated(s.api)
    ensures Obliged(VmOff(s, c).node)
  {}

  lemma ShutdownObliged(s: Node, c: Calls)
    requires Obliged(s) && Honest(s)
    ensures Obliged(ShutdownOne(s, c))
  {
    if ShouldShutdownNode(s.copy) {
      var a := Ensure(s, SetInitiated, c.annotate);
      EnsureObliged(s, SetInitiated, c.annotate);
      EnsureAnnotates(s, c.annotate);
      if a.ok {
        var a' := Logged(a.node, AnnotationEnsured);
        CordonFrom(a', c);
        EnsureObliged(a', SetUnschedulable(true), c.cordon);
        var b := Ensure(a', SetUnschedulable(true), c.cordon);
        hide Ensure;
        if b.ok {
          CordonedObliged(b.node, c);
        }
      }
    }
  }

  lemma EnsureAnnotates(s: Node, call: PatchCall)
    requires Honest(s)
    ensures var d := Ensure(s, SetInitiated, call); d.node.log == s.log && (d.ok ==> Annotated(d.node.api))
  {}

  lemma CordonedObliged(s: Node, c: Calls)
    requires Obliged(s) && Annotated(s.api)
    ensures var d := Drained(Logged(s, CordonEnsured(s.copy)), c.drain);
      && Obliged(d)
      && (Empty(c.drain.api) ==> Obliged(VmOff(Logged(d, FoundDrained(c.drain.api.listed.value)), c.off).node))
  {
    var d := Drained(Logged(s, CordonEnsured(s.copy)), c.drain);
    DisturbObliged(Logged(s, CordonEnsured(s.copy)), c.drain.edit);
    if Empty(c.drain.api) {
      OffObliged(Logged(d, FoundDrained(c.drain.api.listed.value)), c.off);
    }
  }

  lemma PassObliged(s: Node, c: Calls, r: Reached)
    requires Obliged(s) && !Premature(s, c, r)
    ensures Obliged(PassOne(s, c, r))
  {
    DisturbObliged(s, c.listing);
    LabelObliged(Listed(s, c), c, r);
    var l := HonestPass(s, c, r);
    if r.powered {
      StartObliged(l, c);
      ShutdownObliged(StartOne(l, c), c);
    }
  }

  ghost predicate PrematureStep(s: Node, step: Step) { step.Pass? && Premature(s, step.calls, step.reached) }

  lemma StepObliged(s: Node, step: Step)
    requires Obliged(s) && !PrematureStep(s, step)
    ensures Obliged(After(s, step))
  {
    match step
    case Pass(c, r) => PassObliged(s, c, r);
    case Others(e) => DisturbObliged(s, e);
  }

  /** None of the first n steps starts a node prematurely. */
  ghost predicate Patient(start: Node, steps: seq<Step>, n: nat)
    requires n <= |steps|
  {
    n == 0 || (Patient(start, steps, n - 1) && !PrematureStep(At(start, steps, n - 1), steps[n - 1]))
  }

  /** On every run without a premature start, every node the controller has cordoned, powered off or
      asked to shut down carries the annotation. */
  lemma {:induction false} ObligationOverRuns(start: Node, steps: seq<Step>, n: nat)
    requires n <= |steps| && Obliged(start)
    requires Patient(start, steps, n)
    ensures Obliged(At(start, steps, n))
  {
    if n > 0 {
      ObligationOverRuns(start, steps, n - 1);
      assert At(start, steps, n) == After(At(start, steps, n - 1), steps[n - 1]);
      StepObliged(At(start, steps, n - 1), steps[n - 1]);
    }
  }

  // ---- the condition is exact ----

  ghost predicate Broken(s: Node) { (s.cordoned || s.stopped) && !Annotated(s.api) }

  const CALM := Edit(None, None, None, None, None)

  /** What is outstanding happens. */
  function LateEdit(s: Node): Edit
  {
    Edit(None, None, None, None, Some(if s.asked then GuestGoesOff else TaskRuns))
  }

  const YES := PatchCall(CALM, Applied)

  function Smooth(): Calls
  {
    Calls(CALM, YES, YES, OnCall(CALM, true, true, Finished(true)), YES, YES, YES, YES,
          DrainCall(CALM, Drain.Api(Ok([]), Ok(Drain.EvictV1), (q: Drain.Request) => Drain.Accepted), false, 0),
          OffCall(CALM, true, true, Asked, SawOff, Finished(true)))
  }

  const DOWN := Reached(None, Some(TRUE), true)
  const UP := Reached(None, Some(NO_MAINTENANCE), true)
  /** A pass in which everything succeeds, whether the machine is seen on or has to be started, and then
      what was outstanding happens. */
  lemma LateShutdown(s: Node)
    requires Obliged(s) && Pending(s)
    ensures Broken(Disturb(PassOne(s, Smooth(), UP), LateEdit(s)))
  {
    SmoothStart(s);
    hide PassOne;
  }

  ghost predicate SafeFrom(s: Node)
  {
    forall c, r, e :: !Broken(Disturb(PassOne(s, c, r), e))
  }

  /** A pass can leave a cordoned or stopped node without its annotation exactly if it starts while a guest
      shutdown the controller asked for, or a power-off it queued, is outstanding. */
  lemma ObligationExact(s: Node)
    requires Obliged(s)
    ensures SafeFrom(s) <==> !Pending(s)
  {
    if Pending(s) {
      LateShutdown(s);
    } else {
      forall c, r, e ensures !Broken(Disturb(PassOne(s, c, r), e)) {
        NotPremature(s, c, r);
        PassObliged(s, c, r);
        DisturbObliged(PassOne(s, c, r), e);
      }
    }
  }

  lemma NotPremature(s: Node, c: Calls, r: Reached)
    requires !Pending(s)
    ensures !Premature(s, c, r)
  {}

  // ---- the whole cycle ----

  /** A patch that succeeds on a fresh copy changes copy and object alike, and nothing else but the
      controller's own mark. */
  lemma EnsureSmooth(s: Node, c: Change)
    requires s.copy == s.api && Coherent(s)
    ensures var d := Ensure(s, c, YES);
      && d.ok && d.node.copy == d.node.api == Changed(s.api, c) && Coherent(d.node)
      && d.node.power == s.power && d.node.stopped == s.stopped && d.node.asked == s.asked && d.node.queued == s.queued
  {
    CalmIsNothing(s);
    hide Disturb;
  }

  lemma CalmIsNothing(s: Node)
    requires Coherent(s)
    ensures Disturb(s, CALM) == s
  {}

  lemma ListedSmooth(s: Node, m: string)
    requires Obliged(s)
    ensures var l := Label(Listed(s, Smooth()), Smooth(), Reached(None, Some(m), true));
      && l.copy == l.api == Changed(s.api, SetMaintenance(m))
      && l.power == s.power && l.stopped == s.stopped && l.asked == s.asked && l.queued == s.queued && Coherent(l)
  {
    EnsureSmooth(Listed(s, Smooth()), SetMaintenance(m));
  }

  /** When nothing fails, a pass under maintenance leaves the node annotated, cordoned and off. */
  lemma GoesDown(s: Node)
    requires Obliged(s) && s.api.rebootOk == Some(TRUE)
    ensures var d := PassOne(s, Smooth(), DOWN);
      Annotated(d.api) && d.api.unschedulable && d.power == Off && !d.asked && d.queued == s.queued
  {
    var c := Smooth();
    var l := Label(Listed(s, c), c, DOWN);
    ListedSmooth(s, TRUE);
    hide Ensure, Label, Listed;
    assert StartOne(l, c) == l && ShouldShutdownNode(l.copy);
    EnsureSmooth(l, SetInitiated);
    var a := Logged(Ensure(l, SetInitiated, c.annotate).node, AnnotationEnsured);
    EnsureSmooth(a, SetUnschedulable(true));
    var b := Ensure(a, SetUnschedulable(true), c.cordon).node;
    var cordoned := Logged(b, CordonEnsured(b.copy));
    assert Empty(c.drain.api);
    CalmIsNothing(cordoned);
    CalmIsNothing(Logged(Drained(cordoned, c.drain), FoundDrained([])));
    StoppedMeansOff(Logged(Drained(cordoned, c.drain), FoundDrained([])), c.off);
    hide Disturb, Evictions, ForcedDeletions;
  }

  /** When nothing fails, the pass after the maintenance turns the machine on, uncordons the node and removes
      the annotation, and leaves alone what is outstanding. */
  lemma SmoothStart(s: Node)
    requires Obliged(s) && Annotated(s.api)
    ensures var u := PassOne(s, Smooth(), UP);
      && !Annotated(u.api) && !u.api.unschedulable && u.power == On && !u.cordoned && !u.stopped
      && u.asked == s.asked && u.queued == s.queued
  {
    var c := Smooth();
    var l := Label(Listed(s, c), c, UP);
    ListedSmooth(s, NO_MAINTENANCE);
    hide Ensure, Label, Listed;
    assert ShouldStart(l.copy);
    CalmIsNothing(l);
    hide Disturb;
    var a := VmOn(l, c.on);
    assert a.ok && a.node.power == On && !a.node.stopped && a.node.copy == a.node.api == l.api;
    EnsureSmooth(a.node, SetUnschedulable(false));
    var un := Ensure(a.node, SetUnschedulable(false), c.uncordon).node;
    var b := Logged(un, UncordonEnsured(un.copy));
    assert !b.api.unschedulable && !b.cordoned;
    EnsureSmooth(b, RemoveInitiated);
    assert !ShouldShutdownNode(StartOne(l, c).copy);
  }

  /** Down and up again is a round trip to a running, schedulable node without traces. */
  lemma PowerCycle(s: Node)
    requires Obliged(s) && !Pending(s) && s.api.rebootOk == Some(TRUE)
    ensures var u := PassOne(PassOne(s, Smooth(), DOWN), Smooth(), UP);
      !Annotated(u.api) && !u.api.unschedulable && u.power == On && !u.cordoned && !u.stopped && !Pending(u)
  {
    GoesDown(s);
    NotPremature(s, Smooth(), DOWN);
    PassObliged(s, Smooth(), DOWN);
    hide PassOne;
    SmoothStart(PassOne(s, Smooth(), DOWN));
  }
}
