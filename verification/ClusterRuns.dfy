/** Sequential reconciles of the nodes of a cluster whose every way into maintenance is guarded by the
    counting gate, and the bound this keeps. */
module ClusterRuns {

  import opened Sets
  import opened Labels
  import opened Plugins
  import opened States
  import opened Handler
  import opened Passes
  import opened Runs
  import opened Worlds
  import opened MaxMaintenance

  /** The plugins of a reconcile work in a world in which they see the cluster through `view`. */
  datatype Act<!W> =
    | Reconcile(name: string, pl: Plugins<W>, w: W, view: W -> Cluster, patchOk: bool)
    | Edit(name: string, node: NodeObject)
    | Remove(name: string)

  function Perform<W>(cfg: Config, c: Cluster, a: Act<W>): Cluster
  {
    match a
    case Reconcile(name, pl, w, _, patchOk) => if name in c then c[name := Persisted(pl, w, cfg, c[name], patchOk)] else c
    case Edit(name, node) => c[name := node]
    case Remove(name) => c - {name}
  }

  function Viewing<W>(view: W -> Cluster): (W, W) -> bool
  {
    (a: W, b: W) => view(a) == view(b)
  }

  /** A consistent node: readable data, and in-maintenance shows in the state label. */
  ghost predicate NodeOk(cfg: Config, node: NodeObject)
  {
    WellFormed(cfg, node) && (InMaintenanceSet(DataOf(node).profiles) != {} ==> Labelled(node))
  }

  ghost predicate ClusterOk(cfg: Config, c: Cluster)
  {
    forall n :: n in c ==> NodeOk(cfg, c[n])
  }

  /** Triggers may relabel the node, but do not move it between groups. */
  ghost predicate KeepsGroups<W(!new)>(gate: Gate, pl: Plugins<W>)
  {
    forall v, labels, k :: 0 <= k < |gate.groupBy| ==> SameAt(pl.relabel(v, labels), labels, gate.groupBy[k])
  }

  /** Both label sets say the same about key k. */
  predicate SameAt(a: map<string, string>, b: map<string, string>, k: string)
  {
    (k in a <==> k in b) && Get(a, k) == Get(b, k)
  }

  /** A reconcile reads the cluster as it is, and instance g passes only if the gate does.  Others may
      add, change and remove nodes, but do not put nodes into maintenance or move maintained nodes
      into a group. */
  ghost predicate Allowed<W(!new)>(cfg: Config, gate: Gate, g: string, c: Cluster, a: Act<W>)
  {
    match a
    case Reconcile(name, pl, w, view, _) =>
      name in c ==>
        && Respects(pl, Viewing(view)) && view(w) == c && KeepsGroups(gate, pl)
        && forall v, p :: pl.check(v, p, g).0 == Passed ==> GatePasses(gate, c[name].labels, view(v))
    case Edit(name, node) =>
      && NodeOk(cfg, node)
      && forall self :: Labelled(node) && Counts(gate, self, node.labels) ==> name in CountedSet(gate, self, c)
    case Remove(_) => true
  }

  ghost predicate GuardedConfig(cfg: Config, g: string)
  {
    WellFormedConfig(cfg) && forall x, l :: x in cfg ==> Guarded(ChainsOf(cfg[x], l).transitions, g)
  }

  // ---- one reconcile ----

  /** The label text for the states of the active profiles. */
  ghost predicate ShowsStates(labels: map<string, string>, states: seq<ProfileState>)
  {
    && STATE_KEY in labels
    && (labels[STATE_KEY] == IN_MAINTENANCE <==> SomeIn(states, InMaintenance))
    && (labels[STATE_KEY] == REQUIRED <==> SomeIn(states, Required) && !SomeIn(states, InMaintenance))
    && (labels[STATE_KEY] == OPERATIONAL <==> !SomeIn(states, Required) && !SomeIn(states, InMaintenance))
  }

  ghost predicate SomeIn(states: seq<ProfileState>, l: NodeStateLabel)
  {
    exists i :: 0 <= i < |states| && states[i].state == l
  }

  lemma LabelShows(labels: map<string, string>, states: seq<ProfileState>, stored: Stored)
    ensures ShowsStates(labels[STATE_KEY := Text(StateLabel(states))], states)
    ensures Labelled(NodeObject(labels[STATE_KEY := Text(StateLabel(states))], stored)) <==> AnyInMaintenance(states)
  {}

  /** After a committed pass the state label names the most restrictive state of an active profile, the
      profile label is as it was, and every other label is as the triggers left it. */
  lemma PassLabels<W>(pl: Plugins<W>, w: W, cfg: Config, node: NodeObject)
    requires !node.stored.Garbled? && AppliedIn(pl, w, cfg, node).error.None?
    ensures var a, after := AppliedIn(pl, w, cfg, node), RunPass(pl, w, cfg, node).node;
      && after.stored == Decoded(a.data)
      && ShowsStates(after.labels, StatesOf(a.data.profiles, Active(Tag(node), cfg)))
      && (Labelled(after) <==> AnyInMaintenance(StatesOf(a.data.profiles, Active(Tag(node), cfg))))
      && SameAt(after.labels, node.labels, PROFILE_KEY)
      && forall k :: k != STATE_KEY && k != PROFILE_KEY ==> SameAt(after.labels, pl.relabel(a.world, node.labels), k)
  {
    hide Edited, ApplyAll, Maintain, Active;
    var a := AppliedIn(pl, w, cfg, node);
    LabelShows(Edited(pl, a.world, node.labels), StatesOf(a.data.profiles, Active(Tag(node), cfg)), Decoded(a.data));
    assert PROFILE_KEY != STATE_KEY;
    hide StateLabel, Text, ShowsStates;
  }

  lemma ActiveEntries<W>(pl: Plugins<W>, w: W, cfg: Config, node: NodeObject, x: string) returns (i: nat)
    requires WellFormedConfig(cfg) && WellFormed(cfg, node) && x in AppliedIn(pl, w, cfg, node).data.profiles
    ensures i < |Active(Tag(node), cfg)| && Active(Tag(node), cfg)[i].name == x
  {
    MaintainedTable(pl, w, DataOf(node).profiles, Tag(node), cfg);
    ActiveAreConfigured(Tag(node), cfg);
    assert x in Maintained(pl, w, cfg, node).profiles;
    assert x in DataOf(node).profiles ==> WellFormedEntry(cfg, x, DataOf(node).profiles[x]);
    var ps := Active(Tag(node), cfg);
    i :| 0 <= i < |ps| && ps[i] == cfg[x];
  }

  lemma ReconcileKeepsNode<W>(pl: Plugins<W>, w: W, cfg: Config, node: NodeObject, patchOk: bool)
    requires WellFormedConfig(cfg) && NodeOk(cfg, node)
    ensures NodeOk(cfg, Persisted(pl, w, cfg, node, patchOk))
  {
    StepWellFormed(cfg, node, Pass(pl, w, patchOk));
    PassData(pl, w, cfg, node, patchOk);
    var a := AppliedIn(pl, w, cfg, node);
    if a.error.None? && patchOk {
      PassLabels(pl, w, cfg, node);
      if x :| x in InMaintenanceSet(a.data.profiles) {
        var i := ActiveEntries(pl, w, cfg, node, x);
        assert StatesOf(a.data.profiles, Active(Tag(node), cfg))[i].state == InMaintenance;
      }
    }
  }

  /** A node that becomes labelled in-maintenance went through the gate in that very pass. */
  lemma LabelledThroughGate<W(!new)>(cfg: Config, gate: Gate, g: string, c: Cluster, a: Act<W>)
    requires a.Reconcile? && a.name in c && GuardedConfig(cfg, g) && ClusterOk(cfg, c) && Allowed(cfg, gate, g, c, a)
    requires !Labelled(c[a.name]) && Labelled(Perform(cfg, c, a)[a.name])
    ensures GatePasses(gate, c[a.name].labels, c)
  {
    var node := c[a.name];
    PassData(a.pl, a.w, cfg, node, a.patchOk);
    assert NodeOk(cfg, node);
    var t := Maintained(a.pl, a.w, cfg, node);
    AddNewRespects(a.pl, Viewing(a.view), a.w, Kept(DataOf(node).profiles, Effective(Tag(node))), Active(Tag(node), cfg), |Active(Tag(node), cfg)|);
    var i := NewlyLabelled(a.pl, a.w, cfg, node);
    EnteredThroughGate(cfg, gate, g, c, a, i);
  }

  /** The profile that made a pass set the label. */
  lemma NewlyLabelled<W>(pl: Plugins<W>, w: W, cfg: Config, node: NodeObject) returns (i: nat)
    requires WellFormedConfig(cfg) && NodeOk(cfg, node) && !Labelled(node)
    requires AppliedIn(pl, w, cfg, node).error.None? && Labelled(RunPass(pl, w, cfg, node).node)
    ensures i < |Snapshot(pl, w, cfg, node)| && WantsIn(pl, w, cfg, node, i)
  {
    hide RunPass, Active, Maintain;
    PassLabels(pl, w, cfg, node);
    var all, t := AppliedIn(pl, w, cfg, node), Maintained(pl, w, cfg, node);
    var after := StatesOf(all.data.profiles, Active(Tag(node), cfg));
    var k :| 0 <= k < |after| && after[k].state == InMaintenance;
    NobodyBefore(pl, w, cfg, node);
    i := EntryIndex(pl, t.world, Tag(node), cfg, Data(t.profiles, DataOf(node).notifications), after[k].profile.name);
  }

  lemma NobodyBefore<W>(pl: Plugins<W>, w: W, cfg: Config, node: NodeObject)
    requires NamedByKey(cfg) && InMaintenanceSet(DataOf(node).profiles) == {}
    ensures InMaintenanceSet(Maintained(pl, w, cfg, node).profiles) == {}
  {
    MaintainedTable(pl, w, DataOf(node).profiles, Tag(node), cfg);
    assert InMaintenanceSet(Maintained(pl, w, cfg, node).profiles) <= InMaintenanceSet(DataOf(node).profiles);
  }

  lemma EnteredThroughGate<W(!new)>(cfg: Config, gate: Gate, g: string, c: Cluster, a: Act<W>, i: nat)
    requires a.Reconcile? && a.name in c && GuardedConfig(cfg, g) && Allowed(cfg, gate, g, c, a)
    requires a.view(Maintained(a.pl, a.w, cfg, c[a.name]).world) == c
    requires i < |Snapshot(a.pl, a.w, cfg, c[a.name])| && WantsIn(a.pl, a.w, cfg, c[a.name], i)
    ensures GatePasses(gate, c[a.name].labels, c)
  {
    var node := c[a.name];
    var t := Maintained(a.pl, a.w, cfg, node);
    var states, notes, r := Snapshot(a.pl, a.w, cfg, node), DataOf(node).notifications, Viewing(a.view);
    CollectRespects(a.pl, r, t.world, states, t.profiles, notes, i);
    var col := Collect(a.pl, t.world, states, t.profiles, notes, i);
    ActiveAreConfigured(Tag(node), cfg);
    assert states[i].profile == cfg[states[i].profile.name];
    var v := EntryGuard(a.pl, r, col.world, ParamsFor(states[i], AnyInMaintenance(states), t.profiles),
                        ChainsOf(states[i].profile, states[i].state), Data(t.profiles, col.notes), g);
  }

  // ---- the bound ----

  /** A tuple of non-empty values for all group labels. */
  ghost predicate FullGroup(gate: Gate, self: map<string, string>)
  {
    forall k :: 0 <= k < |gate.groupBy| ==> gate.groupBy[k] in self && gate.groupBy[k] != "" && self[gate.groupBy[k]] != ""
  }

  ghost predicate Bounded(gate: Gate, c: Cluster)
  {
    forall self :: FullGroup(gate, self) ==> |CountedSet(gate, self, c)| <= gate.max
  }

  /** Members of one full group see the same group. */
  lemma GroupsAgree(gate: Gate, self: map<string, string>, mine: map<string, string>, labels: map<string, string>)
    requires FullGroup(gate, self) && Counts(gate, self, mine)
    ensures Counts(gate, mine, labels) <==> Counts(gate, self, labels)
  {
    forall k | 0 <= k < |gate.groupBy|
      ensures SameGroup(mine, gate.groupBy[k], labels) <==> SameGroup(self, gate.groupBy[k], labels)
    {
      assert SameGroup(self, gate.groupBy[k], mine);
    }
  }

  lemma SameCount(gate: Gate, self: map<string, string>, mine: map<string, string>, c: Cluster)
    requires FullGroup(gate, self) && Counts(gate, self, mine)
    ensures CountedSet(gate, mine, c) == CountedSet(gate, self, c)
  {
    forall m | m in c ensures Counts(gate, mine, c[m].labels) <==> Counts(gate, self, c[m].labels) {
      GroupsAgree(gate, self, mine, c[m].labels);
    }
  }

  lemma ReconcileBounded<W(!new)>(cfg: Config, gate: Gate, g: string, c: Cluster, a: Act<W>, self: map<string, string>)
    requires a.Reconcile? && a.name in c && GuardedConfig(cfg, g) && ClusterOk(cfg, c) && Allowed(cfg, gate, g, c, a)
    requires STATE_KEY !in gate.groupBy && FullGroup(gate, self) && |CountedSet(gate, self, c)| <= gate.max
    ensures |CountedSet(gate, self, Perform(cfg, c, a))| <= gate.max
  {
    assert KeepsGroups(gate, a.pl);
    hide GuardedConfig, Allowed, Persisted, WellFormed, KeepsGroups;
    var n, c' := a.name, Perform(cfg, c, a);
    var before, after := CountedSet(gate, self, c), CountedSet(gate, self, c');
    SameCounting(cfg, gate, c, a, self);
    if n in after && !Labelled(c[n]) {
      LabelledThroughGate(cfg, gate, g, c, a);
      SameCount(gate, self, c[n].labels, c);
      assert after <= before + {n};
      SubsetSize(after, before + {n});
    } else {
      assert after <= before;
      SubsetSize(after, before);
    }
  }

  /** A reconcile does not change what a node counts for. */
  lemma SameCounting<W(!new)>(cfg: Config, gate: Gate, c: Cluster, a: Act<W>, self: map<string, string>)
    requires a.Reconcile? && a.name in c && STATE_KEY !in gate.groupBy && WellFormed(cfg, c[a.name]) && KeepsGroups(gate, a.pl)
    ensures Counts(gate, self, Perform(cfg, c, a)[a.name].labels) <==> Counts(gate, self, c[a.name].labels)
  {
    hide RunPass, AppliedIn, WellFormedTable, Get;
    var node := c[a.name];
    var node' := Perform(cfg, c, a)[a.name];
    PassData(a.pl, a.w, cfg, node, a.patchOk);
    if node' != node {
      PassLabels(a.pl, a.w, cfg, node);
      var edited := a.pl.relabel(AppliedIn(a.pl, a.w, cfg, node).world, node.labels);
      forall k | 0 <= k < |gate.groupBy| ensures SameAt(node'.labels, node.labels, gate.groupBy[k]) {
        var key := gate.groupBy[k];
        assert key != STATE_KEY && SameAt(edited, node.labels, key);
        if key != PROFILE_KEY {
          assert SameAt(node'.labels, edited, key);
        }
      }
      SameLabelsCount(gate, self, node'.labels, node.labels);
    }
  }

  lemma SameLabelsCount(gate: Gate, self: map<string, string>, a: map<string, string>, b: map<string, string>)
    requires SameAt(a, b, PROFILE_KEY) && forall k :: 0 <= k < |gate.groupBy| ==> SameAt(a, b, gate.groupBy[k])
    ensures Counts(gate, self, a) <==> Counts(gate, self, b)
  {
    forall k | 0 <= k < |gate.groupBy| ensures SameGroup(self, gate.groupBy[k], a) <==> SameGroup(self, gate.groupBy[k], b) {
      assert SameAt(a, b, gate.groupBy[k]);
    }
  }

  lemma ActBounded<W(!new)>(cfg: Config, gate: Gate, g: string, c: Cluster, a: Act<W>)
    requires GuardedConfig(cfg, g) && ClusterOk(cfg, c) && Bounded(gate, c) && Allowed(cfg, gate, g, c, a)
    requires STATE_KEY !in gate.groupBy
    ensures ClusterOk(cfg, Perform(cfg, c, a)) && Bounded(gate, Perform(cfg, c, a))
  {
    var c' := Perform(cfg, c, a);
    if a.Reconcile? && a.name in c {
      ReconcileKeepsNode(a.pl, a.w, cfg, c[a.name], a.patchOk);
    }
    forall self | FullGroup(gate, self) ensures |CountedSet(gate, self, c')| <= gate.max {
      if a.Reconcile? && a.name in c {
        ReconcileBounded(cfg, gate, g, c, a, self);
      } else {
        SubsetSize(CountedSet(gate, self, c'), CountedSet(gate, self, c));
      }
    }
  }

  ghost predicate IsStep<W(!new)>(cfg: Config, gate: Gate, g: string, c: Cluster, a: Act<W>, c': Cluster)
  {
    Allowed(cfg, gate, g, c, a) && c' == Perform(cfg, c, a)
  }

  /** A sequential run: each act is performed on the cluster the previous one left. */
  ghost predicate IsRun<W(!new)>(cfg: Config, gate: Gate, g: string, cs: seq<Cluster>, acts: seq<Act<W>>)
  {
    |cs| == |acts| + 1 && forall k :: 0 <= k < |acts| ==> IsStep(cfg, gate, g, cs[k], acts[k], cs[k + 1])
  }

  /** On every sequential run, the number of in-maintenance nodes in each full group never exceeds the
      limit.  Without group labels there is one group, the whole cluster. */
  lemma {:induction false} BoundOverRuns<W(!new)>(cfg: Config, gate: Gate, g: string, cs: seq<Cluster>, acts: seq<Act<W>>, n: nat)
    requires IsRun(cfg, gate, g, cs, acts) && n < |cs|
    requires GuardedConfig(cfg, g) && STATE_KEY !in gate.groupBy
    requires ClusterOk(cfg, cs[0]) && Bounded(gate, cs[0])
    ensures ClusterOk(cfg, cs[n]) && Bounded(gate, cs[n])
  {
    if n > 0 {
      BoundOverRuns(cfg, gate, g, cs, acts, n - 1);
      assert IsStep(cfg, gate, g, cs[n - 1], acts[n - 1], cs[n]);
      ActBounded(cfg, gate, g, cs[n - 1], acts[n - 1]);
    }
  }

  function LabelledNodes(c: Cluster): set<string> { set m | m in c && Labelled(c[m]) }

  /** Without filters the bound is on all nodes labelled in-maintenance. */
  lemma WholeCluster<W(!new)>(cfg: Config, max: int, g: string, cs: seq<Cluster>, acts: seq<Act<W>>, n: nat)
    requires IsRun(cfg, Gate(max, "", []), g, cs, acts) && n < |cs|
    requires GuardedConfig(cfg, g) && ClusterOk(cfg, cs[0]) && |LabelledNodes(cs[0])| <= max
    ensures |LabelledNodes(cs[n])| <= max
  {
    var gate := Gate(max, "", []);
    forall self: map<string, string>, c: Cluster ensures CountedSet(gate, self, c) == LabelledNodes(c) {}
    assert Bounded(gate, cs[0]);
    BoundOverRuns(cfg, gate, g, cs, acts, n);
    assert FullGroup(gate, map[]);
  }
}
