/** Shutting nodes down for the maintenance of their ESX host, and starting them again.

    For every node there is the copy the controller listed at the start of a pass, the object at the
    API server, and the virtual machine.  Every patch may be rejected or its answer may get lost, every
    power operation may fail half-way, and others may edit nodes and machines before every call.  Only
    the controller writes the reboot-initiated annotation. */
module Esx {

  import opened Errors
  import Drain

  const TRUE := "true"
  const NO_MAINTENANCE := "false"
  const ALARM_MAINTENANCE := "alarm"

  datatype View = View(
    maintenance: Option<string>, rebootOk: Option<string>, version: Option<string>, initiated: Option<string>, unschedulable: bool)

  predicate Annotated(v: View) { v.initiated == Some(TRUE) }

  predicate ShutdownAllowed(state: string) { state == TRUE || state == ALARM_MAINTENANCE }

  predicate ShouldShutdownNode(v: View)
  {
    v.maintenance.Some? && ShutdownAllowed(v.maintenance.value) && v.rebootOk == Some(TRUE)
  }

  predicate ShouldStart(v: View) { Annotated(v) && v.maintenance == Some(NO_MAINTENANCE) }

  /** Pods are deleted without grace while the host raises an alarm. */
  function GracePeriod(v: View): Option<int>
  {
    if v.maintenance == Some(ALARM_MAINTENANCE) then Some(0) else None
  }

  datatype Power = On | Off | Suspended

  /** What happened to a node, in order. */
  datatype Event =
    | PassStarted
    | AnnotationEnsured
    | CordonEnsured(copy: View)
    | DrainAttempt(evictions: seq<Drain.Request>, forced: seq<Drain.Request>)
    | FoundDrained(pods: seq<Drain.Pod>)
    | PowerOffAttempt(api: View, copy: View)
    | SeenOn(power: Power)
    | UncordonEnsured(copy: View)
    | AnnotationRemoved

  /** `cordoned` and `stopped` say that the controller did it and nobody undid it since; `asked` that it
      asked the guest to shut down and the machine has not gone off since; `queued` that it left a
      power-off task behind that has not run yet. */
  datatype Node = Node(copy: View, api: View, power: Power, cordoned: bool, stopped: bool, asked: bool, queued: bool, log: seq<Event>)

  function Logged(s: Node, e: Event): Node { s.(log := s.log + [e]) }

  // ---- the environment ----

  datatype Late = GuestGoesOff | TaskRuns

  datatype Edit = Edit(
    maintenance: Option<Option<string>>, rebootOk: Option<Option<string>>, unschedulable: Option<bool>, power: Option<Power>, late: Option<Late>)

  function Or<T>(change: Option<T>, value: T): T { if change.Some? then change.value else value }

  /** Others edit the node or the machine; an outstanding shutdown may complete late, and a queued start
      is an edit of the power like any other. */
  function Disturb(s: Node, e: Edit): Node
  {
    var api := s.api.(maintenance := Or(e.maintenance, s.api.maintenance), rebootOk := Or(e.rebootOk, s.api.rebootOk),
                      unschedulable := Or(e.unschedulable, s.api.unschedulable));
    var power := Or(e.power, s.power);
    var off := power != Off && ((e.late == Some(GuestGoesOff) && s.asked) || (e.late == Some(TaskRuns) && s.queued));
    s.(api := api, cordoned := s.cordoned && api.unschedulable, power := if off then Off else power,
       stopped := off || (s.stopped && power == Off), asked := s.asked && power != Off && !off,
       queued := s.queued && e.late != Some(TaskRuns))
  }

  // ---- patches ----

  datatype Change = SetMaintenance(value: string) | SetVersion(value: string) | SetInitiated | RemoveInitiated | SetUnschedulable(flag: bool)

  datatype PatchAnswer = Applied | Rejected | Lost

  datatype PatchCall = PatchCall(edit: Edit, answer: PatchAnswer)

  datatype Did = Did(ok: bool, node: Node)

  function Changed(v: View, c: Change): View
  {
    match c
    case SetMaintenance(x) => v.(maintenance := Some(x))
    case SetVersion(x) => v.(version := Some(x))
    case SetInitiated => v.(initiated := Some(TRUE))
    case RemoveInitiated => v.(initiated := None)
    case SetUnschedulable(b) => v.(unschedulable := b)
  }

  /** The copy changes before the patch is sent, and an accepted patch brings back the whole object. */
  function Patch(s: Node, c: Change, answer: PatchAnswer): Did
  {
    if answer == Rejected then Did(false, s.(copy := Changed(s.copy, c)))
    else
      var api := Changed(s.api, c);
      var s' := s.(api := api, copy := if answer == Applied then api else Changed(s.copy, c),
                   cordoned := if c.SetUnschedulable? then c.flag else s.cordoned,
                   log := if c.RemoveInitiated? then s.log + [AnnotationRemoved] else s.log);
      Did(answer == Applied, s')
  }

  /** A patch that is skipped if the copy already has the value. */
  function Ensure(s: Node, c: Change, call: PatchCall): Did
  {
    if Changed(s.copy, c) == s.copy then Did(true, s) else Patch(Disturb(s, call.edit), c, call.answer)
  }

  // ---- power ----

  /** What becomes of a task whose creation or result was reported as an error. */
  datatype Fate = Never | Done | Queued

  datatype Task = NotCreated(fate: Fate) | NotAwaited(fate: Fate) | Finished(success: bool)

  predicate TookEffect(t: Task) { t == Finished(true) || (!t.Finished? && t.fate == Done) }

  predicate Outstanding(t: Task) { !t.Finished? && t.fate == Queued }

  datatype OnCall = OnCall(edit: Edit, connected: bool, retrieved: bool, task: Task)

  /** Switching on does not stop what is outstanding: a resumed guest goes on shutting down. */
  function PoweredOn(s: Node): Node { s.(power := On, stopped := false) }

  function PoweredOff(s: Node): Node { s.(power := Off, stopped := true, asked := false) }

  /** Succeeds without doing anything if the machine is seen on. */
  function VmOn(s: Node, c: OnCall): Did
  {
    var s := Disturb(s, c.edit);
    if !c.connected || !c.retrieved then Did(false, s)
    else if s.power == On then Did(true, Logged(s, SeenOn(On)))
    else if c.task == Finished(true) then Did(true, Logged(PoweredOn(s), SeenOn(PoweredOn(s).power)))
    else Did(false, if TookEffect(c.task) then PoweredOn(s) else s)
  }

  datatype Guest = Asked | ToolsUnavailable | GuestFailed(asked: bool)

  datatype Poll = SawOff | TimedOut | PollFailed

  datatype OffCall = OffCall(edit: Edit, connected: bool, retrieved: bool, guest: Guest, poll: Poll, task: Task)

  /** The guest is asked first; without guest tools, or if it takes too long, the machine is unplugged. */
  function ShutdownVm(s: Node, c: OffCall): Did
  {
    var s := Logged(s, PowerOffAttempt(s.api, s.copy));
    var asked := s.(asked := true);
    match c.guest
    case GuestFailed(really) => Did(false, if really then asked else s)
    case Asked =>
      if c.poll == SawOff then Did(true, PoweredOff(asked))
      else if c.poll == PollFailed then Did(false, asked)
      else Unplug(asked, c.task)
    case ToolsUnavailable => Unplug(s, c.task)
  }

  function Unplug(s: Node, t: Task): Did
  {
    Did(t == Finished(true), if TookEffect(t) then PoweredOff(s) else if Outstanding(t) then s.(queued := true) else s)
  }

  function VmOff(s: Node, c: OffCall): Did
  {
    var s := Disturb(s, c.edit);
    if !c.connected || !c.retrieved then Did(false, s)
    else if s.power == Off then Did(true, s)
    else ShutdownVm(s, c)
  }

  // ---- one node in one pass ----

  datatype DrainCall = DrainCall(edit: Edit, api: Drain.Api, force: bool, now: int)

  predicate Empty(api: Drain.Api) { api.listed.Ok? && Drain.Candidates(api.listed.value) == [] }

  /** The requests of a drain: one per active pod, and a forced one per overdue terminating pod. */
  function Evictions(s: Node, c: DrainCall): seq<Drain.Request>
  {
    if c.api.listed.Ok? && c.api.version.Ok? then Drain.ActiveRequests(c.api, GracePeriod(s.copy)) else []
  }

  function ForcedDeletions(c: DrainCall): seq<Drain.Request>
  {
    if c.api.listed.Ok? && c.force
    then Drain.Requests(Drain.Delete, Drain.OverdueOf(Drain.TerminatingOf(Drain.Candidates(c.api.listed.value)), c.now), Some(0)) else []
  }

  function Drained(s: Node, c: DrainCall): Node
  {
    Logged(Disturb(s, c.edit), DrainAttempt(Evictions(s, c), ForcedDeletions(c)))
  }

  /** Everything the outside answers to the calls for one node during one pass. */
  datatype Calls = Calls(
    listing: Edit, version: PatchCall, maintenance: PatchCall,
    on: OnCall, uncordon: PatchCall, unannotate: PatchCall,
    annotate: PatchCall, cordon: PatchCall, drain: DrainCall, off: OffCall)

  function Listed(s: Node, c: Calls): Node
  {
    var s := Disturb(s, c.listing);
    Logged(s.(copy := s.api), PassStarted)
  }

  function StartOne(s: Node, c: Calls): Node
  {
    if !ShouldStart(s.copy) then s
    else
      var a := VmOn(s, c.on);
      if !a.ok then a.node
      else
        var b := Ensure(a.node, SetUnschedulable(false), c.uncordon);
        if !b.ok then b.node
        else Ensure(Logged(b.node, UncordonEnsured(b.node.copy)), RemoveInitiated, c.unannotate).node
  }

  function ShutdownOne(s: Node, c: Calls): Node
  {
    if !ShouldShutdownNode(s.copy) then s
    else
      var a := Ensure(s, SetInitiated, c.annotate);
      if !a.ok then a.node
      else
        var b := Ensure(Logged(a.node, AnnotationEnsured), SetUnschedulable(true), c.cordon);
        if !b.ok then b.node
        else
          var d := Drained(Logged(b.node, CordonEnsured(b.node.copy)), c.drain);
          if !Empty(c.drain.api) then d
          else VmOff(Logged(d, FoundDrained(c.drain.api.listed.value)), c.off).node
  }

  /** Which of the two label updates reach the node, and whether the host's nodes are started and
      shut down at all, depends on the host and on the other nodes. */
  datatype Reached = Reached(version: Option<string>, maintenance: Option<string>, powered: bool)

  function Label(s: Node, c: Calls, r: Reached): Node
  {
    var s := if r.version.Some? then Ensure(s, SetVersion(r.version.value), c.version).node else s;
    if r.maintenance.Some? then Ensure(s, SetMaintenance(r.maintenance.value), c.maintenance).node else s
  }

  function PassOne(s: Node, c: Calls, r: Reached): Node
  {
    var s := Label(Listed(s, c), c, r);
    if r.powered then ShutdownOne(StartOne(s, c), c) else s
  }

  // ---- the pass over a host ----

  /** What the host answers; `alarms` holds the triggered alarms. */
  datatype Host = Host(version: Result<string>, alarms: Result<seq<string>>, status: Result<string>)

  method StartNodes(nodes: array<Node>, calls: seq<Calls>)
    requires |calls| == nodes.Length
    modifies nodes
    ensures forall i :: 0 <= i < nodes.Length ==> nodes[i] == StartOne(old(nodes[i]), calls[i])
  {
    hide Ensure, VmOn, ShouldStart;
    for i := 0 to nodes.Length
      invariant forall j :: 0 <= j < i ==> nodes[j] == StartOne(old(nodes[j]), calls[j])
      invariant forall j :: i <= j < nodes.Length ==> nodes[j] == old(nodes[j])
    {
      if !ShouldStart(nodes[i].copy) {
        continue;
      }
      var did := VmOn(nodes[i], calls[i].on);
      nodes[i] := did.node;
      if !did.ok {
        continue;
      }
      did := Ensure(nodes[i], SetUnschedulable(false), calls[i].uncordon);
      nodes[i] := did.node;
      if !did.ok {
        continue;
      }
      did := Ensure(Logged(nodes[i], UncordonEnsured(nodes[i].copy)), RemoveInitiated, calls[i].unannotate);
      nodes[i] := did.node;
    }
  }

  method ShutdownNodes(nodes: array<Node>, calls: seq<Calls>)
    requires |calls| == nodes.Length
    modifies nodes
    ensures forall i :: 0 <= i < nodes.Length ==> nodes[i] == ShutdownOne(old(nodes[i]), calls[i])
  {
    hide Ensure, VmOff, Disturb, ShouldShutdownNode;
    for i := 0 to nodes.Length
      invariant forall j :: 0 <= j < i ==> nodes[j] == ShutdownOne(old(nodes[j]), calls[j])
      invariant forall j :: i <= j < nodes.Length ==> nodes[j] == old(nodes[j])
    {
      if !ShouldShutdownNode(nodes[i].copy) {
        continue;
      }
      var did := Ensure(nodes[i], SetInitiated, calls[i].annotate);
      nodes[i] := did.node;
      if !did.ok {
        continue;
      }
      did := Ensure(Logged(nodes[i], AnnotationEnsured), SetUnschedulable(true), calls[i].cordon);
      nodes[i] := did.node;
      if !did.ok {
        continue;
      }
      nodes[i] := Logged(nodes[i], CordonEnsured(nodes[i].copy));
      var drained, attempted, forced := Drain.EnsureDrain(calls[i].drain.api, calls[i].drain.force, GracePeriod(nodes[i].copy), calls[i].drain.now);
      nodes[i] := Logged(Disturb(nodes[i], calls[i].drain.edit), DrainAttempt(attempted, forced));
      if drained.Err? || !drained.value {
        continue;
      }
      did := VmOff(Logged(nodes[i], FoundDrained(calls[i].drain.api.listed.value)), calls[i].off);
      nodes[i] := did.node;
    }
  }

  function CallFor(c: Calls, change: Change): PatchCall { if change.SetVersion? then c.version else c.maintenance }

  /** One label on all nodes of a host, up to the first failing patch. */
  method EnsureLabel(nodes: array<Node>, calls: seq<Calls>, change: Change) returns (ok: bool, stop: nat)
    requires |calls| == nodes.Length
    modifies nodes
    ensures ok <==> stop == nodes.Length
    ensures stop <= nodes.Length
    ensures forall i :: 0 <= i < stop ==> Ensure(old(nodes[i]), change, CallFor(calls[i], change)) == Did(true, nodes[i])
    ensures stop < nodes.Length ==> Ensure(old(nodes[stop]), change, CallFor(calls[stop], change)) == Did(false, nodes[stop])
    ensures forall i :: stop < i < nodes.Length ==> nodes[i] == old(nodes[i])
  {
    for i := 0 to nodes.Length
      invariant forall j :: 0 <= j < i ==> Ensure(old(nodes[j]), change, CallFor(calls[j], change)) == Did(true, nodes[j])
      invariant forall j :: i <= j < nodes.Length ==> nodes[j] == old(nodes[j])
    {
      var did := Ensure(nodes[i], change, CallFor(calls[i], change));
      nodes[i] := did.node;
      if !did.ok {
        return false, i;
      }
    }
    return true, nodes.Length;
  }

  /** The alarms come first; nothing is labelled if the host cannot be asked. */
  function MaintenanceOf(h: Host, configured: set<string>): Option<string>
  {
    if h.alarms.Err? then None
    else if exists a :: a in h.alarms.value && a in configured then Some(ALARM_MAINTENANCE)
    else if h.status.Err? then None
    else Some(h.status.value)
  }

  method CheckMaintenance(nodes: array<Node>, calls: seq<Calls>, h: Host, configured: set<string>) returns (ok: bool, stop: nat)
    requires |calls| == nodes.Length
    modifies nodes
    ensures ok <==> MaintenanceOf(h, configured).Some? && stop == nodes.Length
    ensures stop <= nodes.Length
    ensures MaintenanceOf(h, configured).None? ==> forall i :: 0 <= i < nodes.Length ==> nodes[i] == old(nodes[i])
    ensures MaintenanceOf(h, configured).Some? ==>
      var change := SetMaintenance(MaintenanceOf(h, configured).value);
      && (forall i :: 0 <= i < stop ==> Ensure(old(nodes[i]), change, calls[i].maintenance) == Did(true, nodes[i]))
      && (stop < nodes.Length ==> Ensure(old(nodes[stop]), change, calls[stop].maintenance) == Did(false, nodes[stop]))
      && (forall i :: stop < i < nodes.Length ==> nodes[i] == old(nodes[i]))
  {
    if h.alarms.Err? {
      return false, 0;
    }
    for k := 0 to |h.alarms.value|
      invariant forall j :: 0 <= j < k ==> h.alarms.value[j] !in configured
    {
      if h.alarms.value[k] in configured {
        ok, stop := EnsureLabel(nodes, calls, SetMaintenance(ALARM_MAINTENANCE));
        return;
      }
    }
    if h.status.Err? {
      return false, 0;
    }
    ok, stop := EnsureLabel(nodes, calls, SetMaintenance(h.status.value));
  }

  // ---- how far a pass gets ----

  /** The change reached every node in front of node i. */
  predicate SentTo(nodes: seq<Node>, calls: seq<Calls>, change: Change, i: nat)
    requires i <= |nodes| == |calls|
  {
    forall j :: 0 <= j < i ==> Ensure(nodes[j], change, CallFor(calls[j], change)).ok
  }

  function VersionFor(nodes: seq<Node>, calls: seq<Calls>, h: Host, i: nat): Option<string>
    requires i < |nodes| == |calls|
  {
    if h.version.Ok? && SentTo(nodes, calls, SetVersion(h.version.value), i) then Some(h.version.value) else None
  }

  function Versioned(nodes: seq<Node>, calls: seq<Calls>, h: Host): (r: seq<Node>)
    requires |nodes| == |calls|
    ensures |r| == |nodes|
  {
    seq(|nodes|, i requires 0 <= i < |nodes| =>
      if VersionFor(nodes, calls, h, i).Some? then Ensure(nodes[i], SetVersion(h.version.value), calls[i].version).node else nodes[i])
  }

  /** The host's state is known and reached all its nodes. */
  predicate AllLabelled(nodes: seq<Node>, calls: seq<Calls>, h: Host, configured: set<string>)
    requires |nodes| == |calls|
  {
    var m := MaintenanceOf(h, configured);
    m.Some? && SentTo(Versioned(nodes, calls, h), calls, SetMaintenance(m.value), |nodes|)
  }

  /** How far the pass gets with listed node i: each label is sent up to the first failing patch, and the
      nodes are started and shut down exactly if the maintenance label reached all of them. */
  function ReachOf(nodes: seq<Node>, calls: seq<Calls>, h: Host, configured: set<string>, i: nat): Reached
    requires i < |nodes| == |calls|
  {
    var m := MaintenanceOf(h, configured);
    Reached(VersionFor(nodes, calls, h, i),
            if m.Some? && SentTo(Versioned(nodes, calls, h), calls, SetMaintenance(m.value), i) then m else None,
            AllLabelled(nodes, calls, h, configured))
  }

  /** When the host answers and no patch is rejected, the pass gets all the way on every node. */
  lemma AnsweringHost(nodes: seq<Node>, calls: seq<Calls>, h: Host, configured: set<string>, i: nat)
    requires i < |nodes| == |calls| && h.version.Ok? && MaintenanceOf(h, configured).Some?
    requires forall j :: 0 <= j < |calls| ==> calls[j].version.answer == Applied && calls[j].maintenance.answer == Applied
    ensures ReachOf(nodes, calls, h, configured, i) == Reached(Some(h.version.value), MaintenanceOf(h, configured), true)
  {
    forall s: Node, change: Change, j | 0 <= j < |calls| && (change.SetVersion? || change.SetMaintenance?)
      ensures Ensure(s, change, CallFor(calls[j], change)).ok
    {}
    hide Ensure;
  }

  /** Where the host does not answer, or a patch in front of or on some node is rejected, nothing is powered. */
  lemma SilentHost(nodes: seq<Node>, calls: seq<Calls>, h: Host, configured: set<string>, i: nat, j: nat)
    requires i < |nodes| == |calls| && j < |nodes|
    requires MaintenanceOf(h, configured).None? ||
             !Ensure(Versioned(nodes, calls, h)[j], SetMaintenance(MaintenanceOf(h, configured).value), calls[j].maintenance).ok
    ensures !ReachOf(nodes, calls, h, configured, i).powered
    ensures j < i ==> ReachOf(nodes, calls, h, configured, i).maintenance.None?
  {
    hide Ensure, Versioned;
    if m :| m == MaintenanceOf(h, configured) && m.Some? {
      assert CallFor(calls[j], SetMaintenance(m.value)) == calls[j].maintenance;
    }
  }

  /** Both labels; whether the second one reached every node decides whether the pass goes on. */
  method UpdateLabels(nodes: array<Node>, calls: seq<Calls>, h: Host, configured: set<string>) returns (ok: bool)
    requires |calls| == nodes.Length
    modifies nodes
    ensures ok <==> AllLabelled(old(nodes[..]), calls, h, configured)
    ensures forall i :: 0 <= i < nodes.Length ==> nodes[i] == Label(old(nodes[i]), calls[i], ReachOf(old(nodes[..]), calls, h, configured, i))
  {
    hide Ensure;
    ghost var before := nodes[..];
    if h.version.Ok? {
      var stop;
      ok, stop := EnsureLabel(nodes, calls, SetVersion(h.version.value));
      assert forall i :: 0 <= i < nodes.Length ==> (i <= stop <==> VersionFor(before, calls, h, i).Some?);
    }
    assert nodes[..] == Versioned(before, calls, h);
    ghost var versioned := nodes[..];
    var stop;
    ok, stop := CheckMaintenance(nodes, calls, h, configured);
    ghost var m := MaintenanceOf(h, configured);
    if m.Some? {
      assert forall i :: 0 <= i <= nodes.Length ==> (i <= stop <==> SentTo(versioned, calls, SetMaintenance(m.value), i));
    }
  }

  function ListedAll(nodes: seq<Node>, calls: seq<Calls>): (r: seq<Node>)
    requires |nodes| == |calls|
    ensures |r| == |nodes| && forall i :: 0 <= i < |nodes| ==> r[i] == Listed(nodes[i], calls[i])
  {
    seq(|nodes|, i requires 0 <= i < |nodes| => Listed(nodes[i], calls[i]))
  }

  /** A pass takes every node of the host through `PassOne`, as far as the answers let it get. */
  method ReconcileHost(nodes: array<Node>, calls: seq<Calls>, h: Host, configured: set<string>)
    requires |calls| == nodes.Length
    modifies nodes
    ensures forall i :: 0 <= i < nodes.Length ==>
      nodes[i] == PassOne(old(nodes[i]), calls[i], ReachOf(ListedAll(old(nodes[..]), calls), calls, h, configured, i))
  {
    hide Listed, ReachOf, Label, StartOne, ShutdownOne;
    ghost var before := nodes[..];
    for i := 0 to nodes.Length
      invariant forall j :: 0 <= j < i ==> nodes[j] == Listed(before[j], calls[j])
      invariant forall j :: i <= j < nodes.Length ==> nodes[j] == before[j]
    {
      nodes[i] := Listed(nodes[i], calls[i]);
    }
    ghost var listed := nodes[..];
    assert listed == ListedAll(before, calls);
    var labelled := UpdateLabels(nodes, calls, h, configured);
    PoweredAlike(listed, calls, h, configured);
    if !labelled {
      return;
    }
    StartNodes(nodes, calls);
    ShutdownNodes(nodes, calls);
  }

  lemma PoweredAlike(nodes: seq<Node>, calls: seq<Calls>, h: Host, configured: set<string>)
    requires |nodes| == |calls|
    ensures forall i :: 0 <= i < |nodes| ==> (ReachOf(nodes, calls, h, configured, i).powered <==> AllLabelled(nodes, calls, h, configured))
  {}
}
