/** The counting gate: passes while fewer than `max` relevant nodes are labelled in-maintenance. */
module MaxMaintenance {

  import opened Errors
  import opened Sets
  import opened Labels
  import opened Plugins
  import opened States
  import opened Handler

  datatype Gate = Gate(max: int, profile: string, groupBy: seq<string>)

  function Keep(nodes: seq<NodeObject>, f: NodeObject -> bool): seq<NodeObject>
  {
    if nodes == [] then []
    else
      var n := |nodes| - 1;
      Keep(nodes[..n], f) + (if f(nodes[n]) then [nodes[n]] else [])
  }

  lemma KeepStep(nodes: seq<NodeObject>, f: NodeObject -> bool, k: nat)
    requires k < |nodes|
    ensures Keep(nodes[..k + 1], f) == Keep(nodes[..k], f) + (if f(nodes[k]) then [nodes[k]] else [])
  {
    assert nodes[..k + 1][..k] == nodes[..k];
  }

  lemma {:induction false} KeepTwice(nodes: seq<NodeObject>, f: NodeObject -> bool, g: NodeObject -> bool, h: NodeObject -> bool)
    requires forall x :: h(x) <==> f(x) && g(x)
    ensures Keep(Keep(nodes, f), g) == Keep(nodes, h)
  {
    if nodes != [] {
      var n := |nodes| - 1;
      KeepTwice(nodes[..n], f, g, h);
      if f(nodes[n]) {
        var kept := Keep(nodes[..n], f);
        assert (kept + [nodes[n]])[..|kept|] == kept;
      } else {
        assert Keep(nodes, f) == Keep(nodes[..n], f);
      }
    }
  }

  predicate HasProfile(gate: Gate, labels: map<string, string>)
  {
    gate.profile == "" || (PROFILE_KEY in labels && ContainsProfile(labels[PROFILE_KEY], gate.profile))
  }

  /** A group label restricts the count only if the checked node has a value for it. */
  predicate SameGroup(self: map<string, string>, g: string, labels: map<string, string>)
  {
    g in self && g != "" && self[g] != "" ==> g in labels && labels[g] == self[g]
  }

  predicate SameGroups(gate: Gate, self: map<string, string>, labels: map<string, string>, k: nat)
    requires k <= |gate.groupBy|
  {
    forall i :: 0 <= i < k ==> SameGroup(self, gate.groupBy[i], labels)
  }

  /** Whether a node counts for the check of a node with labels `self`. */
  predicate Counts(gate: Gate, self: map<string, string>, labels: map<string, string>)
  {
    HasProfile(gate, labels) && SameGroups(gate, self, labels, |gate.groupBy|)
  }

  function ByProfile(gate: Gate): NodeObject -> bool
  {
    (n: NodeObject) => HasProfile(gate, n.labels)
  }

  function ByGroup(g: string, value: string): NodeObject -> bool
  {
    (n: NodeObject) => SameGroup(map[g := value], g, n.labels)
  }

  function ByGroups(gate: Gate, self: map<string, string>, k: nat): NodeObject -> bool
    requires k <= |gate.groupBy|
  {
    (n: NodeObject) => HasProfile(gate, n.labels) && SameGroups(gate, self, n.labels, k)
  }

  function Counting(gate: Gate, self: map<string, string>): NodeObject -> bool
  {
    (n: NodeObject) => Counts(gate, self, n.labels)
  }

  method FilterProfileName(gate: Gate, nodes: seq<NodeObject>) returns (matching: seq<NodeObject>)
    ensures matching == Keep(nodes, ByProfile(gate))
  {
    matching := [];
    for k := 0 to |nodes|
      invariant matching == Keep(nodes[..k], ByProfile(gate))
    {
      KeepStep(nodes, ByProfile(gate), k);
      var labels := nodes[k].labels;
      if gate.profile == "" || (PROFILE_KEY in labels && ContainsProfile(labels[PROFILE_KEY], gate.profile)) {
        matching := matching + [nodes[k]];
      }
    }
    assert nodes[..|nodes|] == nodes;
  }

  method FilterGroupLabel(nodes: seq<NodeObject>, g: string, value: string) returns (matching: seq<NodeObject>)
    ensures matching == Keep(nodes, ByGroup(g, value))
  {
    matching := [];
    for k := 0 to |nodes|
      invariant matching == Keep(nodes[..k], ByGroup(g, value))
    {
      KeepStep(nodes, ByGroup(g, value), k);
      var labels := nodes[k].labels;
      if g == "" || value == "" || (g in labels && labels[g] == value) {
        matching := matching + [nodes[k]];
      }
    }
    assert nodes[..|nodes|] == nodes;
  }

  /** The listed nodes that pass the profile and group filters. */
  method FilterNodes(gate: Gate, self: map<string, string>, listed: seq<NodeObject>) returns (nodes: seq<NodeObject>)
    ensures nodes == Keep(listed, Counting(gate, self))
  {
    nodes := FilterProfileName(gate, listed);
    KeepSame(listed, ByProfile(gate), ByGroups(gate, self, 0));
    for k := 0 to |gate.groupBy|
      invariant nodes == Keep(listed, ByGroups(gate, self, k))
    {
      var g := gate.groupBy[k];
      if g in self {
        nodes := FilterGroupLabel(nodes, g, self[g]);
        KeepTwice(listed, ByGroups(gate, self, k), ByGroup(g, self[g]), ByGroups(gate, self, k + 1));
      } else {
        KeepSame(listed, ByGroups(gate, self, k), ByGroups(gate, self, k + 1));
      }
    }
    KeepSame(listed, ByGroups(gate, self, |gate.groupBy|), Counting(gate, self));
  }

  // ---- nodes with a recent transition ----

  /** The profiles whose transitions count: the configured one, or all of them. */
  predicate Considered(gate: Gate, x: string) { gate.profile == "" || x == gate.profile }

  /** Some considered profile changed its state less than `skip` ago; without any transition the zero
      time counts. */
  predicate RecentData(gate: Gate, skip: int, now: int, d: Data)
  {
    now < skip || exists x :: x in d.profiles && Considered(gate, x) && now - d.profiles[x].transition < skip
  }

  predicate Recent(gate: Gate, skip: int, now: int, node: NodeObject)
  {
    skip == 0 || RecentData(gate, skip, now, DataOf(node))
  }

  function Recently(gate: Gate, skip: int, now: int): NodeObject -> bool
  {
    (n: NodeObject) => Recent(gate, skip, now, n)
  }

  /** Nodes that count and changed recently. */
  function CountingRecent(gate: Gate, self: map<string, string>, skip: int, now: int): NodeObject -> bool
  {
    (n: NodeObject) => Counts(gate, self, n.labels) && Recent(gate, skip, now, n)
  }

  /** The latest considered transition, or the zero time. */
  method MostRecent(gate: Gate, d: Data) returns (latest: nat)
    ensures latest == 0 || exists x :: x in d.profiles && Considered(gate, x) && d.profiles[x].transition == latest
    ensures forall x :: x in d.profiles && Considered(gate, x) ==> d.profiles[x].transition <= latest
  {
    var left := set x | x in d.profiles && Considered(gate, x);
    latest := 0;
    while left != {}
      invariant left <= d.profiles.Keys && forall x :: x in left ==> Considered(gate, x)
      invariant latest == 0 || exists x :: x in d.profiles && Considered(gate, x) && d.profiles[x].transition == latest
      invariant forall x :: x in d.profiles && Considered(gate, x) && x !in left ==> d.profiles[x].transition <= latest
    {
      var x :| x in left;
      if d.profiles[x].transition > latest {
        latest := d.profiles[x].transition;
      }
      left := left - {x};
    }
  }

  /** The source reads through the entry of the configured profile. */
  ghost predicate HasEntry(gate: Gate, node: NodeObject)
  {
    gate.profile != "" && !node.stored.Garbled? ==> gate.profile in DataOf(node).profiles
  }

  method FilterRecentTransition(gate: Gate, skip: int, now: int, nodes: seq<NodeObject>) returns (r: Result<seq<NodeObject>>)
    requires skip != 0 && forall n :: n in nodes ==> HasEntry(gate, n)
    ensures r.Err? <==> exists n :: n in nodes && n.stored.Garbled?
    ensures r.Ok? ==> r.value == Keep(nodes, Recently(gate, skip, now))
  {
    var matching := [];
    for k := 0 to |nodes|
      invariant forall i :: 0 <= i < k ==> !nodes[i].stored.Garbled?
      invariant matching == Keep(nodes[..k], Recently(gate, skip, now))
    {
      var data := ParseData(nodes[k].stored);
      if data.Err? {
        assert nodes[k] in nodes;
        return Err(data.error);
      }
      assert nodes[k] in nodes;
      KeepStep(nodes, Recently(gate, skip, now), k);
      var latest := MostRecent(gate, data.value);
      if now - latest < skip {
        matching := matching + [nodes[k]];
      }
    }
    assert nodes[..|nodes|] == nodes;
    r := Ok(matching);
  }

  /** The check on the listed in-maintenance nodes. */
  method CheckInternal(gate: Gate, skip: int, now: int, self: map<string, string>, listed: seq<NodeObject>) returns (o: CheckOutcome)
    requires skip != 0 ==> forall n :: n in listed && Counts(gate, self, n.labels) ==> HasEntry(gate, n)
    ensures o == Errored <==> skip != 0 && exists n :: n in listed && Counts(gate, self, n.labels) && n.stored.Garbled?
    ensures o != Errored ==> (o == Passed <==> |Keep(listed, CountingRecent(gate, self, skip, now))| < gate.max)
  {
    var nodes := FilterNodes(gate, self, listed);
    KeepMembers(listed, Counting(gate, self));
    if skip != 0 {
      var filtered := FilterRecentTransition(gate, skip, now, nodes);
      if filtered.Err? {
        return Errored;
      }
      nodes := filtered.value;
      KeepTwice(listed, Counting(gate, self), Recently(gate, skip, now), CountingRecent(gate, self, skip, now));
    } else {
      KeepSame(listed, Counting(gate, self), CountingRecent(gate, self, skip, now));
    }
    if |nodes| >= gate.max {
      return Failed;
    }
    o := Passed;
  }

  /** The whole check; a failing listing is an error. */
  method Check(gate: Gate, skip: int, now: int, self: map<string, string>, listing: Result<seq<NodeObject>>) returns (o: CheckOutcome)
    requires skip != 0 && listing.Ok? ==>
      forall n :: n in listing.value && Counts(gate, self, n.labels) ==> HasEntry(gate, n)
    ensures listing.Err? ==> o == Errored
    ensures listing.Ok? && skip == 0 ==> (o == Passed <==> |Keep(listing.value, Counting(gate, self))| < gate.max) && o != Errored
    ensures listing.Ok? && o != Errored ==> (o == Passed <==> |Keep(listing.value, CountingRecent(gate, self, skip, now))| < gate.max)
  {
    if listing.Err? {
      return Errored;
    }
    o := CheckInternal(gate, skip, now, self, listing.value);
    if skip == 0 {
      KeepSame(listing.value, Counting(gate, self), CountingRecent(gate, self, skip, now));
    }
  }

  lemma {:induction false} KeepMembers(nodes: seq<NodeObject>, f: NodeObject -> bool)
    ensures forall x :: x in Keep(nodes, f) <==> x in nodes && f(x)
  {
    if nodes != [] {
      var n := |nodes| - 1;
      KeepMembers(nodes[..n], f);
      assert nodes == nodes[..n] + [nodes[n]];
    }
  }

  lemma {:induction false} KeepSame(nodes: seq<NodeObject>, f: NodeObject -> bool, h: NodeObject -> bool)
    requires forall x :: f(x) <==> h(x)
    ensures Keep(nodes, f) == Keep(nodes, h)
  {
    if nodes != [] {
      KeepSame(nodes[..|nodes| - 1], f, h);
    }
  }

  // ---- counting a listing is counting the cluster ----

  type Cluster = map<string, NodeObject>

  predicate Labelled(node: NodeObject)
  {
    STATE_KEY in node.labels && node.labels[STATE_KEY] == IN_MAINTENANCE
  }

  /** The listing by the state label: every maintained node once, in any order. */
  ghost predicate Lists(c: Cluster, names: seq<string>, listed: seq<NodeObject>)
  {
    && |names| == |listed|
    && (forall i, j :: 0 <= i < j < |names| ==> names[i] != names[j])
    && (forall i :: 0 <= i < |names| ==> names[i] in c && listed[i] == c[names[i]] && Labelled(listed[i]))
    && (forall n :: n in c && Labelled(c[n]) ==> n in names)
  }

  function CountedSet(gate: Gate, self: map<string, string>, c: Cluster): set<string>
  {
    set n | n in c && Labelled(c[n]) && Counts(gate, self, c[n].labels)
  }

  predicate GatePasses(gate: Gate, self: map<string, string>, c: Cluster)
  {
    |CountedSet(gate, self, c)| < gate.max
  }

  lemma {:induction false} KeepCounts(names: seq<string>, nodes: seq<NodeObject>, f: NodeObject -> bool)
    requires |names| == |nodes| && forall i, j :: 0 <= i < j < |names| ==> names[i] != names[j]
    ensures |Keep(nodes, f)| == |set i | 0 <= i < |names| && f(nodes[i]) :: names[i]|
  {
    if nodes != [] {
      var n := |nodes| - 1;
      KeepCounts(names[..n], nodes[..n], f);
      var before := set i | 0 <= i < n && f(nodes[..n][i]) :: names[..n][i];
      var after := set i | 0 <= i < |names| && f(nodes[i]) :: names[i];
      if f(nodes[n]) {
        assert after == before + {names[n]};
        assert names[n] !in before;
      } else {
        assert after == before;
      }
    }
  }

  /** Counting a listing is counting the cluster, whatever is counted. */
  lemma ListingSize(c: Cluster, names: seq<string>, listed: seq<NodeObject>, f: NodeObject -> bool)
    requires Lists(c, names, listed)
    ensures |Keep(listed, f)| == |set n | n in c && Labelled(c[n]) && f(c[n])|
  {
    KeepCounts(names, listed, f);
    assert (set i | 0 <= i < |names| && f(listed[i]) :: names[i]) == set n | n in c && Labelled(c[n]) && f(c[n]);
  }

  /** The check passes on a listing exactly when the gate passes on the cluster. */
  lemma ListingCounts(gate: Gate, self: map<string, string>, c: Cluster, names: seq<string>, listed: seq<NodeObject>)
    requires Lists(c, names, listed)
    ensures |Keep(listed, Counting(gate, self))| < gate.max <==> GatePasses(gate, self, c)
  {
    var f := Counting(gate, self);
    ListingSize(c, names, listed, f);
    assert (set n | n in c && Labelled(c[n]) && f(c[n])) == CountedSet(gate, self, c);
  }

  /** With `skipAfter` the check passes exactly when fewer than the limit of the counted nodes changed
      recently; it never refuses what the gate without it lets through. */
  lemma SkippingCounts(gate: Gate, self: map<string, string>, skip: int, now: int, c: Cluster, names: seq<string>, listed: seq<NodeObject>)
    requires Lists(c, names, listed)
    ensures |Keep(listed, CountingRecent(gate, self, skip, now))| ==
            |set n | n in CountedSet(gate, self, c) && Recent(gate, skip, now, c[n])|
    ensures GatePasses(gate, self, c) ==> |Keep(listed, CountingRecent(gate, self, skip, now))| < gate.max
  {
    var f := CountingRecent(gate, self, skip, now);
    ListingSize(c, names, listed, f);
    var recent := set n | n in CountedSet(gate, self, c) && Recent(gate, skip, now, c[n]);
    assert (set n | n in c && Labelled(c[n]) && f(c[n])) == recent;
    SubsetSize(recent, CountedSet(gate, self, c));
  }
}
