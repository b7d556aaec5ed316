/** The nodes of a cluster by the ESX host below them, and a pass over all hosts. */
module EsxHosts {

  import opened Errors
  import opened Esx

  /** The two labels that say where a node runs. */
  datatype Place = Place(host: Option<string>, domain: Option<string>)

  datatype HostInfo = HostInfo(name: string, zone: string)

  /** The last character of the failure domain is the availability zone. */
  function ParseHostInfo(p: Place): (r: Result<HostInfo>)
    requires p.domain != Some("")
    ensures r.Ok? <==> p.host.Some? && p.domain.Some?
    ensures r.Ok? ==> r.value.name == p.host.value && |r.value.zone| == 1 && r.value.zone[0] == p.domain.value[|p.domain.value| - 1]
  {
    if p.host.None? || p.domain.None? then Err(Plain(BadData))
    else Ok(HostInfo(p.host.value, p.domain.value[|p.domain.value| - 1..]))
  }

  /** Node i of the listing runs on the host. */
  predicate RunsOn(places: seq<Place>, i: nat, info: HostInfo)
    requires i < |places| && places[i].domain != Some("")
  {
    ParseHostInfo(places[i]) == Ok(info)
  }

  /** The nodes among the first n that run on the host, in the order of the listing. */
  function Members(places: seq<Place>, n: nat, info: HostInfo): (r: seq<nat>)
    requires n <= |places| && forall i :: 0 <= i < |places| ==> places[i].domain != Some("")
    ensures forall k :: 0 <= k < |r| ==> r[k] < n && RunsOn(places, r[k], info)
    ensures forall k, l :: 0 <= k < l < |r| ==> r[k] < r[l]
    ensures forall i :: 0 <= i < n && RunsOn(places, i, info) ==> i in r
  {
    if n == 0 then []
    else if RunsOn(places, n - 1, info) then Members(places, n - 1, info) + [n - 1]
    else Members(places, n - 1, info)
  }

  ghost predicate Grouped(groups: map<HostInfo, seq<nat>>, places: seq<Place>, n: nat)
    requires n <= |places| && forall i :: 0 <= i < |places| ==> places[i].domain != Some("")
  {
    forall info :: if info in groups then groups[info] == Members(places, n, info) != [] else Members(places, n, info) == []
  }

  /** Fails exactly if a node misses a label; otherwise the groups hold exactly the nodes of each host, in
      order, and no group is empty. */
  method ParseHostList(places: seq<Place>) returns (r: Result<map<HostInfo, seq<nat>>>)
    requires forall i :: 0 <= i < |places| ==> places[i].domain != Some("")
    ensures r.Ok? <==> forall i :: 0 <= i < |places| ==> places[i].host.Some? && places[i].domain.Some?
    ensures r.Ok? ==> Grouped(r.value, places, |places|)
  {
    hide ParseHostInfo;
    var groups: map<HostInfo, seq<nat>> := map[];
    for i := 0 to |places|
      invariant Grouped(groups, places, i)
      invariant forall j :: 0 <= j < i ==> ParseHostInfo(places[j]).Ok?
    {
      var info := ParseHostInfo(places[i]);
      if info.Err? {
        return Err(info.error);
      }
      ghost var before := groups;
      if info.value !in groups {
        groups := groups[info.value := []];
      }
      groups := groups[info.value := groups[info.value] + [i]];
      GroupStep(before, groups, places, i, info.value);
    }
    r := Ok(groups);
  }

  lemma GroupStep(before: map<HostInfo, seq<nat>>, after: map<HostInfo, seq<nat>>, places: seq<Place>, n: nat, info: HostInfo)
    requires n < |places| && forall i :: 0 <= i < |places| ==> places[i].domain != Some("")
    requires Grouped(before, places, n) && RunsOn(places, n, info)
    requires after == before[info := (if info in before then before[info] else []) + [n]]
    ensures Grouped(after, places, n + 1)
  {
    forall x ensures RunsOn(places, n, x) <==> x == info {}
    hide ParseHostInfo, RunsOn;
    forall x ensures if x in after then after[x] == Members(places, n + 1, x) != [] else Members(places, n + 1, x) == [] {
      assert if x in before then before[x] == Members(places, n, x) != [] else Members(places, n, x) == [];
    }
  }

  // ---- one host, all hosts ----

  function Pick<T>(xs: seq<T>, group: seq<nat>): (r: seq<T>)
    requires forall k :: 0 <= k < |group| ==> group[k] < |xs|
    ensures |r| == |group| && forall k :: 0 <= k < |group| ==> r[k] == xs[group[k]]
  {
    seq(|group|, k requires 0 <= k < |group| => xs[group[k]])
  }

  /** What the k-th node of a group becomes: how far the pass gets is decided within the group. */
  function Handled(nodes: seq<Node>, calls: seq<Calls>, group: seq<nat>, h: Host, configured: set<string>, k: nat): Node
    requires |calls| == |nodes| && k < |group| && forall l :: 0 <= l < |group| ==> group[l] < |nodes|
  {
    var own := Pick(calls, group);
    PassOne(nodes[group[k]], calls[group[k]], ReachOf(ListedAll(Pick(nodes, group), own), own, h, configured, k))
  }

  /** One host: its nodes are handled on a copy and everybody else's stay as they are. */
  method ReconcileGroup(nodes: array<Node>, group: seq<nat>, calls: seq<Calls>, h: Host, configured: set<string>)
    requires |calls| == nodes.Length && forall k :: 0 <= k < |group| ==> group[k] < nodes.Length
    requires forall k, l :: 0 <= k < l < |group| ==> group[k] < group[l]
    modifies nodes
    ensures forall k :: 0 <= k < |group| ==> nodes[group[k]] == Handled(old(nodes[..]), calls, group, h, configured, k)
    ensures forall i :: 0 <= i < nodes.Length && i !in group ==> nodes[i] == old(nodes[i])
  {
    hide PassOne, ReachOf, ListedAll;
    ghost var before := nodes[..];
    var own := new Node[|group|](k requires 0 <= k < |group| && group[k] < nodes.Length reads nodes => nodes[group[k]]);
    assert own[..] == Pick(before, group);
    ReconcileHost(own, Pick(calls, group), h, configured);
    for k := 0 to |group|
      invariant forall l :: 0 <= l < k ==> nodes[group[l]] == own[l]
      invariant forall i :: 0 <= i < nodes.Length && i !in group[..k] ==> nodes[i] == before[i]
      invariant forall l :: 0 <= l < |group| ==> own[l] == Handled(before, calls, group, h, configured, l)
    {
      nodes[group[k]] := own[k];
      assert group[..k + 1] == group[..k] + [group[k]];
    }
    assert group[..|group|] == group;
  }

  ghost predicate HostHandled(before: seq<Node>, after: seq<Node>, places: seq<Place>, calls: seq<Calls>, hosts: HostInfo -> Host,
                              configured: set<string>, info: HostInfo)
    requires |before| == |after| == |calls| == |places| && forall i :: 0 <= i < |places| ==> places[i].domain != Some("")
  {
    var group := Members(places, |places|, info);
    forall k :: 0 <= k < |group| ==> after[group[k]] == Handled(before, calls, group, hosts(info), configured, k)
  }

  /** A pass over the cluster: if the nodes can be listed and assigned, the nodes of every host go through a
      pass with the answers of that host, in whatever order the hosts come; otherwise nothing happens. */
  method Reconcile(nodes: array<Node>, listed: bool, places: seq<Place>, calls: seq<Calls>, hosts: HostInfo -> Host, configured: set<string>)
    requires |places| == |calls| == nodes.Length && forall i :: 0 <= i < |places| ==> places[i].domain != Some("")
    modifies nodes
    ensures var ok := listed && forall i :: 0 <= i < |places| ==> places[i].host.Some? && places[i].domain.Some?;
      && (!ok ==> nodes[..] == old(nodes[..]))
      && (ok ==> forall info :: HostHandled(old(nodes[..]), nodes[..], places, calls, hosts, configured, info))
  {
    if !listed {
      return;
    }
    var groups := ParseHostList(places);
    if groups.Err? {
      return;
    }
    hide Handled, RunsOn, HostHandled, Untouched, Members;
    ghost var before := nodes[..];
    NothingHandled(before, places, calls, hosts, configured);
    var left := groups.value.Keys;
    while left != {}
      invariant left <= groups.value.Keys
      invariant forall info :: info in left ==> Untouched(before, nodes[..], places, info)
      invariant forall info :: info !in left ==> HostHandled(before, nodes[..], places, calls, hosts, configured, info)
    {
      var info :| info in left;
      ghost var now := nodes[..];
      assert groups.value[info] == Members(places, |places|, info);
      ReconcileGroup(nodes, groups.value[info], calls, hosts(info), configured);
      OthersKept(before, now, nodes[..], places, calls, hosts, configured, info);
      NowHandled(before, now, nodes[..], places, calls, hosts, configured, info);
      left := left - {info};
    }
  }

  lemma NothingHandled(before: seq<Node>, places: seq<Place>, calls: seq<Calls>, hosts: HostInfo -> Host, configured: set<string>)
    requires |before| == |calls| == |places| && forall i :: 0 <= i < |places| ==> places[i].domain != Some("")
    ensures forall info :: Untouched(before, before, places, info)
    ensures forall info :: Members(places, |places|, info) == [] ==> HostHandled(before, before, places, calls, hosts, configured, info)
  {
    hide Members, Handled;
  }

  lemma NowHandled(before: seq<Node>, now: seq<Node>, after: seq<Node>, places: seq<Place>, calls: seq<Calls>, hosts: HostInfo -> Host,
                   configured: set<string>, info: HostInfo)
    requires |before| == |now| == |after| == |calls| == |places| && forall i :: 0 <= i < |places| ==> places[i].domain != Some("")
    requires Untouched(before, now, places, info)
    requires var group := Members(places, |places|, info);
      forall k :: 0 <= k < |group| ==> after[group[k]] == Handled(now, calls, group, hosts(info), configured, k)
    ensures HostHandled(before, after, places, calls, hosts, configured, info)
  {
    SameHandled(before, now, calls, Members(places, |places|, info), hosts(info), configured, places, info);
    hide Handled, Members;
  }

  ghost predicate Untouched(before: seq<Node>, after: seq<Node>, places: seq<Place>, info: HostInfo)
    requires |before| == |after| == |places| && forall i :: 0 <= i < |places| ==> places[i].domain != Some("")
  {
    var group := Members(places, |places|, info);
    forall k :: 0 <= k < |group| ==> after[group[k]] == before[group[k]]
  }

  /** The nodes of the other hosts do not belong to this one. */
  lemma OthersKept(before: seq<Node>, now: seq<Node>, after: seq<Node>, places: seq<Place>, calls: seq<Calls>, hosts: HostInfo -> Host,
                   configured: set<string>, info: HostInfo)
    requires |before| == |now| == |after| == |calls| == |places| && forall i :: 0 <= i < |places| ==> places[i].domain != Some("")
    requires forall i :: 0 <= i < |now| && i !in Members(places, |places|, info) ==> after[i] == now[i]
    ensures forall x :: x != info && Untouched(before, now, places, x) ==> Untouched(before, after, places, x)
    ensures forall x :: x != info && HostHandled(before, now, places, calls, hosts, configured, x) ==>
      HostHandled(before, after, places, calls, hosts, configured, x)
  {
    forall x, k | x != info && 0 <= k < |Members(places, |places|, x)|
      ensures after[Members(places, |places|, x)[k]] == now[Members(places, |places|, x)[k]]
    {
      var i := Members(places, |places|, x)[k];
      assert RunsOn(places, i, x) && !RunsOn(places, i, info);
    }
    hide Handled, Members;
  }

  /** Handling a group looks only at the nodes of the group. */
  lemma SameHandled(before: seq<Node>, now: seq<Node>, calls: seq<Calls>, group: seq<nat>, h: Host, configured: set<string>,
                    places: seq<Place>, info: HostInfo)
    requires |before| == |now| == |calls| == |places| && forall i :: 0 <= i < |places| ==> places[i].domain != Some("")
    requires group == Members(places, |places|, info) && Untouched(before, now, places, info)
    ensures forall k :: 0 <= k < |group| ==> Handled(now, calls, group, h, configured, k) == Handled(before, calls, group, h, configured, k)
  {
    hide PassOne, ReachOf, ListedAll;
    assert Pick(now, group) == Pick(before, group);
  }
}
