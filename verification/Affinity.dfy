/** The affinity check: prefer to maintain nodes without pods that want to run on operational nodes. */
module Affinity {

  import opened Errors
  import opened Labels
  import opened Plugins
  import opened States
  import opened Handler

  datatype Requirement = Requirement(key: string, operator: string, values: seq<string>)

  /** The preferred node affinity terms of a pod, each a list of requirements. */
  datatype Pod = Pod(preferred: Option<seq<seq<Requirement>>>)

  datatype Listed = Listed(name: string, node: NodeObject)

  const IN := "In"

  predicate WantsOperational(r: Requirement)
  {
    r.key == STATE_KEY && r.operator == IN && |r.values| == 1 && r.values[0] == OPERATIONAL
  }

  predicate IsAffinityPod(pod: Pod)
  {
    pod.preferred.Some? && exists i, j ::
      0 <= i < |pod.preferred.value| && 0 <= j < |pod.preferred.value[i]| && WantsOperational(pod.preferred.value[i][j])
  }

  method HasOperationalAffinity(pod: Pod) returns (r: bool)
    ensures r <==> IsAffinityPod(pod)
  {
    if pod.preferred.None? {
      return false;
    }
    var terms := pod.preferred.value;
    for i := 0 to |terms|
      invariant forall k, j :: 0 <= k < i && 0 <= j < |terms[k]| ==> !WantsOperational(terms[k][j])
    {
      for j := 0 to |terms[i]|
        invariant forall l :: 0 <= l < j ==> !WantsOperational(terms[i][l])
      {
        if WantsOperational(terms[i][j]) {
          return true;
        }
      }
    }
    return false;
  }

  /** What the API server answers: three listings of the nodes, and the pods of each node. */
  datatype Api = Api(
    forStates: Result<seq<Listed>>, forCount: Result<seq<Listed>>, forOthers: Result<seq<Listed>>, pods: string -> Result<seq<Pod>>)

  predicate HasAffinity(pods: seq<Pod>) { exists p :: p in pods && IsAffinityPod(p) }

  method HasAffinityPod(pods: Result<seq<Pod>>) returns (r: Result<bool>)
    ensures r == if pods.Ok? then Ok(HasAffinity(pods.value)) else Err(pods.error)
  {
    if pods.Err? {
      return Err(pods.error);
    }
    for k := 0 to |pods.value|
      invariant forall i :: 0 <= i < k ==> !IsAffinityPod(pods.value[i])
    {
      var found := HasOperationalAffinity(pods.value[k]);
      if found {
        assert pods.value[k] in pods.value;
        return Ok(true);
      }
    }
    return Ok(false);
  }

  // ---- the states of the other nodes ----

  /** The data of a profile on a node, if it is readable and has the profile. */
  function StateOn(n: Listed, profile: string): Option<ProfileData>
  {
    match ParseData(n.node.stored)
    case Err(_) => None
    case Ok(d) => if profile in d.profiles then Some(d.profiles[profile]) else None
  }

  function NodeStates(nodes: seq<Listed>, profile: string, n: nat): map<string, ProfileData>
    requires n <= |nodes|
  {
    if n == 0 then map[]
    else
      var m, s := NodeStates(nodes, profile, n - 1), StateOn(nodes[n - 1], profile);
      if s.Some? then m[nodes[n - 1].name := s.value] else m
  }

  method BuildNodeStates(nodes: seq<Listed>, profile: string) returns (states: map<string, ProfileData>)
    ensures states == NodeStates(nodes, profile, |nodes|)
  {
    states := map[];
    for k := 0 to |nodes|
      invariant states == NodeStates(nodes, profile, k)
    {
      var data := ParseData(nodes[k].node.stored);
      if data.Err? {
        continue;
      }
      if profile !in data.value.profiles {
        continue;
      }
      states := states[nodes[k].name := data.value.profiles[profile]];
    }
  }

  predicate In(states: map<string, ProfileData>, name: string, l: NodeStateLabel)
  {
    name in states && states[name].current == l
  }

  function Count(nodes: seq<Listed>, states: map<string, ProfileData>, n: nat): nat
    requires n <= |nodes|
  {
    if n == 0 then 0 else Count(nodes, states, n - 1) + (if In(states, nodes[n - 1].name, Operational) then 1 else 0)
  }

  method CountOperational(nodes: seq<Listed>, states: map<string, ProfileData>) returns (count: nat)
    ensures count == Count(nodes, states, |nodes|)
  {
    count := 0;
    for k := 0 to |nodes|
      invariant count == Count(nodes, states, k)
    {
      if nodes[k].name in states && states[nodes[k].name].current == Operational {
        count := count + 1;
      }
    }
  }

  // ---- the check ----

  predicate Considered(n: Listed, self: string, states: map<string, ProfileData>)
  {
    n.name != self && In(states, n.name, Required)
  }

  /** The first considered node whose pods cannot be listed, or which has no affinity pod, decides. */
  function Others(nodes: seq<Listed>, self: string, states: map<string, ProfileData>, pods: string -> Result<seq<Pod>>, from: nat): CheckOutcome
    requires from <= |nodes|
    decreases |nodes| - from
  {
    if from == |nodes| then Passed
    else if !Considered(nodes[from], self, states) then Others(nodes, self, states, pods, from + 1)
    else match pods(nodes[from].name)
         case Err(_) => Errored
         case Ok(ps) => if HasAffinity(ps) then Others(nodes, self, states, pods, from + 1) else Failed
  }

  method CheckOther(nodes: seq<Listed>, self: string, states: map<string, ProfileData>, pods: string -> Result<seq<Pod>>) returns (o: CheckOutcome)
    ensures o == Others(nodes, self, states, pods, 0)
  {
    for k := 0 to |nodes|
      invariant Others(nodes, self, states, pods, 0) == Others(nodes, self, states, pods, k)
    {
      if nodes[k].name == self {
        continue;
      }
      if nodes[k].name !in states || states[nodes[k].name].current != Required {
        continue;
      }
      var affinity := HasAffinityPod(pods(nodes[k].name));
      if affinity.Err? {
        return Errored;
      }
      if !affinity.value {
        return Failed;
      }
    }
    return Passed;
  }

  function Verdict(min: int, api: Api, prm: Params, self: string): CheckOutcome
  {
    if prm.state != Required || api.forStates.Err? then Errored
    else
      var states := NodeStates(api.forStates.value, prm.profile, |api.forStates.value|);
      if min > 0 && api.forCount.Err? then Errored
      else if min > 0 && Count(api.forCount.value, states, |api.forCount.value|) >= min then Passed
      else match api.pods(self)
           case Err(_) => Errored
           case Ok(ps) =>
             if !HasAffinity(ps) then Passed
             else if api.forOthers.Err? then Errored
             else Others(api.forOthers.value, self, states, api.pods, 0)
  }

  method Check(min: int, api: Api, prm: Params, self: string) returns (o: CheckOutcome)
    ensures o == Verdict(min, api, prm, self)
  {
    if prm.state != Required {
      return Errored;
    }
    if api.forStates.Err? {
      return Errored;
    }
    var states := BuildNodeStates(api.forStates.value, prm.profile);
    if min > 0 {
      if api.forCount.Err? {
        return Errored;
      }
      var count := CountOperational(api.forCount.value, states);
      if count >= min {
        return Passed;
      }
    }
    var current := HasAffinityPod(api.pods(self));
    if current.Err? {
      return Errored;
    }
    if !current.value {
      return Passed;
    }
    if api.forOthers.Err? {
      return Errored;
    }
    o := CheckOther(api.forOthers.value, self, states, api.pods);
  }

  // ---- what the check means for a cluster ----

  /** A cluster of nodes with distinct names whose API server answers every call with the same nodes. */
  ghost predicate Consistent(nodes: seq<Listed>, api: Api)
  {
    && (forall i, j :: 0 <= i < j < |nodes| ==> nodes[i].name != nodes[j].name)
    && api.forStates == api.forCount == api.forOthers == Ok(nodes)
    && forall i :: 0 <= i < |nodes| ==> api.pods(nodes[i].name).Ok?
  }

  predicate On(n: Listed, profile: string, l: NodeStateLabel)
  {
    StateOn(n, profile).Some? && StateOn(n, profile).value.current == l
  }

  predicate Carries(n: Listed, api: Api)
    requires api.pods(n.name).Ok?
  {
    HasAffinity(api.pods(n.name).value)
  }

  lemma {:induction false} NodeStatesAt(nodes: seq<Listed>, profile: string, n: nat, i: nat, l: NodeStateLabel)
    requires n <= |nodes| && i < |nodes| && forall a, b :: 0 <= a < b < |nodes| ==> nodes[a].name != nodes[b].name
    ensures In(NodeStates(nodes, profile, n), nodes[i].name, l) <==> i < n && On(nodes[i], profile, l)
  {
    if n > 0 {
      NodeStatesAt(nodes, profile, n - 1, i, l);
    }
  }

  function OperationalNodes(nodes: seq<Listed>, profile: string, n: nat): set<string>
    requires n <= |nodes|
  {
    set i | 0 <= i < n && On(nodes[i], profile, Operational) :: nodes[i].name
  }

  lemma OneMoreNode(nodes: seq<Listed>, profile: string, n: nat)
    requires 0 < n <= |nodes| && forall a, b :: 0 <= a < b < |nodes| ==> nodes[a].name != nodes[b].name
    ensures |OperationalNodes(nodes, profile, n)| ==
            |OperationalNodes(nodes, profile, n - 1)| + (if On(nodes[n - 1], profile, Operational) then 1 else 0)
  {
    var before, last := OperationalNodes(nodes, profile, n - 1), nodes[n - 1];
    assert OperationalNodes(nodes, profile, n) == if On(last, profile, Operational) then before + {last.name} else before;
  }

  lemma {:induction false} CountMeans(nodes: seq<Listed>, profile: string, n: nat)
    requires n <= |nodes| && forall a, b :: 0 <= a < b < |nodes| ==> nodes[a].name != nodes[b].name
    ensures Count(nodes, NodeStates(nodes, profile, |nodes|), n) == |OperationalNodes(nodes, profile, n)|
  {
    if n > 0 {
      CountMeans(nodes, profile, n - 1);
      NodeStatesAt(nodes, profile, |nodes|, n - 1, Operational);
      OneMoreNode(nodes, profile, n);
    }
  }

  lemma {:induction false} OthersMeans(nodes: seq<Listed>, self: string, states: map<string, ProfileData>, pods: string -> Result<seq<Pod>>, from: nat)
    requires from <= |nodes| && forall i :: 0 <= i < |nodes| ==> pods(nodes[i].name).Ok?
    ensures Others(nodes, self, states, pods, from) != Errored
    ensures Others(nodes, self, states, pods, from) == Passed <==>
            forall i :: from <= i < |nodes| && Considered(nodes[i], self, states) ==> HasAffinity(pods(nodes[i].name).value)
    decreases |nodes| - from
  {
    if from < |nodes| {
      OthersMeans(nodes, self, states, pods, from + 1);
    }
  }

  /** In a consistent cluster, node k passes exactly if enough nodes are operational, or it carries no
      affinity pod, or every other node that requires maintenance carries one too. */
  lemma PassesExactly(min: int, nodes: seq<Listed>, api: Api, prm: Params, k: nat)
    requires Consistent(nodes, api) && prm.state == Required && k < |nodes|
    ensures Verdict(min, api, prm, nodes[k].name) != Errored
    ensures Verdict(min, api, prm, nodes[k].name) == Passed <==>
      || (min > 0 && |OperationalNodes(nodes, prm.profile, |nodes|)| >= min)
      || !Carries(nodes[k], api)
      || forall i :: 0 <= i < |nodes| && i != k && On(nodes[i], prm.profile, Required) ==> Carries(nodes[i], api)
  {
    var states := NodeStates(nodes, prm.profile, |nodes|);
    CountMeans(nodes, prm.profile, |nodes|);
    OthersMeans(nodes, nodes[k].name, states, api.pods, 0);
    forall i | 0 <= i < |nodes|
      ensures Considered(nodes[i], nodes[k].name, states) <==> i != k && On(nodes[i], prm.profile, Required)
    {
      NodeStatesAt(nodes, prm.profile, |nodes|, i, Required);
    }
  }

  /** The check never blocks everyone: of the nodes that require maintenance at least one passes. */
  lemma SomeonePasses(min: int, nodes: seq<Listed>, api: Api, prm: Params) returns (k: nat)
    requires Consistent(nodes, api) && prm.state == Required
    requires exists i :: 0 <= i < |nodes| && On(nodes[i], prm.profile, Required)
    ensures k < |nodes| && On(nodes[k], prm.profile, Required) && Verdict(min, api, prm, nodes[k].name) == Passed
  {
    if i :| 0 <= i < |nodes| && On(nodes[i], prm.profile, Required) && !Carries(nodes[i], api) {
      k := i;
    } else {
      k :| 0 <= k < |nodes| && On(nodes[k], prm.profile, Required);
    }
    PassesExactly(min, nodes, api, prm, k);
  }

  // ---- errors ----

  /** The first considered node without affinity pods, or whose pods cannot be listed. */
  ghost predicate Decides(nodes: seq<Listed>, self: string, states: map<string, ProfileData>, pods: string -> Result<seq<Pod>>, i: nat)
  {
    && i < |nodes| && Considered(nodes[i], self, states) && !Friendly(nodes[i], pods)
    && forall j :: 0 <= j < i && Considered(nodes[j], self, states) ==> Friendly(nodes[j], pods)
  }

  ghost predicate Friendly(n: Listed, pods: string -> Result<seq<Pod>>) { pods(n.name).Ok? && HasAffinity(pods(n.name).value) }

  lemma {:induction false} OthersDecide(nodes: seq<Listed>, self: string, states: map<string, ProfileData>, pods: string -> Result<seq<Pod>>, from: nat)
    requires from <= |nodes| && forall j :: 0 <= j < from && Considered(nodes[j], self, states) ==> Friendly(nodes[j], pods)
    ensures forall i: nat :: Decides(nodes, self, states, pods, i) ==>
      Others(nodes, self, states, pods, from) == if pods(nodes[i].name).Err? then Errored else Failed
    ensures (forall i: nat :: !Decides(nodes, self, states, pods, i)) ==> Others(nodes, self, states, pods, from) == Passed
    decreases |nodes| - from
  {
    hide Considered, HasAffinity;
    if from < |nodes| {
      if Considered(nodes[from], self, states) && !Friendly(nodes[from], pods) {
        assert Decides(nodes, self, states, pods, from);
        assert Others(nodes, self, states, pods, from) == if pods(nodes[from].name).Err? then Errored else Failed by {
          assert pods(nodes[from].name).Ok? ==> !HasAffinity(pods(nodes[from].name).value);
        }
        forall i: nat | Decides(nodes, self, states, pods, i) ensures i == from {}
      } else {
        OthersDecide(nodes, self, states, pods, from + 1);
      }
    }
  }

  /** Exactly when the check errors: in another state, or on a failing call it really makes: the node states,
      the count if a minimum is set, and unless the minimum is reached the own pods, and if those want
      operational nodes the other nodes up to the first that decides. */
  lemma ErrorsExactly(min: int, api: Api, prm: Params, self: string)
    ensures Verdict(min, api, prm, self) == Errored <==>
      (prm.state != Required || api.forStates.Err? || (min > 0 && api.forCount.Err?)
       || (var states := NodeStates(api.forStates.value, prm.profile, |api.forStates.value|);
           var enough := min > 0 && Count(api.forCount.value, states, |api.forCount.value|) >= min;
           !enough && (api.pods(self).Err? || (HasAffinity(api.pods(self).value) &&
             (api.forOthers.Err? || exists i: nat :: Decides(api.forOthers.value, self, states, api.pods, i) && api.pods(api.forOthers.value[i].name).Err?)))))
  {
    if prm.state == Required && api.forStates.Ok? && api.forOthers.Ok? {
      var states := NodeStates(api.forStates.value, prm.profile, |api.forStates.value|);
      OthersDecide(api.forOthers.value, self, states, api.pods, 0);
      hide Others, HasAffinity, Considered, Count, NodeStates;
    }
  }
}
