/** Draining a node: which pods have to go, what one pass does to them, and how passes add up. */
module Drain {

  import opened Errors
  import opened Sets

  datatype Pod = Pod(name: string, mirror: bool, ownerKinds: seq<string>, deletion: Option<int>, grace: Option<int>)

  const DAEMON_SET := "DaemonSet"

  predicate Drainable(p: Pod) { !p.mirror && DAEMON_SET !in p.ownerKinds }

  predicate Terminating(p: Pod) { p.deletion.Some? }

  /** A terminating pod whose grace period is over. */
  predicate Overdue(p: Pod, now: int)
  {
    p.deletion.Some? && p.grace.Some? && now > p.deletion.value + p.grace.value
  }

  function Filter(pods: seq<Pod>, f: Pod -> bool): (r: seq<Pod>)
    ensures forall p :: p in r <==> p in pods && f(p)
  {
    if pods == [] then []
    else
      var n := |pods| - 1;
      assert pods == pods[..n] + [pods[n]];
      Filter(pods[..n], f) + (if f(pods[n]) then [pods[n]] else [])
  }

  lemma FilterStep(pods: seq<Pod>, f: Pod -> bool, k: nat)
    requires k < |pods|
    ensures Filter(pods[..k + 1], f) == Filter(pods[..k], f) + (if f(pods[k]) then [pods[k]] else [])
  {
    assert pods[..k + 1][..k] == pods[..k];
  }

  function Candidates(pods: seq<Pod>): seq<Pod> { Filter(pods, (p: Pod) => Drainable(p)) }

  function ActiveOf(pods: seq<Pod>): seq<Pod> { Filter(pods, (p: Pod) => !Terminating(p)) }

  function TerminatingOf(pods: seq<Pod>): seq<Pod> { Filter(pods, (p: Pod) => Terminating(p)) }

  function OverdueOf(pods: seq<Pod>, now: int): seq<Pod> { Filter(pods, (p: Pod) => Overdue(p, now)) }

  /** Active and terminating pods partition the candidates. */
  lemma {:induction false} Partition(pods: seq<Pod>)
    ensures multiset(pods) == multiset(ActiveOf(pods)) + multiset(TerminatingOf(pods))
  {
    if pods != [] {
      var n := |pods| - 1;
      var a, t, p := ActiveOf(pods[..n]), TerminatingOf(pods[..n]), pods[n];
      Partition(pods[..n]);
      assert pods == pods[..n] + [p];
      MultisetStep(pods[..n], a, t, p);
      assert ActiveOf(pods) == if Terminating(p) then a else a + [p];
      assert TerminatingOf(pods) == if Terminating(p) then t + [p] else t;
    }
  }

  lemma MultisetStep(all: seq<Pod>, a: seq<Pod>, t: seq<Pod>, p: Pod)
    requires multiset(all) == multiset(a) + multiset(t)
    ensures multiset(all + [p]) == multiset(a + [p]) + multiset(t)
    ensures multiset(all + [p]) == multiset(a) + multiset(t + [p])
  {}

  method GetPodsForDrain(listed: Result<seq<Pod>>) returns (r: Result<seq<Pod>>)
    ensures r == if listed.Ok? then Ok(Candidates(listed.value)) else listed
    ensures listed.Ok? ==> forall p :: p in r.value <==> p in listed.value && !p.mirror && forall k :: 0 <= k < |p.ownerKinds| ==> p.ownerKinds[k] != DAEMON_SET
  {
    if listed.Err? {
      return listed;
    }
    var pods := listed.value;
    var f := (p: Pod) => Drainable(p);
    var filtered := [];
    for k := 0 to |pods|
      invariant filtered == Filter(pods[..k], f)
    {
      FilterStep(pods, f, k);
      if pods[k].mirror {
        continue;
      }
      var skip := false;
      for j := 0 to |pods[k].ownerKinds|
        invariant skip <==> DAEMON_SET in pods[k].ownerKinds[..j]
      {
        if pods[k].ownerKinds[j] == DAEMON_SET {
          skip := true;
        }
      }
      assert pods[k].ownerKinds[..|pods[k].ownerKinds|] == pods[k].ownerKinds;
      if skip {
        continue;
      }
      filtered := filtered + [pods[k]];
    }
    assert pods[..|pods|] == pods;
    r := Ok(filtered);
  }

  method SplitDrainCandidates(pods: seq<Pod>) returns (active: seq<Pod>, terminating: seq<Pod>)
    ensures active == ActiveOf(pods) && terminating == TerminatingOf(pods)
  {
    var a, t := (p: Pod) => !Terminating(p), (p: Pod) => Terminating(p);
    active, terminating := [], [];
    for k := 0 to |pods|
      invariant active == Filter(pods[..k], a) && terminating == Filter(pods[..k], t)
    {
      FilterStep(pods, a, k);
      FilterStep(pods, t, k);
      if pods[k].deletion.Some? {
        terminating := terminating + [pods[k]];
        continue;
      }
      active := active + [pods[k]];
    }
    assert pods[..|pods|] == pods;
  }

  /** How a pod is asked to go; the version of the API server decides. */
  datatype Kind = Delete | EvictV1beta1 | EvictV1

  datatype Request = Request(kind: Kind, pod: Pod, grace: Option<int>)

  /** The answer of the API server to an eviction or a deletion. */
  datatype Answer = Accepted | NotFound | Refused

  /** One request per pod. */
  function Requests(kind: Kind, pods: seq<Pod>, grace: Option<int>): (r: seq<Request>)
    ensures |r| == |pods| && forall i :: 0 <= i < |pods| ==> r[i] == Request(kind, pods[i], grace)
  {
    seq(|pods|, i requires 0 <= i < |pods| => Request(kind, pods[i], grace))
  }

  ghost predicate AnyRefused(requests: seq<Request>, answer: Request -> Answer)
  {
    exists q :: q in requests && answer(q) == Refused
  }

  /** One deletion per pod, whatever the others answered; a pod that is gone already is no error. */
  method DeletePods(pods: seq<Pod>, grace: Option<int>, answer: Request -> Answer) returns (sent: seq<Request>, failed: seq<Pod>)
    ensures sent == Requests(Delete, pods, grace)
    ensures forall p :: p in failed <==> p in pods && answer(Request(Delete, p, grace)) == Refused
  {
    sent, failed := [], [];
    for k := 0 to |pods|
      invariant sent == Requests(Delete, pods[..k], grace)
      invariant forall p :: p in failed <==> p in pods[..k] && answer(Request(Delete, p, grace)) == Refused
    {
      assert pods[..k + 1] == pods[..k] + [pods[k]];
      sent := sent + [Request(Delete, pods[k], grace)];
      if answer(Request(Delete, pods[k], grace)) == Refused {
        failed := failed + [pods[k]];
      }
    }
    assert pods[..|pods|] == pods;
  }

  /** One eviction per pod, likewise. */
  method EvictPods(pods: seq<Pod>, version: Kind, grace: Option<int>, answer: Request -> Answer) returns (sent: seq<Request>, failed: seq<Pod>)
    requires version != Delete
    ensures sent == Requests(version, pods, grace)
    ensures forall p :: p in failed <==> p in pods && answer(Request(version, p, grace)) == Refused
  {
    sent, failed := [], [];
    if |pods| == 0 {
      return;
    }
    for k := 0 to |pods|
      invariant sent == Requests(version, pods[..k], grace)
      invariant forall p :: p in failed <==> p in pods[..k] && answer(Request(version, p, grace)) == Refused
    {
      assert pods[..k + 1] == pods[..k] + [pods[k]];
      sent := sent + [Request(version, pods[k], grace)];
      if answer(Request(version, pods[k], grace)) == Refused {
        failed := failed + [pods[k]];
      }
    }
    assert pods[..|pods|] == pods;
  }

  method FindOverdue(terminating: seq<Pod>, now: int) returns (overdue: seq<Pod>)
    ensures overdue == OverdueOf(terminating, now)
  {
    var f := (p: Pod) => Overdue(p, now);
    overdue := [];
    for k := 0 to |terminating|
      invariant overdue == Filter(terminating[..k], f)
    {
      FilterStep(terminating, f, k);
      if terminating[k].deletion.None? || terminating[k].grace.None? {
        continue;
      }
      if now > terminating[k].deletion.value + terminating[k].grace.value {
        overdue := overdue + [terminating[k]];
      }
    }
    assert terminating[..|terminating|] == terminating;
  }

  /** What the API server answers during one drain; `version` is the kind of request it supports. */
  datatype Api = Api(listed: Result<seq<Pod>>, version: Result<Kind>, answer: Request -> Answer)

  /** The requests a pass makes to get rid of the active pods. */
  function ActiveRequests(api: Api, grace: Option<int>): seq<Request>
    requires api.listed.Ok? && api.version.Ok?
  {
    Requests(api.version.value, ActiveOf(Candidates(api.listed.value)), grace)
  }

  /** One drain pass: drained exactly if nothing was left to drain when it started, an error exactly if
      the listing, the version lookup or a request for an active pod failed, one request of the
      supported kind for each active pod, and a forced deletion exactly for overdue terminating pods. */
  method EnsureDrain(api: Api, forceEviction: bool, grace: Option<int>, now: int)
    returns (r: Result<bool>, attempted: seq<Request>, forced: seq<Request>)
    ensures r == Ok(true) <==> api.listed.Ok? && Candidates(api.listed.value) == []
    ensures r.Err? <==>
      || api.listed.Err?
      || (ActiveOf(Candidates(api.listed.value)) != [] && (api.version.Err? || AnyRefused(ActiveRequests(api, grace), api.answer)))
    ensures attempted == if api.listed.Ok? && api.version.Ok? then ActiveRequests(api, grace) else []
    ensures forced == if api.listed.Ok? && forceEviction
      then Requests(Delete, OverdueOf(TerminatingOf(Candidates(api.listed.value)), now), Some(0)) else []
  {
    hide Candidates, ActiveOf, TerminatingOf;
    attempted, forced := [], [];
    var pending := GetPodsForDrain(api.listed);
    if pending.Err? {
      return Err(Plain(PluginFailed)), attempted, forced;
    }
    var active, terminating := SplitDrainCandidates(pending.value);
    Partition(pending.value);
    if |active| == 0 && |terminating| == 0 {
      assert |multiset(pending.value)| == 0;
      return Ok(true), attempted, forced;
    }
    if |terminating| > 0 && forceEviction {
      var overdue := FindOverdue(terminating, now);
      if |overdue| > 0 {
        var failed;
        forced, failed := DeletePods(overdue, Some(0), api.answer);
      }
    }
    if |active| > 0 {
      if api.version.Err? {
        return Err(api.version.error), attempted, forced;
      }
      var ok;
      attempted, ok := RemoveActive(api.version.value, active, grace, api.answer);
      if !ok {
        return Err(Plain(PluginFailed)), attempted, forced;
      }
    }
    if |pending.value| > 0 {
      return Ok(false), attempted, forced;
    }
    r := Ok(true);
  }

  method RemoveActive(version: Kind, active: seq<Pod>, grace: Option<int>, answer: Request -> Answer) returns (sent: seq<Request>, ok: bool)
    ensures sent == Requests(version, active, grace)
    ensures ok <==> !AnyRefused(sent, answer)
  {
    var failed;
    if version == Delete {
      sent, failed := DeletePods(active, grace, answer);
    } else {
      sent, failed := EvictPods(active, version, grace, answer);
    }
    ok := failed == [];
    if !ok {
      assert failed[0] in failed;
      var i :| 0 <= i < |active| && active[i] == failed[0];
      assert sent[i] in sent && answer(sent[i]) == Refused;
    }
  }

  // ---- passes add up ----

  /** The pods left to drain, by name. */
  datatype Left = Left(active: set<string>, terminating: set<string>)

  function Weight(l: Left): nat { 2 * |l.active| + |l.terminating| }

  /** Between two passes pods only move on: active pods become terminating or vanish, terminating pods
      vanish, and nothing arrives. */
  predicate MovesOn(l: Left, l': Left)
  {
    l'.active <= l.active && l'.terminating <= l.terminating + (l.active - l'.active) && l'.active !! l'.terminating && l.active !! l.terminating
  }

  lemma WeightDrops(l: Left, l': Left)
    requires MovesOn(l, l') && l' != l
    ensures Weight(l') < Weight(l)
  {
    var evicted := l.active - l'.active;
    assert l.active == l'.active + evicted;
    var bound := l.terminating + evicted;
    assert |bound| == |l.terminating| + |evicted|;
    SubsetSize(l'.terminating, bound);
    if evicted == {} {
      assert l'.active == l.active;
      assert l'.terminating < l.terminating;
      SubsetSize(l'.terminating, l.terminating);
      assert l.terminating == l'.terminating + (l.terminating - l'.terminating);
    }
  }

  /** As long as something moves on between passes, twice the active plus the terminating pods bounds
      the number of passes. */
  lemma {:induction false} PassesBounded(ls: seq<Left>)
    requires |ls| > 0 && forall k :: 0 < k < |ls| ==> MovesOn(ls[k - 1], ls[k]) && ls[k] != ls[k - 1]
    ensures |ls| - 1 + Weight(ls[|ls| - 1]) <= Weight(ls[0])
  {
    if |ls| > 1 {
      WeightDrops(ls[0], ls[1]);
      var rest := ls[1..];
      assert forall k :: 0 < k < |rest| ==> rest[k - 1] == ls[k] && rest[k] == ls[k + 1];
      PassesBounded(rest);
    }
  }

  function NamesOf(pods: seq<Pod>): set<string> { set p | p in pods :: p.name }

  function LeftIn(listing: seq<Pod>): Left
  {
    Left(NamesOf(ActiveOf(Candidates(listing))), NamesOf(TerminatingOf(Candidates(listing))))
  }

  /** Until the next pass no pod arrives, and while pods are left at least one of them moves on: an
      evicted pod is terminating or gone, or a terminating one is gone. */
  ghost predicate GoodPass(before: seq<Pod>, after: seq<Pod>)
  {
    MovesOn(LeftIn(before), LeftIn(after)) && (Candidates(before) != [] ==> LeftIn(after) != LeftIn(before))
  }

  lemma StillHeavy(listing: seq<Pod>)
    requires Candidates(listing) != []
    ensures Weight(LeftIn(listing)) > 0
  {
    var c := Candidates(listing);
    assert c[0] in c;
    if Terminating(c[0]) {
      assert c[0] in TerminatingOf(c);
      assert c[0].name in LeftIn(listing).terminating;
    } else {
      assert c[0] in ActiveOf(c);
      assert c[0].name in LeftIn(listing).active;
    }
  }

  /** As long as pods move on and none arrive, one of the passes up to the bound finds nothing left to
      drain, which is exactly when `EnsureDrain` reports the node drained. */
  lemma DrainEnds(listings: seq<seq<Pod>>)
    requires |listings| > 0 && |listings| > Weight(LeftIn(listings[0]))
    requires forall k :: 0 < k < |listings| ==> GoodPass(listings[k - 1], listings[k])
    ensures exists k :: 0 <= k <= Weight(LeftIn(listings[0])) && Candidates(listings[k]) == []
  {
    hide LeftIn, Weight, MovesOn, Candidates;
    var n := Weight(LeftIn(listings[0]));
    if forall k :: 0 <= k <= n ==> Candidates(listings[k]) != [] {
      var ls := seq(n + 1, k requires 0 <= k < n + 1 => LeftIn(listings[k]));
      forall k | 0 < k < |ls| ensures MovesOn(ls[k - 1], ls[k]) && ls[k] != ls[k - 1] {
        assert GoodPass(listings[k - 1], listings[k]);
      }
      StillHeavy(listings[n]);
      PassesBounded(ls);
    }
  }

  // ---- the eviction trigger ----

  datatype Action = DrainNode | Cordon | Uncordon | Invalid(text: string)

  class Target {
    var unschedulable: bool
  }

  /** A drain that is not finished asks for a retry; cordoning happens on the node object at hand, and only
      a drain makes requests. */
  method EvictionTrigger(action: Action, node: Target, api: Api, forceEviction: bool, now: int)
    returns (error: Option<Error>, attempted: seq<Request>, forced: seq<Request>)
    modifies node
    ensures attempted == if action == DrainNode && api.listed.Ok? && api.version.Ok? then ActiveRequests(api, None) else []
    ensures forced == if action == DrainNode && api.listed.Ok? && forceEviction
      then Requests(Delete, OverdueOf(TerminatingOf(Candidates(api.listed.value)), now), Some(0)) else []
    ensures node.unschedulable == (if action.Invalid? then old(node.unschedulable) else action != Uncordon)
    ensures action == DrainNode ==> (error.None? <==> api.listed.Ok? && Candidates(api.listed.value) == [])
    ensures action == DrainNode && error.Some? ==> IsRetry(error.value)
    ensures action == Cordon || action == Uncordon ==> error.None?
    ensures action.Invalid? ==> error.Some? && !IsRetry(error.value)
  {
    attempted, forced := [], [];
    match action
    case Cordon =>
      node.unschedulable := true;
      return None, attempted, forced;
    case Uncordon =>
      node.unschedulable := false;
      return None, attempted, forced;
    case DrainNode =>
      node.unschedulable := true;
      var drained;
      drained, attempted, forced := EnsureDrain(api, forceEviction, None, now);
      if drained.Err? {
        return Some(Retry), attempted, forced;
      }
      if !drained.value {
        return Some(Retry), attempted, forced;
      }
      return None, attempted, forced;
    case Invalid(_) =>
      return Some(Plain(PluginFailed)), attempted, forced;
  }
}
