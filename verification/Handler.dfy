/** One reconcile pass over a node: maintain the profile table, apply every profile against one
    snapshot, commit all results or none, refresh the state label, persist. */
module Handler {

  import opened Errors
  import opened Strings
  import opened Labels
  import opened Notifications
  import opened Plugins
  import opened States

  // ---- maintaining the table ----

  /** Membership in the list of active profiles. */
  lemma {:induction false} ConfiguredMembers(parts: seq<string>, cfg: Config, n: nat)
    requires n <= |parts|
    ensures forall p :: p in Configured(parts, cfg, n) <==> exists i :: 0 <= i < n && parts[i] in cfg && cfg[parts[i]] == p
  {
    if n > 0 {
      ConfiguredMembers(parts, cfg, n - 1);
    }
  }

  lemma {:induction false} AddNewEffect<W>(pl: Plugins<W>, w: W, profiles: map<string, ProfileData>, ps: seq<Profile>, n: nat)
    requires n <= |ps|
    ensures var t := AddNew(pl, w, profiles, ps, n).profiles;
      && (forall x :: x in profiles ==> x in t && t[x] == profiles[x])
      && (forall i :: 0 <= i < n ==> ps[i].name in t)
      && (forall x :: x in t && x !in profiles ==>
            t[x].current == Operational && t[x].previous == Operational && exists i :: 0 <= i < n && ps[i].name == x)
  {
    if n > 0 {
      AddNewEffect(pl, w, profiles, ps, n - 1);
    }
  }

  lemma {:induction false} AddNewNothing<W>(pl: Plugins<W>, w: W, profiles: map<string, ProfileData>, ps: seq<Profile>, n: nat)
    requires n <= |ps| && AllPresent(profiles, ps)
    ensures AddNew(pl, w, profiles, ps, n) == Table(profiles, w)
  {
    if n > 0 {
      AddNewNothing(pl, w, profiles, ps, n - 1);
    }
  }

  /** Profiles are stored under their own name. */
  ghost predicate NamedByKey(cfg: Config)
  {
    forall x :: x in cfg ==> cfg[x].name == x
  }

  /** The table after maintenance: exactly the named old entries and the named configured profiles,
      with the old entries untouched, and stable under a second maintenance. */
  lemma MaintainedTable<W>(pl: Plugins<W>, w: W, profiles: map<string, ProfileData>, tag: string, cfg: Config)
    requires NamedByKey(cfg)
    ensures var t := Maintain(pl, w, profiles, tag, cfg);
      && AllPresent(t.profiles, Active(tag, cfg))
      && t.profiles.Keys == (set x | x in Parts(tag) && (x in profiles || x in cfg))
      && (forall x :: x in profiles && x in t.profiles ==> t.profiles[x] == profiles[x])
      && (forall x :: x in t.profiles && x !in profiles ==>
            t.profiles[x].current == Operational && t.profiles[x].previous == Operational)
      && Maintain(pl, t.world, t.profiles, tag, cfg) == t
  {
    hide AddNew, Configured;
    var kept := Kept(profiles, Effective(tag));
    var ps := Active(tag, cfg);
    var t := Maintain(pl, w, profiles, tag, cfg);
    AddNewEffect(pl, w, kept, ps, |ps|);
    ConfiguredMembers(Parts(tag), cfg, |Parts(tag)|);
    assert forall i :: 0 <= i < |ps| ==> ps[i] in ps;
    forall x | x in Parts(tag) && x in cfg ensures x in t.profiles {
      assert cfg[x] in ps;
    }
    assert t.profiles.Keys == set x | x in Parts(tag) && (x in profiles || x in cfg);
    assert Kept(t.profiles, Effective(tag)) == t.profiles;
    AddNewNothing(pl, t.world, t.profiles, ps, |ps|);
  }

  /** A newcomer is stamped with the clock as it is read at its turn. */
  lemma {:induction false} NewcomerStamps<W>(pl: Plugins<W>, w: W, profiles: map<string, ProfileData>, ps: seq<Profile>, n: nat, x: string) returns (k: nat)
    requires n <= |ps| && x !in profiles && x in AddNew(pl, w, profiles, ps, n).profiles
    ensures k < n && ps[k].name == x && x !in AddNew(pl, w, profiles, ps, k).profiles
    ensures AddNew(pl, w, profiles, ps, n).profiles[x] == ProfileData(pl.now(AddNew(pl, w, profiles, ps, k).world).0, Operational, Operational)
  {
    if x in AddNew(pl, w, profiles, ps, n - 1).profiles {
      k := NewcomerStamps(pl, w, profiles, ps, n - 1, x);
    } else {
      k := n - 1;
    }
  }

  /** The clock is read once for every newcomer and not otherwise. */
  lemma {:induction false} NewcomerClock<W>(pl: Plugins<W>, w: W, profiles: map<string, ProfileData>, ps: seq<Profile>, k: nat)
    requires k < |ps|
    ensures var t, next := AddNew(pl, w, profiles, ps, k), AddNew(pl, w, profiles, ps, k + 1);
            next.world == if ps[k].name in t.profiles then t.world else pl.now(t.world).1
  {}

  /** The positions of the configured parts among the first n. */
  function Places(parts: seq<string>, cfg: Config, n: nat): (at: seq<nat>)
    requires n <= |parts|
    ensures forall i :: 0 <= i < |at| ==> at[i] < n && parts[at[i]] in cfg
    ensures forall i, j :: 0 <= i < j < |at| ==> at[i] < at[j]
    ensures forall k: nat :: k < n && parts[k] in cfg ==> k in at
  {
    if n == 0 then [] else Places(parts, cfg, n - 1) + (if parts[n - 1] in cfg then [n - 1] else [])
  }

  /** Active profiles come in the order of the label. */
  lemma {:induction false} ActiveInOrder(parts: seq<string>, cfg: Config, n: nat)
    requires n <= |parts|
    ensures |Configured(parts, cfg, n)| == |Places(parts, cfg, n)|
    ensures forall i :: 0 <= i < |Places(parts, cfg, n)| ==> Configured(parts, cfg, n)[i] == cfg[parts[Places(parts, cfg, n)[i]]]
  {
    if n > 0 {
      ActiveInOrder(parts, cfg, n - 1);
    }
  }

  /** A node without a profile label runs the default profile. */
  lemma DefaultProfile()
    ensures Parts("") == [DEFAULT_PROFILE]
  {
    var d := DEFAULT_PROFILE;
    forall k: nat ensures !OccursAt(d, PROFILE_SEPARATOR, k) {
      if k + 2 <= |d| {
        assert d[k..k + 2][0] == d[k] != '-';
      }
    }
    assert Index(d, PROFILE_SEPARATOR).None?;
  }

  lemma MaintainedPresent<W>(pl: Plugins<W>, w: W, profiles: map<string, ProfileData>, tag: string, cfg: Config)
    ensures AllPresent(Maintain(pl, w, profiles, tag, cfg).profiles, Active(tag, cfg))
  {
    AddNewEffect(pl, w, Kept(profiles, Effective(tag)), Active(tag, cfg), |Active(tag, cfg)|);
  }

  // ---- collecting ----

  predicate AnyInMaintenance(states: seq<ProfileState>)
  {
    exists i :: 0 <= i < |states| && states[i].state == InMaintenance
  }

  /** What became of one profile: no state object could be made, or it was applied. */
  datatype Try = Unreadable | Ran(report: Report, error: Option<Error>)

  predicate Breaks(t: Try) { t.Unreadable? || (t.error.Some? && !IsRetry(t.error.value)) }

  predicate Retries(t: Try) { t.Ran? && t.error.Some? && IsRetry(t.error.value) }

  datatype Collected<W> = Collected(tries: seq<Try>, notes: map<string, nat>, sent: seq<Send>, world: W)

  /** The three collections the loop keeps: results are appended only for profiles that were applied,
      errors only for those that break the pass, names only for those that ask for a retry. */
  function ReportsOf(tries: seq<Try>): seq<Report>
  {
    if tries == [] then []
    else
      var n := |tries| - 1;
      ReportsOf(tries[..n]) + (if tries[n].Ran? then [tries[n].report] else [])
  }

  function ErrorsOf(tries: seq<Try>): seq<Error>
  {
    if tries == [] then []
    else
      var n := |tries| - 1;
      ErrorsOf(tries[..n]) +
      (if tries[n].Unreadable? then [Wrapped(UnknownLabel, Plain(UnknownLabel))]
       else if Breaks(tries[n]) then [tries[n].error.value]
       else [])
  }

  function RetryingOf(tries: seq<Try>): set<string>
  {
    set t | t in tries && Retries(t) :: t.report.name
  }

  /** Index alignment: skipping an append always leaves an error, so without errors result i is
      the result of profile i. */
  lemma {:induction false} Aligned(tries: seq<Try>)
    ensures ErrorsOf(tries) == [] <==> forall i :: 0 <= i < |tries| ==> !Breaks(tries[i])
    ensures ErrorsOf(tries) == [] ==>
      |ReportsOf(tries)| == |tries| && forall i :: 0 <= i < |tries| ==> ReportsOf(tries)[i] == tries[i].report
  {
    if tries != [] {
      Aligned(tries[..|tries| - 1]);
    }
  }

  ghost predicate StatesPresent(states: seq<ProfileState>, profiles: map<string, ProfileData>)
  {
    forall i :: 0 <= i < |states| ==> states[i].profile.name in profiles
  }

  function ParamsFor(ps: ProfileState, flag: bool, profiles: map<string, ProfileData>): Params
    requires ps.profile.name in profiles
  {
    Params(ps.profile.name, ps.state, flag, profiles[ps.profile.name].transition)
  }

  function ApplyOne<W>(pl: Plugins<W>, w: W, ps: ProfileState, flag: bool, profiles: map<string, ProfileData>,
                       notes: map<string, nat>): Applied<W>
    requires ps.profile.name in profiles
  {
    Apply(pl, w, ParamsFor(ps, flag, profiles), ChainsOf(ps.profile, ps.state), Data(profiles, notes))
  }

  function CollectStep<W>(pl: Plugins<W>, ps: ProfileState, flag: bool, profiles: map<string, ProfileData>,
                          c: Collected<W>): (c': Collected<W>)
    requires ps.profile.name in profiles
    ensures |c'.tries| == |c.tries| + 1 && forall j :: 0 <= j < |c.tries| ==> c'.tries[j] == c.tries[j]
    ensures var t := c'.tries[|c.tries|];
            if ps.state.Unknown? then t.Unreadable?
            else t.Ran? && t.report.name == ps.profile.name && t.report.state == ps.state
  {
    if ps.state.Unknown? then c.(tries := c.tries + [Unreadable])
    else
      var a := ApplyOne(pl, c.world, ps, flag, profiles, c.notes);
      Collected(c.tries + [Ran(a.report, a.error)], a.notes, c.sent + a.sent, a.world)
  }

  /** The first n profiles, one after the other, all against the same table and flag. */
  function Collect<W>(pl: Plugins<W>, w: W, states: seq<ProfileState>, profiles: map<string, ProfileData>,
                      notes: map<string, nat>, n: nat): (c: Collected<W>)
    requires n <= |states| && StatesPresent(states, profiles)
    ensures |c.tries| == n
    ensures forall i :: 0 <= i < n ==> if states[i].state.Unknown? then c.tries[i].Unreadable? else
              c.tries[i].Ran? && c.tries[i].report.name == states[i].profile.name && c.tries[i].report.state == states[i].state
  {
    if n == 0 then Collected([], notes, [], w)
    else CollectStep(pl, states[n - 1], AnyInMaintenance(states), profiles, Collect(pl, w, states, profiles, notes, n - 1))
  }

  // ---- committing ----

  /** The triple after a result: the new previous state is the state the result was computed in. */
  function Settle(pd: ProfileData, r: Report, now: nat): ProfileData
  {
    if r.state != r.next then ProfileData(now, r.next, r.state) else pd.(previous := r.state)
  }

  function Commit<W>(pl: Plugins<W>, w: W, states: seq<ProfileState>, reports: seq<Report>, retrying: set<string>,
                     profiles: map<string, ProfileData>, n: nat): (t: Table<W>)
    requires n <= |states| == |reports| && StatesPresent(states, profiles)
    requires forall i :: 0 <= i < |states| ==> reports[i].state == states[i].state
    ensures t.profiles.Keys == profiles.Keys
  {
    if n == 0 then Table(profiles, w)
    else
      var t := Commit(pl, w, states, reports, retrying, profiles, n - 1);
      var name, r := states[n - 1].profile.name, reports[n - 1];
      if name in retrying then t
      else
        var (now, w') := if states[n - 1].state != r.next then pl.now(t.world) else (0, t.world);
        Table(t.profiles[name := Settle(t.profiles[name], r, now)], w')
  }

  datatype AppliedAll<W> = AppliedAll(error: Option<Error>, data: Data, tries: seq<Try>, sent: seq<Send>, world: W)

  function ApplyAll<W>(pl: Plugins<W>, w: W, tag: string, cfg: Config, data: Data): (a: AppliedAll<W>)
    requires AllPresent(data.profiles, Active(tag, cfg))
    ensures a.data.profiles.Keys == data.profiles.Keys
  {
    var states := StatesOf(data.profiles, Active(tag, cfg));
    var c := Collect(pl, w, states, data.profiles, data.notifications, |states|);
    var errors := ErrorsOf(c.tries);
    if errors != [] then
      AppliedAll(Some(Wrapped(CheckFailed, Joined(errors))), Data(data.profiles, c.notes), c.tries, c.sent, c.world)
    else
      Aligned(c.tries);
      var t := Commit(pl, c.world, states, ReportsOf(c.tries), RetryingOf(c.tries), data.profiles, |states|);
      AppliedAll(None, Data(t.profiles, c.notes), c.tries, c.sent, t.world)
  }

  method CollectResults<W>(pl: Plugins<W>, w: W, states: seq<ProfileState>, data: NodeData)
    returns (reports: seq<Report>, errors: seq<Error>, retrying: set<string>, ghost c: Collected<W>, w': W)
    requires StatesPresent(states, data.profiles)
    modifies data`notifications
    ensures c == Collect(pl, w, states, data.profiles, old(data.notifications), |states|)
    ensures c.notes == data.notifications && c.world == w'
    ensures reports == ReportsOf(c.tries) && errors == ErrorsOf(c.tries) && retrying == RetryingOf(c.tries)
  {
    hide CollectStep, ReportsOf, ErrorsOf, RetryingOf;
    NoTries();
    reports, errors, retrying, w' := [], [], {}, w;
    c := Collected([], data.notifications, [], w);
    for k := 0 to |states|
      invariant c == Collect(pl, w, states, data.profiles, old(data.notifications), k)
      invariant c.notes == data.notifications && c.world == w'
      invariant reports == ReportsOf(c.tries) && errors == ErrorsOf(c.tries) && retrying == RetryingOf(c.tries)
    {
      ghost var tries := c.tries;
      var flag := InMaintenanceFlag(states);
      var one;
      one, c, w' := TryProfile(pl, states[k], flag, data, c, w');
      TriesStep(tries, one);
      if one.Unreadable? {
        errors := errors + [Wrapped(UnknownLabel, Plain(UnknownLabel))];
        continue;
      }
      reports := reports + [one.report];
      if one.error.None? {
        continue;
      }
      if IsRetry(one.error.value) {
        retrying := retrying + {states[k].profile.name};
      } else {
        errors := errors + [one.error.value];
      }
    }
  }

  method TryProfile<W>(pl: Plugins<W>, ps: ProfileState, flag: bool, data: NodeData, ghost c: Collected<W>, w: W)
    returns (t: Try, ghost c': Collected<W>, w': W)
    requires ps.profile.name in data.profiles && c.notes == data.notifications && c.world == w
    modifies data`notifications
    ensures c' == CollectStep(pl, ps, flag, data.profiles, c)
    ensures c'.notes == data.notifications && c'.world == w' && c'.tries == c.tries + [t]
  {
    var chains := FromLabel(ps.state, ChainsOf(ps.profile, ps.state));
    if chains.Err? {
      return Unreadable, c.(tries := c.tries + [Unreadable]), w;
    }
    var prm := Params(ps.profile.name, ps.state, flag, data.profiles[ps.profile.name].transition);
    var report, e, sent, next := ApplyState(pl, w, prm, chains.value, data);
    t, w' := Ran(report, e), next;
    c' := Collected(c.tries + [t], data.notifications, c.sent + sent, next);
  }

  lemma NoTries()
    ensures ReportsOf([]) == [] && ErrorsOf([]) == [] && RetryingOf([]) == {}
  {}

  lemma TriesStep(tries: seq<Try>, t: Try)
    ensures ReportsOf(tries + [t]) == ReportsOf(tries) + (if t.Ran? then [t.report] else [])
    ensures ErrorsOf(tries + [t]) == ErrorsOf(tries) +
      (if t.Unreadable? then [Wrapped(UnknownLabel, Plain(UnknownLabel))] else if Breaks(t) then [t.error.value] else [])
    ensures RetryingOf(tries + [t]) == RetryingOf(tries) + (if Retries(t) then {t.report.name} else {})
  {
    assert (tries + [t])[..|tries|] == tries;
    assert forall u :: u in tries + [t] <==> u in tries || u == t;
  }

  method CommitResults<W>(pl: Plugins<W>, w: W, states: seq<ProfileState>, reports: seq<Report>, retrying: set<string>,
                          data: NodeData) returns (w': W)
    requires |states| == |reports| && StatesPresent(states, data.profiles)
    requires forall i :: 0 <= i < |states| ==> reports[i].state == states[i].state
    modifies data`profiles
    ensures Commit(pl, w, states, reports, retrying, old(data.profiles), |states|) == Table(data.profiles, w')
  {
    w' := w;
    for k := 0 to |states|
      invariant Commit(pl, w, states, reports, retrying, old(data.profiles), k) == Table(data.profiles, w')
    {
      var name := states[k].profile.name;
      if name in retrying {
        continue;
      }
      var result := reports[k];
      if states[k].state != result.next {
        var (now, next) := pl.now(w');
        w' := next;
        data.profiles := data.profiles[name := data.profiles[name].(transition := now, current := result.next)];
      }
      data.profiles := data.profiles[name := data.profiles[name].(previous := result.state)];
    }
  }

  method ApplyProfiles<W>(pl: Plugins<W>, w: W, tag: string, cfg: Config, data: NodeData)
    returns (error: Option<Error>, ghost tries: seq<Try>, ghost sent: seq<Send>, w': W)
    requires AllPresent(data.profiles, Active(tag, cfg))
    modifies data
    ensures ApplyAll(pl, w, tag, cfg, old(data.Value())) == AppliedAll(error, data.Value(), tries, sent, w')
  {
    hide Collect, Commit, ReportsOf, ErrorsOf, RetryingOf, Active;
    var states := data.GetProfilesWithState(tag, cfg);
    var reports, errors, retrying, c, start := CollectResults(pl, w, states, data);
    tries, sent, w' := c.tries, c.sent, start;
    if errors != [] {
      return Some(Wrapped(CheckFailed, Joined(errors))), tries, sent, w';
    }
    Aligned(c.tries);
    w' := CommitResults(pl, w', states, reports, retrying, data);
    error := None;
  }

  method InMaintenanceFlag(states: seq<ProfileState>) returns (flag: bool)
    ensures flag == AnyInMaintenance(states)
  {
    for k := 0 to |states|
      invariant forall i :: 0 <= i < k ==> states[i].state != InMaintenance
    {
      if states[k].state == InMaintenance {
        return true;
      }
    }
    return false;
  }

  // ---- the state label ----

  /** in-maintenance wins over maintenance-required, which wins over operational. */
  function StateLabel(states: seq<ProfileState>): NodeStateLabel
  {
    if exists i :: 0 <= i < |states| && states[i].state == InMaintenance then InMaintenance
    else if exists i :: 0 <= i < |states| && states[i].state == Required then Required
    else Operational
  }

  // ---- the node object and the API server ----

  datatype Stored = Absent | Garbled | Decoded(data: Data)

  datatype NodeObject = NodeObject(labels: map<string, string>, stored: Stored)

  function ParseData(s: Stored): Result<Data>
  {
    match s
    case Absent => Ok(EMPTY_DATA)
    case Garbled => Err(Plain(BadData))
    case Decoded(d) => Ok(d)
  }

  function DataOf(node: NodeObject): Data
  {
    if node.stored.Decoded? then node.stored.data else EMPTY_DATA
  }

  /** The value of the profile label. */
  function Tag(node: NodeObject): string { Get(node.labels, PROFILE_KEY) }

  /** The table a pass works on. */
  function Maintained<W>(pl: Plugins<W>, w: W, cfg: Config, node: NodeObject): (t: Table<W>)
    ensures AllPresent(t.profiles, Active(Tag(node), cfg))
  {
    MaintainedPresent(pl, w, DataOf(node).profiles, Tag(node), cfg);
    Maintain(pl, w, DataOf(node).profiles, Tag(node), cfg)
  }

  /** The profiles of a pass in the states it starts from. */
  function Snapshot<W>(pl: Plugins<W>, w: W, cfg: Config, node: NodeObject): (states: seq<ProfileState>)
    ensures StatesPresent(states, Maintained(pl, w, cfg, node).profiles)
  {
    StatesOf(Maintained(pl, w, cfg, node).profiles, Active(Tag(node), cfg))
  }

  function AppliedIn<W>(pl: Plugins<W>, w: W, cfg: Config, node: NodeObject): (a: AppliedAll<W>)
    ensures AllPresent(a.data.profiles, Active(Tag(node), cfg))
  {
    var t := Maintained(pl, w, cfg, node);
    ApplyAll(pl, t.world, Tag(node), cfg, Data(t.profiles, DataOf(node).notifications))
  }

  /** The labels after the triggers of a pass; they do not rewrite the profile label. */
  function Edited<W>(pl: Plugins<W>, w: W, labels: map<string, string>): (r: map<string, string>)
    ensures Get(r, PROFILE_KEY) == Get(labels, PROFILE_KEY) && (PROFILE_KEY in r <==> PROFILE_KEY in labels)
    ensures forall k :: k != PROFILE_KEY ==> (k in r <==> k in pl.relabel(w, labels)) && Get(r, k) == Get(pl.relabel(w, labels), k)
  {
    var edited := pl.relabel(w, labels);
    if PROFILE_KEY in labels then edited[PROFILE_KEY := labels[PROFILE_KEY]] else edited - {PROFILE_KEY}
  }

  datatype PassRun<W> = PassRun(error: Option<Error>, node: NodeObject, tries: seq<Try>, sent: seq<Send>, world: W)

  function RunPass<W>(pl: Plugins<W>, w: W, cfg: Config, node: NodeObject): PassRun<W>
  {
    if ParseData(node.stored).Err? then PassRun(Some(ParseData(node.stored).error), node, [], [], w)
    else
      var a := AppliedIn(pl, w, cfg, node);
      if a.error.Some? then PassRun(a.error, node, a.tries, a.sent, a.world)
      else
        var l := StateLabel(StatesOf(a.data.profiles, Active(Tag(node), cfg)));
        PassRun(None, NodeObject(Edited(pl, a.world, node.labels)[STATE_KEY := Text(l)], Decoded(a.data)), a.tries, a.sent, a.world)
  }

  /** What the API server holds after a reconcile: nothing is written on an error, and the patch
      itself may fail. */
  function Persisted<W>(pl: Plugins<W>, w: W, cfg: Config, node: NodeObject, patchOk: bool): NodeObject
  {
    var r := RunPass(pl, w, cfg, node);
    if r.error.Some? || !patchOk then node else r.node
  }

  class Node {
    var labels: map<string, string>
    var stored: Stored

    constructor (o: NodeObject)
      ensures labels == o.labels && stored == o.stored
    {
      labels, stored := o.labels, o.stored;
    }

    method UpdateMaintenanceStateLabel(cfg: Config, data: NodeData)
      requires AllPresent(data.profiles, Active(Get(labels, PROFILE_KEY), cfg))
      modifies this`labels
      ensures var ps := Active(Get(old(labels), PROFILE_KEY), cfg);
              labels == old(labels)[STATE_KEY := Text(StateLabel(StatesOf(data.profiles, ps)))]
    {
      var states := data.GetProfilesWithState(Get(labels, PROFILE_KEY), cfg);
      for k := 0 to |states|
        invariant labels == old(labels)
        invariant forall i :: 0 <= i < k ==> states[i].state != InMaintenance
      {
        if states[k].state == InMaintenance {
          labels := labels[STATE_KEY := Text(states[k].state)];
          return;
        }
      }
      for k := 0 to |states|
        invariant labels == old(labels)
        invariant forall i :: 0 <= i < k ==> states[i].state != Required
      {
        if states[k].state == Required {
          labels := labels[STATE_KEY := Text(states[k].state)];
          return;
        }
      }
      labels := labels[STATE_KEY := Text(Operational)];
    }

    /** The handlers in order, then the data annotation; labels and annotation change only on success. */
    method ReconcileInternal<W>(pl: Plugins<W>, w: W, cfg: Config) returns (error: Option<Error>, w': W)
      modifies this
      ensures var r := RunPass(pl, w, cfg, old(NodeObject(labels, stored)));
              error == r.error && w' == r.world && NodeObject(labels, stored) == r.node
    {
      hide Maintain, ApplyAll, StateLabel;
      var parsed := ParseData(stored);
      if parsed.Err? {
        return Some(parsed.error), w;
      }
      var data := new NodeData(parsed.value);
      var tag := Get(labels, PROFILE_KEY);
      MaintainedPresent(pl, w, data.profiles, tag, cfg);
      w' := data.MaintainProfileStates(pl, w, tag, cfg);
      ghost var tries, sent;
      error, tries, sent, w' := ApplyProfiles(pl, w', tag, cfg, data);
      if error.Some? {
        return;
      }
      labels := Edited(pl, w', labels);
      UpdateMaintenanceStateLabel(cfg, data);
      stored := Decoded(data.Value());
    }
  }

  class Server {
    var nodes: map<string, NodeObject>

    method Reconcile<W>(pl: Plugins<W>, w: W, cfg: Config, name: string, patchOk: bool) returns (w': W)
      modifies this
      ensures name !in old(nodes) ==> nodes == old(nodes)
      ensures name in old(nodes) ==> nodes == old(nodes)[name := Persisted(pl, w, cfg, old(nodes)[name], patchOk)]
    {
      hide RunPass;
      if name !in nodes {
        return w;
      }
      var unmodified := nodes[name];
      var node := new Node(unmodified);
      var error;
      error, w' := node.ReconcileInternal(pl, w, cfg);
      if error.Some? || NodeObject(node.labels, node.stored) == unmodified {
        return;
      }
      if patchOk {
        nodes := nodes[name := NodeObject(node.labels, node.stored)];
      }
    }
  }
}
