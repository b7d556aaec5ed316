/** One profile on one node: its stored data, its state's chains, and one application of them. */
module States {

  import opened Errors
  import opened Strings
  import opened Labels
  import opened CheckExpressions
  import opened Notifications
  import opened Plugins

  datatype Transition = Transition(check: CheckChain, trigger: seq<string>, next: NodeStateLabel)

  datatype NotificationInstance = NotificationInstance(name: string, schedule: Option<Schedule>)

  datatype PluginChains = PluginChains(
    enter: seq<string>, notification: seq<NotificationInstance>, transitions: seq<Transition>)

  datatype Profile = Profile(name: string, chains: map<NodeStateLabel, PluginChains>)

  datatype ProfileData = ProfileData(transition: nat, current: NodeStateLabel, previous: NodeStateLabel)

  datatype Data = Data(profiles: map<string, ProfileData>, notifications: map<string, nat>)

  const EMPTY_DATA := Data(map[], map[])

  function ChainsOf(p: Profile, l: NodeStateLabel): PluginChains
  {
    if l in p.chains then p.chains[l] else PluginChains([], [], [])
  }

  /** Fails exactly on a label that is none of the three states. */
  function FromLabel(l: NodeStateLabel, chains: PluginChains): (r: Result<PluginChains>)
    ensures r.Ok? <==> Text(l) in {OPERATIONAL, REQUIRED, IN_MAINTENANCE} && !l.Unknown?
    ensures r.Ok? ==> r.value == chains
  {
    if l.Unknown? then Err(Plain(UnknownLabel)) else Ok(chains)
  }

  // ---- transitions ----

  /** Only one profile of a node may enter in-maintenance: the flag vetoes such a transition. */
  function ExecuteTransition<W>(pl: Plugins<W>, w: W, prm: Params, t: Transition): ChainRun<W>
  {
    var r := ExecuteChecks(pl, w, prm, t.check);
    ChainRun(r.passed && !(t.next == InMaintenance && prm.inMaintenance), r.error, r.world)
  }

  datatype Executed<W> = Executed(passed: seq<bool>, errors: seq<Error>, world: W)

  function ExecuteAll<W>(pl: Plugins<W>, w: W, prm: Params, ts: seq<Transition>, n: nat): (x: Executed<W>)
    requires n <= |ts|
    ensures |x.passed| == n
  {
    if n == 0 then Executed([], [], w)
    else
      var x := ExecuteAll(pl, w, prm, ts, n - 1);
      var r := ExecuteTransition(pl, x.world, prm, ts[n - 1]);
      Executed(x.passed + [r.passed], x.errors + (if r.error.Some? then [r.error.value] else []), r.world)
  }

  function FirstPassing(passed: seq<bool>, from: nat := 0): (r: Option<nat>)
    requires from <= |passed|
    ensures r.Some? ==> from <= r.value < |passed| && passed[r.value] && forall j :: from <= j < r.value ==> !passed[j]
    ensures r.None? ==> forall j :: from <= j < |passed| ==> !passed[j]
    decreases |passed| - from
  {
    if from == |passed| then None
    else if passed[from] then Some(from)
    else FirstPassing(passed, from + 1)
  }

  datatype Decision<W> = Decision(next: NodeStateLabel, pick: Option<nat>, error: Option<Error>, world: W)

  /** Runs every check chain, then follows the first one that passed. */
  function Decide<W>(pl: Plugins<W>, w: W, prm: Params, ts: seq<Transition>): Decision<W>
  {
    var x := ExecuteAll(pl, w, prm, ts, |ts|);
    if x.errors != [] then Decision(prm.state, None, Some(Wrapped(FailedChecks, Joined(x.errors))), x.world)
    else match FirstPassing(x.passed)
         case None => Decision(prm.state, None, None, x.world)
         case Some(k) =>
           var names := ts[k].check.plugins;
           var h := RunHooks(pl, x.world, prm, names, |names|);
           if h.error.Some? then Decision(prm.state, Some(k), h.error, h.world)
           else Decision(ts[k].next, Some(k), None, h.world)
  }

  method TransitionDefault<W>(pl: Plugins<W>, w: W, prm: Params, ts: seq<Transition>) returns (d: Decision<W>)
    ensures d == Decide(pl, w, prm, ts)
  {
    var passed: seq<bool>, errors: seq<Error>, world := [], [], w;
    for k := 0 to |ts|
      invariant ExecuteAll(pl, w, prm, ts, k) == Executed(passed, errors, world)
    {
      var r := CheckChainExecute(pl, world, prm, ts[k].check);
      passed := passed + [r.passed && !(ts[k].next == InMaintenance && prm.inMaintenance)];
      if r.error.Some? {
        errors := errors + [r.error.value];
      }
      world := r.world;
    }
    if errors != [] {
      return Decision(prm.state, None, Some(Wrapped(FailedChecks, Joined(errors))), world);
    }
    for k := 0 to |passed|
      invariant FirstPassing(passed) == FirstPassing(passed, k)
    {
      if !passed[k] {
        continue;
      }
      var names := ts[k].check.plugins;
      ghost var start := world;
      for j := 0 to |names|
        invariant RunHooks(pl, start, prm, names, j) == ActionRun(None, world)
      {
        var (e, world') := pl.onTransition(world, prm, names[j]);
        world := world';
        if e.Some? {
          HooksStop(pl, start, prm, names, j + 1, |names|);
          return Decision(prm.state, Some(k), e, world);
        }
      }
      return Decision(ts[k].next, Some(k), None, world);
    }
    d := Decision(prm.state, None, None, world);
  }

  /** The first transition to a target owns the triggers that run for that target. */
  function FirstTo(ts: seq<Transition>, next: NodeStateLabel, from: nat := 0): (r: Option<nat>)
    requires from <= |ts|
    ensures r.Some? ==> from <= r.value < |ts| && ts[r.value].next == next && forall j :: from <= j < r.value ==> ts[j].next != next
    ensures r.None? ==> forall j :: from <= j < |ts| ==> ts[j].next != next
    decreases |ts| - from
  {
    if from == |ts| then None
    else if ts[from].next == next then Some(from)
    else FirstTo(ts, next, from + 1)
  }

  function RunTriggersTo<W>(pl: Plugins<W>, w: W, prm: Params, ts: seq<Transition>, next: NodeStateLabel): ActionRun<W>
  {
    match FirstTo(ts, next)
    case None => ActionRun(Some(Plain(MissingTriggers)), w)
    case Some(k) => RunTriggers(pl, w, prm, ts[k].trigger, |ts[k].trigger|)
  }

  method Trigger<W>(pl: Plugins<W>, w: W, prm: Params, ts: seq<Transition>, next: NodeStateLabel) returns (r: ActionRun<W>)
    ensures r == RunTriggersTo(pl, w, prm, ts, next)
  {
    for k := 0 to |ts|
      invariant FirstTo(ts, next) == FirstTo(ts, next, k)
    {
      if ts[k].next == next {
        r := TriggerChainExecute(pl, w, prm, ts[k].trigger);
        return;
      }
    }
    r := ActionRun(Some(Plain(MissingTriggers)), w);
  }

  // ---- notifications ----

  datatype NotifyRun<W> = NotifyRun(notes: map<string, nat>, sent: seq<Send>, error: Option<Error>, world: W)

  function WithNote(notes: map<string, nat>, name: string): map<string, nat>
  {
    if name in notes then notes else notes[name := 0]
  }

  /** One notification instance; only the oneshot schedule reads the clock again. */
  function NotifyOne<W>(pl: Plugins<W>, w: W, prm: Params, pd: ProfileData, notes: map<string, nat>,
                        inst: NotificationInstance): NotifyRun<W>
  {
    if inst.schedule.None? then NotifyRun(notes, [], Some(Plain(MissingSchedule)), w)
    else
      var filled := WithNote(notes, inst.name);
      var (t, w1) := pl.now(w);
      var (later, w2) := if inst.schedule.value.Oneshot? then pl.now(w1) else (t, w1);
      var at := Situation(pd.current, pd.previous, t, later, filled[inst.name], pd.transition);
      if !ShouldNotify(inst.schedule.value, at) then NotifyRun(filled, [], None, w2)
      else
        var (e, w3) := pl.notify(w2, prm, inst.name);
        if e.Some? then NotifyRun(filled, [], e, w3)
        else NotifyRun(filled[inst.name := t], [Send(inst.name, prm.profile, inst.schedule.value, at)], None, w3)
  }

  function RunNotify<W>(pl: Plugins<W>, w: W, prm: Params, pd: ProfileData, notes: map<string, nat>,
                        chain: seq<NotificationInstance>, n: nat): NotifyRun<W>
    requires n <= |chain|
  {
    if n == 0 then NotifyRun(notes, [], None, w)
    else
      var r := RunNotify(pl, w, prm, pd, notes, chain, n - 1);
      if r.error.Some? then r
      else
        var o := NotifyOne(pl, r.world, prm, pd, r.notes, chain[n - 1]);
        NotifyRun(o.notes, r.sent + o.sent, o.error, o.world)
  }

  lemma {:induction false} NotifyStops<W>(pl: Plugins<W>, w: W, prm: Params, pd: ProfileData, notes: map<string, nat>,
                                          chain: seq<NotificationInstance>, k: nat, n: nat)
    requires k <= n <= |chain| && RunNotify(pl, w, prm, pd, notes, chain, k).error.Some?
    ensures RunNotify(pl, w, prm, pd, notes, chain, n) == RunNotify(pl, w, prm, pd, notes, chain, k)
  {
    if k < n {
      NotifyStops(pl, w, prm, pd, notes, chain, k, n - 1);
    }
  }

  // ---- applying one profile ----

  /** Everything before the transition checks: entering the state, then notifying. */
  datatype Prelude<W> = Prelude(entered: bool, error: Option<Error>, notes: map<string, nat>, sent: seq<Send>, world: W)

  function RunPrelude<W>(pl: Plugins<W>, w: W, prm: Params, chains: PluginChains, pd: ProfileData,
                         notes: map<string, nat>): Prelude<W>
  {
    var pending := pd.previous != pd.current;
    var e := if pending then RunTriggers(pl, w, prm, chains.enter, |chains.enter|) else ActionRun(None, w);
    if e.error.Some? then
      var err := if IsRetry(e.error.value) then e.error.value else Wrapped(EnterFailed, e.error.value);
      Prelude(false, Some(err), notes, [], e.world)
    else
      var n := RunNotify(pl, e.world, prm, pd, notes, chains.notification, |chains.notification|);
      if n.error.Some? then Prelude(pending, Some(Wrapped(NotifyFailed, n.error.value)), n.notes, n.sent, n.world)
      else Prelude(pending, None, n.notes, n.sent, n.world)
  }

  /** What is known about one application: where it wants to go, whether the enter chain ran to its
      end, which transition was followed and whose triggers ran. */
  datatype Report = Report(
    name: string, state: NodeStateLabel, next: NodeStateLabel, entered: bool, pick: Option<nat>, ran: Option<nat>)

  datatype Applied<W> = Applied(report: Report, error: Option<Error>, notes: map<string, nat>, sent: seq<Send>, world: W)

  function Apply<W>(pl: Plugins<W>, w: W, prm: Params, chains: PluginChains, data: Data): (a: Applied<W>)
    ensures a.report.name == prm.profile && a.report.state == prm.state
    ensures a.error.Some? ==> a.report.next == prm.state
  {
    var stay := Report(prm.profile, prm.state, prm.state, false, None, None);
    if prm.profile !in data.profiles then Applied(stay, Some(Plain(MissingProfile)), data.notifications, [], w)
    else
      var p := RunPrelude(pl, w, prm, chains, data.profiles[prm.profile], data.notifications);
      if p.error.Some? then Applied(stay.(entered := p.entered), p.error, p.notes, p.sent, p.world)
      else
        var d := Decide(pl, p.world, prm, chains.transitions);
        var decided := stay.(entered := p.entered, pick := d.pick);
        if d.error.Some? then Applied(decided, Some(Wrapped(CheckFailed, d.error.value)), p.notes, p.sent, d.world)
        else if d.next == prm.state then Applied(decided, None, p.notes, p.sent, d.world)
        else
          var t := RunTriggersTo(pl, d.world, prm, chains.transitions, d.next);
          var moved := decided.(ran := FirstTo(chains.transitions, d.next));
          if t.error.Some? then Applied(moved, Some(Wrapped(TriggerFailed, t.error.value)), p.notes, p.sent, t.world)
          else Applied(moved.(next := d.next), None, p.notes, p.sent, t.world)
  }

  // ---- the profile table of a node ----

  datatype ProfileState = ProfileState(profile: Profile, state: NodeStateLabel)

  type Config = map<string, Profile>

  function Effective(tag: string): string
  {
    if tag == "" then DEFAULT_PROFILE else tag
  }

  function Parts(tag: string): seq<string>
  {
    Split(Effective(tag), PROFILE_SEPARATOR)
  }

  predicate ContainsProfile(tag: string, name: string)
  {
    name in Split(tag, PROFILE_SEPARATOR)
  }

  /** The configured profiles among the first n parts of a label. */
  function Configured(parts: seq<string>, cfg: Config, n: nat): (ps: seq<Profile>)
    requires n <= |parts|
  {
    if n == 0 then []
    else Configured(parts, cfg, n - 1) + (if parts[n - 1] in cfg then [cfg[parts[n - 1]]] else [])
  }

  function Active(tag: string, cfg: Config): seq<Profile>
  {
    Configured(Parts(tag), cfg, |Parts(tag)|)
  }

  method GetProfiles(tag: string, cfg: Config) returns (ps: seq<Profile>)
    ensures ps == Configured(Split(tag, PROFILE_SEPARATOR), cfg, |Split(tag, PROFILE_SEPARATOR)|)
  {
    var parts := Split(tag, PROFILE_SEPARATOR);
    ps := [];
    for k := 0 to |parts|
      invariant ps == Configured(parts, cfg, k)
    {
      if parts[k] !in cfg {
        continue;
      }
      ps := ps + [cfg[parts[k]]];
    }
  }

  datatype Table<W> = Table(profiles: map<string, ProfileData>, world: W)

  /** Newcomers start operational, without a pending enter. */
  function AddNew<W>(pl: Plugins<W>, w: W, profiles: map<string, ProfileData>, ps: seq<Profile>, n: nat): Table<W>
    requires n <= |ps|
  {
    if n == 0 then Table(profiles, w)
    else
      var t := AddNew(pl, w, profiles, ps, n - 1);
      if ps[n - 1].name in t.profiles then t
      else
        var (now, w') := pl.now(t.world);
        Table(t.profiles[ps[n - 1].name := ProfileData(now, Operational, Operational)], w')
  }

  function Kept(profiles: map<string, ProfileData>, tag: string): map<string, ProfileData>
  {
    map x | x in profiles && ContainsProfile(tag, x) :: profiles[x]
  }

  function Maintain<W>(pl: Plugins<W>, w: W, profiles: map<string, ProfileData>, tag: string, cfg: Config): Table<W>
  {
    AddNew(pl, w, Kept(profiles, Effective(tag)), Active(tag, cfg), |Active(tag, cfg)|)
  }

  ghost predicate AllPresent(profiles: map<string, ProfileData>, ps: seq<Profile>)
  {
    forall i :: 0 <= i < |ps| ==> ps[i].name in profiles
  }

  function StatesOf(profiles: map<string, ProfileData>, ps: seq<Profile>): (states: seq<ProfileState>)
    requires AllPresent(profiles, ps)
    ensures |states| == |ps|
    ensures forall i :: 0 <= i < |ps| ==> states[i] == ProfileState(ps[i], profiles[ps[i].name].current)
  {
    seq(|ps|, i requires 0 <= i < |ps| => ProfileState(ps[i], profiles[ps[i].name].current))
  }

  /** The data of a node, updated in place during a pass. */
  class NodeData {
    var profiles: map<string, ProfileData>
    var notifications: map<string, nat>

    constructor (d: Data)
      ensures profiles == d.profiles && notifications == d.notifications
    {
      profiles, notifications := d.profiles, d.notifications;
    }

    function Value(): Data
      reads this
    {
      Data(profiles, notifications)
    }

    method MaintainProfileStates<W>(pl: Plugins<W>, w: W, tag: string, cfg: Config) returns (w': W)
      modifies this`profiles
      ensures Maintain(pl, w, old(profiles), tag, cfg) == Table(profiles, w')
    {
      var effective := if tag == "" then DEFAULT_PROFILE else tag;
      Cleanup(effective);
      var ps := GetProfiles(effective, cfg);
      ghost var kept := profiles;
      w' := w;
      for k := 0 to |ps|
        invariant AddNew(pl, w, kept, ps, k) == Table(profiles, w')
      {
        if ps[k].name !in profiles {
          var (now, next) := pl.now(w');
          profiles := profiles[ps[k].name := ProfileData(now, Operational, Operational)];
          w' := next;
        }
      }
    }

    /** Drops the data of profiles the label no longer names. */
    method Cleanup(tag: string)
      modifies this`profiles
      ensures profiles == Kept(old(profiles), tag)
    {
      var toRemove: seq<string> := [];
      var todo := profiles.Keys;
      while todo != {}
        invariant todo <= profiles.Keys
        invariant forall x :: x in toRemove <==> x in profiles.Keys - todo && !ContainsProfile(tag, x)
        invariant profiles == old(profiles)
        decreases |todo|
      {
        var x :| x in todo;
        if !ContainsProfile(tag, x) {
          toRemove := toRemove + [x];
        }
        todo := todo - {x};
      }
      for k := 0 to |toRemove|
        invariant profiles.Keys <= old(profiles).Keys
        invariant forall x :: x in old(profiles) ==> (x in profiles <==> x !in toRemove[..k])
        invariant forall x :: x in profiles ==> profiles[x] == old(profiles)[x]
      {
        assert toRemove[..k + 1] == toRemove[..k] + [toRemove[k]];
        profiles := profiles - {toRemove[k]};
      }
      assert toRemove[..|toRemove|] == toRemove;
    }

    method GetProfilesWithState(tag: string, cfg: Config) returns (states: seq<ProfileState>)
      requires AllPresent(profiles, Active(tag, cfg))
      ensures states == StatesOf(profiles, Active(tag, cfg))
    {
      var ps := GetProfiles(if tag == "" then DEFAULT_PROFILE else tag, cfg);
      states := [];
      for k := 0 to |ps|
        invariant |states| == k
        invariant forall i :: 0 <= i < k ==> states[i] == ProfileState(ps[i], profiles[ps[i].name].current)
      {
        states := states + [ProfileState(ps[k], profiles[ps[k].name].current)];
      }
    }

    /** One instance: the time it was last sent is created when it is missing. */
    method NotifyInstance<W>(pl: Plugins<W>, w: W, prm: Params, pd: ProfileData, inst: NotificationInstance)
      returns (error: Option<Error>, ghost sent: seq<Send>, w': W)
      modifies this`notifications
      ensures NotifyOne(pl, w, prm, pd, old(notifications), inst) == NotifyRun(notifications, sent, error, w')
    {
      hide ShouldNotify;
      if inst.schedule.None? {
        return Some(Plain(MissingSchedule)), [], w;
      }
      if inst.name !in notifications {
        notifications := notifications[inst.name := 0];
      }
      var (t, w1) := pl.now(w);
      var later := t;
      w' := w1;
      if inst.schedule.value.Oneshot? {
        var (l, w2) := pl.now(w1);
        later, w' := l, w2;
      }
      var at := Situation(pd.current, pd.previous, t, later, notifications[inst.name], pd.transition);
      if !ShouldNotify(inst.schedule.value, at) {
        return None, [], w';
      }
      var (e, w3) := pl.notify(w', prm, inst.name);
      error, sent, w' := e, [], w3;
      if error.None? {
        notifications := notifications[inst.name := t];
        sent := [Send(inst.name, prm.profile, inst.schedule.value, at)];
      }
    }

    method NotifyDefault<W>(pl: Plugins<W>, w: W, prm: Params, chain: seq<NotificationInstance>)
      returns (error: Option<Error>, ghost sent: seq<Send>, w': W)
      requires prm.profile in profiles
      modifies this`notifications
      ensures RunNotify(pl, w, prm, profiles[prm.profile], old(notifications), chain, |chain|) ==
              NotifyRun(notifications, sent, error, w')
    {
      hide NotifyOne;
      var pd := profiles[prm.profile];
      sent, w' := [], w;
      for k := 0 to |chain|
        invariant RunNotify(pl, w, prm, pd, old(notifications), chain, k) == NotifyRun(notifications, sent, None, w')
      {
        ghost var one;
        error, one, w' := NotifyInstance(pl, w', prm, pd, chain[k]);
        sent := sent + one;
        if error.Some? {
          NotifyStops(pl, w, prm, pd, old(notifications), chain, k + 1, |chain|);
          return;
        }
      }
      error := None;
    }
  }

  /** Applies the chains of the state a profile is in; only notification times change in the data. */
  method ApplyState<W>(pl: Plugins<W>, w: W, prm: Params, chains: PluginChains, data: NodeData)
    returns (report: Report, error: Option<Error>, ghost sent: seq<Send>, w': W)
    modifies data`notifications
    ensures Apply(pl, w, prm, chains, old(data.Value())) == Applied(report, error, data.notifications, sent, w')
  {
    report := Report(prm.profile, prm.state, prm.state, false, None, None);
    sent, w' := [], w;
    if prm.profile !in data.profiles {
      return report, Some(Plain(MissingProfile)), sent, w';
    }
    var pd := data.profiles[prm.profile];
    if pd.previous != pd.current {
      var e := TriggerChainExecute(pl, w', prm, chains.enter);
      w' := e.world;
      if e.error.Some? {
        error := Some(if IsRetry(e.error.value) then e.error.value else Wrapped(EnterFailed, e.error.value));
        return;
      }
      report := report.(entered := true);
    }
    error, sent, w' := data.NotifyDefault(pl, w', prm, chains.notification);
    if error.Some? {
      error := Some(Wrapped(NotifyFailed, error.value));
      return;
    }
    var d := TransitionDefault(pl, w', prm, chains.transitions);
    w' := d.world;
    report := report.(pick := d.pick);
    if d.error.Some? {
      error := Some(Wrapped(CheckFailed, d.error.value));
      return;
    }
    if d.next != prm.state {
      var t := Trigger(pl, w', prm, chains.transitions, d.next);
      w' := t.world;
      report := report.(ran := FirstTo(chains.transitions, d.next));
      if t.error.Some? {
        error := Some(Wrapped(TriggerFailed, t.error.value));
        return;
      }
      report := report.(next := d.next);
    }
  }
}
