/** Loading profiles from their descriptors, with an early return at the first error. */
module Configuration {

  import opened Errors
  import opened Strings
  import opened Labels
  import opened CheckExpressions
  import opened States
  import opened Runs

  datatype TransitionDescriptor = TransitionDescriptor(check: string, next: string, trigger: string)

  datatype StateDescriptor = StateDescriptor(enter: string, notify: string, transitions: seq<TransitionDescriptor>)

  datatype ProfileDescriptor = ProfileDescriptor(
    name: string, operational: StateDescriptor, maintenanceRequired: StateDescriptor, inMaintenance: StateDescriptor)

  /** The known instances; `parse` stands for the expression library. */
  datatype Registry = Registry(
    checks: set<string>, notifications: map<string, NotificationInstance>, triggers: set<string>, parse: string -> Option<Expr>)

  const AND := "&&"

  // ---- chains of names ----

  function Trimmed(parts: seq<string>, n: nat): (r: seq<string>)
    requires n <= |parts|
    ensures |r| == n && forall i :: 0 <= i < n ==> r[i] == Trim(parts[i])
  {
    if n == 0 then [] else Trimmed(parts, n - 1) + [Trim(parts[n - 1])]
  }

  /** The instance names in the text of a trigger or notification chain. */
  function ChainNames(config: string): seq<string>
  {
    if config == "" then [] else Trimmed(Split(config, AND), |Split(config, AND)|)
  }

  method NewTriggerChain(config: string, reg: Registry) returns (r: Result<seq<string>>)
    ensures r.Ok? <==> forall x :: x in ChainNames(config) ==> x in reg.triggers
    ensures r.Ok? ==> r.value == ChainNames(config)
  {
    if config == "" {
      return Ok([]);
    }
    var parts := Split(config, AND);
    var plugins := [];
    for k := 0 to |parts|
      invariant plugins == Trimmed(parts, k)
      invariant forall x :: x in plugins ==> x in reg.triggers
    {
      if Trim(parts[k]) !in reg.triggers {
        assert ChainNames(config)[k] == Trim(parts[k]);
        return Err(Plain(UnknownInstance));
      }
      plugins := plugins + [Trim(parts[k])];
    }
    r := Ok(plugins);
  }

  method NewNotificationChain(config: string, reg: Registry) returns (r: Result<seq<NotificationInstance>>)
    ensures r.Ok? <==> forall x :: x in ChainNames(config) ==> x in reg.notifications
    ensures r.Ok? ==> |r.value| == |ChainNames(config)|
    ensures r.Ok? ==> forall k :: 0 <= k < |r.value| ==>
      ChainNames(config)[k] in reg.notifications && r.value[k] == reg.notifications[ChainNames(config)[k]]
  {
    if config == "" {
      return Ok([]);
    }
    var parts := Split(config, AND);
    var plugins := [];
    for k := 0 to |parts|
      invariant |plugins| == k
      invariant forall j :: 0 <= j < k ==> Trim(parts[j]) in reg.notifications && plugins[j] == reg.notifications[Trim(parts[j])]
    {
      if Trim(parts[k]) !in reg.notifications {
        assert ChainNames(config)[k] == Trim(parts[k]);
        return Err(Plain(UnknownInstance));
      }
      plugins := plugins + [reg.notifications[Trim(parts[k])]];
    }
    r := Ok(plugins);
  }

  // ---- what can be loaded ----

  ghost predicate CheckLoads(config: string, reg: Registry)
  {
    config == "" || ((forall n :: n in Names(config) ==> n in reg.checks) && reg.parse(config).Some?)
  }

  ghost predicate TransitionLoads(t: TransitionDescriptor, reg: Registry)
  {
    && CheckLoads(t.check, reg)
    && (forall x :: x in ChainNames(t.trigger) ==> x in reg.triggers)
    && t.next in {OPERATIONAL, REQUIRED, IN_MAINTENANCE}
  }

  ghost predicate StateLoads(d: StateDescriptor, reg: Registry)
  {
    && (forall x :: x in ChainNames(d.notify) ==> x in reg.notifications)
    && (forall x :: x in ChainNames(d.enter) ==> x in reg.triggers)
    && forall k :: 0 <= k < |d.transitions| ==> TransitionLoads(d.transitions[k], reg)
  }

  ghost predicate ProfileLoads(p: ProfileDescriptor, reg: Registry)
  {
    StateLoads(p.operational, reg) && StateLoads(p.maintenanceRequired, reg) && StateLoads(p.inMaintenance, reg)
  }

  /** The transition says what its descriptor says. */
  ghost predicate Says(t: Transition, d: TransitionDescriptor, reg: Registry)
  {
    && t.check == (if d.check == "" then CheckChain([], None) else CheckChain(Names(d.check), reg.parse(d.check)))
    && t.trigger == ChainNames(d.trigger) && Text(t.next) == d.next && !t.next.Unknown?
  }

  ghost predicate Loaded(c: PluginChains, d: StateDescriptor, reg: Registry)
  {
    && c.enter == ChainNames(d.enter)
    && |c.notification| == |ChainNames(d.notify)|
    && (forall k :: 0 <= k < |c.notification| ==>
          ChainNames(d.notify)[k] in reg.notifications && c.notification[k] == reg.notifications[ChainNames(d.notify)[k]])
    && |c.transitions| == |d.transitions|
    && forall k :: 0 <= k < |c.transitions| ==> Says(c.transitions[k], d.transitions[k], reg)
  }

  method LoadTransition(d: TransitionDescriptor, reg: Registry) returns (r: Result<Transition>)
    ensures r.Ok? <==> TransitionLoads(d, reg)
    ensures r.Ok? ==> Says(r.value, d, reg)
  {
    var check := NewCheckChain(d.check, reg.checks, reg.parse);
    if check.Err? {
      return Err(check.error);
    }
    var trigger := NewTriggerChain(d.trigger, reg);
    if trigger.Err? {
      return Err(trigger.error);
    }
    var next := ValidateLabel(d.next);
    if next.Err? {
      return Err(next.error);
    }
    r := Ok(Transition(check.value, trigger.value, next.value));
  }

  method LoadPluginChains(d: StateDescriptor, reg: Registry) returns (r: Result<PluginChains>)
    ensures r.Ok? <==> StateLoads(d, reg)
    ensures r.Ok? ==> Loaded(r.value, d, reg)
  {
    var notification := NewNotificationChain(d.notify, reg);
    if notification.Err? {
      return Err(notification.error);
    }
    var enter := NewTriggerChain(d.enter, reg);
    if enter.Err? {
      return Err(enter.error);
    }
    var transitions := [];
    for k := 0 to |d.transitions|
      invariant |transitions| == k
      invariant forall j :: 0 <= j < k ==> TransitionLoads(d.transitions[j], reg) && Says(transitions[j], d.transitions[j], reg)
    {
      var t := LoadTransition(d.transitions[k], reg);
      if t.Err? {
        return Err(t.error);
      }
      transitions := transitions + [t.value];
    }
    r := Ok(PluginChains(enter.value, notification.value, transitions));
  }

  // ---- profiles ----

  ghost predicate ProfileIs(p: Profile, d: ProfileDescriptor, reg: Registry)
  {
    && p.name == d.name && p.chains.Keys == {Operational, Required, InMaintenance}
    && Loaded(p.chains[Operational], d.operational, reg)
    && Loaded(p.chains[Required], d.maintenanceRequired, reg)
    && Loaded(p.chains[InMaintenance], d.inMaintenance, reg)
  }

  method LoadProfile(d: ProfileDescriptor, reg: Registry) returns (r: Result<Profile>)
    ensures r.Ok? <==> ProfileLoads(d, reg)
    ensures r.Ok? ==> ProfileIs(r.value, d, reg)
  {
    var operational := LoadPluginChains(d.operational, reg);
    if operational.Err? {
      return Err(operational.error);
    }
    var required := LoadPluginChains(d.maintenanceRequired, reg);
    if required.Err? {
      return Err(required.error);
    }
    var maintenance := LoadPluginChains(d.inMaintenance, reg);
    if maintenance.Err? {
      return Err(maintenance.error);
    }
    r := Ok(Profile(d.name, map[Operational := operational.value, Required := required.value, InMaintenance := maintenance.value]));
  }

  function EmptyProfile(): Profile
  {
    var none := PluginChains([], [], []);
    Profile(DEFAULT_PROFILE, map[Operational := none, InMaintenance := none, Required := none])
  }

  /** The last of the first n descriptors with a name. */
  function LastNamed(ds: seq<ProfileDescriptor>, name: string, n: nat): (r: Option<ProfileDescriptor>)
    requires n <= |ds|
    ensures r.Some? <==> exists k :: 0 <= k < n && ds[k].name == name
  {
    if n == 0 then None else if ds[n - 1].name == name then Some(ds[n - 1]) else LastNamed(ds, name, n - 1)
  }

  /** Every name gets its last descriptor, and the default profile exists even without one. */
  ghost predicate MapIs(cfg: Config, ds: seq<ProfileDescriptor>, reg: Registry, n: nat)
    requires n <= |ds|
  {
    forall x :: EntryIs(if x in cfg then Some(cfg[x]) else None, x, LastNamed(ds, x, n), reg)
  }

  ghost predicate EntryIs(entry: Option<Profile>, name: string, last: Option<ProfileDescriptor>, reg: Registry)
  {
    match last
    case Some(d) => entry.Some? && ProfileIs(entry.value, d, reg)
    case None => entry == if name == DEFAULT_PROFILE then Some(EmptyProfile()) else None
  }

  /** The profiles load exactly if every descriptor is sound. */
  method LoadProfiles(ds: seq<ProfileDescriptor>, reg: Registry) returns (r: Result<Config>)
    ensures r.Ok? <==> forall k :: 0 <= k < |ds| ==> ProfileLoads(ds[k], reg)
    ensures r.Ok? ==> MapIs(r.value, ds, reg, |ds|)
  {
    var profiles: Config := map[DEFAULT_PROFILE := EmptyProfile()];
    MapStart(ds, reg);
    hide MapIs, ProfileIs, ProfileLoads, EmptyProfile;
    for k := 0 to |ds|
      invariant forall j :: 0 <= j < k ==> ProfileLoads(ds[j], reg)
      invariant MapIs(profiles, ds, reg, k)
    {
      var p := LoadProfile(ds[k], reg);
      if p.Err? {
        return Err(p.error);
      }
      MapStep(profiles, p.value, ds, reg, k);
      profiles := profiles[ds[k].name := p.value];
    }
    r := Ok(profiles);
  }

  lemma MapStart(ds: seq<ProfileDescriptor>, reg: Registry)
    ensures MapIs(map[DEFAULT_PROFILE := EmptyProfile()], ds, reg, 0)
  {}

  lemma MapStep(cfg: Config, p: Profile, ds: seq<ProfileDescriptor>, reg: Registry, k: nat)
    requires k < |ds| && MapIs(cfg, ds, reg, k) && ProfileIs(p, ds[k], reg)
    ensures MapIs(cfg[ds[k].name := p], ds, reg, k + 1)
  {
    hide ProfileIs, EmptyProfile;
    var after := cfg[ds[k].name := p];
    forall x ensures EntryIs(if x in after then Some(after[x]) else None, x, LastNamed(ds, x, k + 1), reg) {
      assert EntryIs(if x in cfg then Some(cfg[x]) else None, x, LastNamed(ds, x, k), reg);
    }
  }

  /** Whatever is loaded is a configuration on which every run stays well formed: profiles carry the
      name they are stored under, have all three states, and lead only to known states; the default
      profile is always there. */
  lemma LoadedIsWellFormed(cfg: Config, ds: seq<ProfileDescriptor>, reg: Registry)
    requires MapIs(cfg, ds, reg, |ds|)
    ensures WellFormedConfig(cfg) && DEFAULT_PROFILE in cfg
    ensures forall x :: x in cfg ==> cfg[x].chains.Keys == {Operational, Required, InMaintenance}
  {
    var x0 := DEFAULT_PROFILE;
    assert EntryIs(if x0 in cfg then Some(cfg[x0]) else None, x0, LastNamed(ds, x0, |ds|), reg);
    forall x | x in cfg
      ensures cfg[x].name == x && cfg[x].chains.Keys == {Operational, Required, InMaintenance}
      ensures forall l, k :: 0 <= k < |ChainsOf(cfg[x], l).transitions| ==> !ChainsOf(cfg[x], l).transitions[k].next.Unknown?
    {
      var d := LastNamed(ds, x, |ds|);
      assert EntryIs(Some(cfg[x]), x, d, reg);
      if d.Some? {
        LastHasName(ds, x, |ds|);
        LeadsToKnown(cfg[x], d.value, reg);
      }
    }
  }

  lemma {:induction false} LastHasName(ds: seq<ProfileDescriptor>, name: string, n: nat)
    requires n <= |ds| && LastNamed(ds, name, n).Some?
    ensures LastNamed(ds, name, n).value.name == name
  {
    if ds[n - 1].name != name {
      LastHasName(ds, name, n - 1);
    }
  }

  lemma LeadsToKnown(p: Profile, d: ProfileDescriptor, reg: Registry)
    requires ProfileIs(p, d, reg)
    ensures forall l, k :: 0 <= k < |ChainsOf(p, l).transitions| ==> !ChainsOf(p, l).transitions[k].next.Unknown?
  {
    forall l, k | 0 <= k < |ChainsOf(p, l).transitions| ensures !ChainsOf(p, l).transitions[k].next.Unknown? {
      var d' := match l case Operational => d.operational case Required => d.maintenanceRequired case _ => d.inMaintenance;
      assert l in p.chains;
      assert Says(p.chains[l].transitions[k], d'.transitions[k], reg);
    }
  }

  // ---- the text of a chain ----

  /** A trimmed name that is not cut short by a separator, as in `a&b` but not in `a&`. */
  predicate PlainName(x: string)
  {
    x != "" && x[0] != ' ' && x[|x| - 1] != ' ' && Uncut(x, AND)
  }

  function Padded(names: seq<string>): (r: seq<string>)
    ensures |r| == |names| && forall i :: 0 <= i < |names| ==> r[i] == " " + names[i] + " "
  {
    seq(|names|, i requires 0 <= i < |names| => " " + names[i] + " ")
  }

  /** A chain written with its names between `&&`, with or without a space around them, names exactly
      those instances in that order. */
  lemma ChainRoundTrip(names: seq<string>)
    requires names != [] && forall i :: 0 <= i < |names| ==> PlainName(names[i])
    ensures ChainNames(Join(names, AND)) == names
    ensures ChainNames(Join(Padded(names), AND)) == names
  {
    forall i | 0 <= i < |names| ensures Stands(names[i], names[i]) && Stands(Padded(names)[i], names[i]) {
      assert PlainName(names[i]);
      PlainStands(names[i]);
    }
    hide Stands;
    NamesOfJoined(names, names);
    NamesOfJoined(Padded(names), names);
  }

  predicate Stands(part: string, name: string)
  {
    part != "" && Uncut(part, AND) && Index(part, AND).None? && Trim(part) == name
  }

  lemma NamesOfJoined(parts: seq<string>, names: seq<string>)
    requires parts != [] && |parts| == |names| && forall i :: 0 <= i < |parts| ==> Stands(parts[i], names[i])
    ensures ChainNames(Join(parts, AND)) == names
  {
    hide Split, Trim, Uncut, Index;
    assert Stands(parts[0], names[0]) && Stands(parts[|parts| - 1], names[|parts| - 1]);
    JoinRoundTrip(parts, AND);
  }

  lemma PlainStands(x: string)
    requires PlainName(x)
    ensures Stands(x, x) && Stands(" " + x + " ", x)
  {
    var s := " " + x + " ";
    NoSeparator(x, x, 0);
    NoSeparator(x, s, 1);
    assert s[1..] == x + " ";
    assert (x + " ")[..|x|] == x;
    assert Trim(x + " ") == Trim(x);
  }

  /** Between spaces there is no separator either. */
  lemma NoSeparator(x: string, s: string, off: nat)
    requires PlainName(x) && ((s == x && off == 0) || (s == " " + x + " " && off == 1))
    ensures Uncut(s, AND) && Index(s, AND).None?
  {
    var t := s + AND;
    forall k | 0 <= k < |s| ensures !OccursAt(t, AND, k) && !OccursAt(s, AND, k) {
      if off <= k < off + |x| {
        IndexLeftmost(x + AND, AND, 0, k - off);
        assert (x + AND)[k - off] == t[k];
        assert off == 1 && k == off + |x| - 1 ==> t[k + 1] == ' ';
        assert k + 1 < off + |x| ==> (x + AND)[k - off + 1] == t[k + 1];
        PairAt(x + AND, k - off);
      }
      PairAt(t, k);
      assert k + 1 < |s| ==> s[k] == t[k] && s[k + 1] == t[k + 1];
      if k + 1 < |s| { PairAt(s, k); }
    }
    PairAt(t, |s|);
    IndexIs(t, AND, 0, |s|);
    NoIndex(s, AND, 0);
  }

  lemma PairAt(s: string, k: nat)
    ensures OccursAt(s, AND, k) <==> k + 2 <= |s| && s[k] == '&' && s[k + 1] == '&'
  {
    if k + 2 <= |s| {
      assert s[k..k + 2] == [s[k], s[k + 1]];
    }
  }

  lemma {:induction false} NoIndex(s: string, sep: string, from: nat)
    requires sep != "" && from <= |s| && forall k :: from <= k < |s| ==> !OccursAt(s, sep, k)
    ensures Index(s, sep, from).None?
    decreases |s| - from
  {
    if from < |s| {
      NoIndex(s, sep, from + 1);
    }
  }
}
