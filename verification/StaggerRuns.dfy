/** The stagger promise over runs: in any window as long as the lease duration at most `parallel`
    transitions happen whose check expression needs the stagger instance. */
module StaggerRuns {

  import opened Errors
  import opened CheckExpressions
  import opened Plugins
  import opened States
  import opened Handler
  import opened Passes
  import opened Worlds
  import opened Stagger

  /** Instance `name` works on the leases seen through `st`; nothing else touches them. */
  ghost predicate Wired<W(!new)>(pl: Plugins<W>, st: W -> State, u: Setup, name: string)
  {
    && (forall w, p :: CheckStep(u, st(w), pl.check(w, p, name).0, st(pl.check(w, p, name).1)))
    && (forall w, p :: HookStep(u, st(w), pl.onTransition(w, p, name).0, st(pl.onTransition(w, p, name).1)))
    && (forall w, p, x :: x != name ==> Quiet(st(w), st(pl.check(w, p, x).1)))
    && (forall w, p, x :: x != name ==> Quiet(st(w), st(pl.onTransition(w, p, x).1)))
    && ActionsRespect(pl, Quietly(st))
  }

  function Quietly<W>(st: W -> State): (W, W) -> bool
  {
    (a: W, b: W) => Quiet(st(a), st(b))
  }

  // ---- the checks of one decision ----

  /** After a check that did not error, the choice is either a free lease or none. */
  predicate Chosen(u: Setup, s: State) { Ready(u, s) || s.grab == NO_GRAB }

  lemma CheckKeepsReady(u: Setup, s: State, o: CheckOutcome, s': State)
    requires CheckStep(u, s, o, s') && Ready(u, s) && o != Errored
    ensures Ready(u, s')
  {
    assert s.grab in s'.leases && s'.leases[s.grab] == s.leases[s.grab];
  }

  lemma {:induction false} ChecksExtend<W(!new)>(pl: Plugins<W>, st: W -> State, u: Setup, name: string, w: W, prm: Params, names: seq<string>, n: nat)
    requires Wired(pl, st, u, name) && n <= |names|
    ensures var r := RunChecks(pl, w, prm, names, n);
      && Extends(u, st(w), st(r.world))
      && (Errored !in r.outcomes && Ready(u, st(w)) ==> Ready(u, st(r.world)))
      && (Errored !in r.outcomes && (name in names[..n] || Chosen(u, st(w))) ==> Chosen(u, st(r.world)))
      && (Errored !in r.outcomes && (exists k :: 0 <= k < n && names[k] == name && r.outcomes[k] == Passed) ==> Ready(u, st(r.world)))
  {
    if n > 0 {
      ChecksExtend(pl, st, u, name, w, prm, names, n - 1);
      var r := RunChecks(pl, w, prm, names, n - 1);
      var (o, v) := pl.check(r.world, prm, names[n - 1]);
      assert names[..n] == names[..n - 1] + [names[n - 1]];
      if names[n - 1] == name {
        assert CheckStep(u, st(r.world), o, st(v));
        if Ready(u, st(r.world)) && o != Errored {
          CheckKeepsReady(u, st(r.world), o, st(v));
        }
      } else {
        assert Quiet(st(r.world), st(v));
      }
    }
  }

  lemma ExecuteExtends<W(!new)>(pl: Plugins<W>, st: W -> State, u: Setup, name: string, w: W, prm: Params, t: Transition)
    requires Wired(pl, st, u, name)
    ensures var r := ExecuteTransition(pl, w, prm, t);
      && Extends(u, st(w), st(r.world))
      && (r.error.None? && Ready(u, st(w)) ==> Ready(u, st(r.world)))
      && (r.error.None? && (name in t.check.plugins || Chosen(u, st(w))) ==> Chosen(u, st(r.world)))
      && (r.passed && t.check.expr.Some? && Implies(t.check.expr.value, name) ==> Ready(u, st(r.world)) && name in t.check.plugins)
  {
    var names := t.check.plugins;
    ChecksExtend(pl, st, u, name, w, prm, names, |names|);
    assert names[..|names|] == names;
    var r := ExecuteTransition(pl, w, prm, t);
    if r.passed && t.check.expr.Some? && Implies(t.check.expr.value, name) {
      var outcomes := RunChecks(pl, w, prm, names, |names|).outcomes;
      var k := ValueSource(names, outcomes, |names|, name);
    }
  }

  lemma {:induction false} ExecuteAllExtends<W(!new)>(pl: Plugins<W>, st: W -> State, u: Setup, name: string, w: W, prm: Params,
                                                      ts: seq<Transition>, n: nat, k: nat)
    requires Wired(pl, st, u, name) && n <= |ts| && k < |ts|
    ensures var x := ExecuteAll(pl, w, prm, ts, n);
      && Extends(u, st(w), st(x.world))
      && (x.errors == [] && k < n && name in ts[k].check.plugins ==> Chosen(u, st(x.world)))
      && (x.errors == [] && k < n && x.passed[k] && ts[k].check.expr.Some? && Implies(ts[k].check.expr.value, name) ==>
            Ready(u, st(x.world)) && name in ts[k].check.plugins)
  {
    hide ExecuteTransition, Implies, Wired;
    if n > 0 {
      ExecuteAllExtends(pl, st, u, name, w, prm, ts, n - 1, k);
      ExecuteExtends(pl, st, u, name, ExecuteAll(pl, w, prm, ts, n - 1).world, prm, ts[n - 1]);
    }
  }

  // ---- the hooks of the followed transition ----

  /** From a free choice, hooks either leave the leases alone or take the chosen one. */
  lemma {:induction false} HooksTake<W(!new)>(pl: Plugins<W>, st: W -> State, u: Setup, name: string, w: W, prm: Params, names: seq<string>, n: nat)
    requires Wired(pl, st, u, name) && n <= |names| && (name in names ==> Chosen(u, st(w)))
    ensures var s, r := st(w), RunHooks(pl, w, prm, names, n);
      && s.clock <= st(r.world).clock && st(r.world).grab == s.grab
      && (st(r.world).leases == s.leases || (s.grab != NO_GRAB && name in names && Taken(u, s, st(r.world))))
      && (r.error.None? && s.grab != NO_GRAB && name in names[..n] ==> Taken(u, s, st(r.world)))
  {
    if n > 0 {
      HooksTake(pl, st, u, name, w, prm, names, n - 1);
      var r := RunHooks(pl, w, prm, names, n - 1);
      assert names[..n] == names[..n - 1] + [names[n - 1]];
      if r.error.None? {
        var (e, v) := pl.onTransition(r.world, prm, names[n - 1]);
        if names[n - 1] == name {
          assert HookStep(u, st(r.world), e, st(v));
          TakenAgain(u, st(w), st(r.world), e, st(v));
        } else {
          assert Quiet(st(r.world), st(v));
        }
      }
    }
  }

  lemma TakenAgain(u: Setup, a: State, b: State, e: Option<Error>, c: State)
    requires HookStep(u, b, e, c) && a.clock <= b.clock && b.grab == a.grab && (a.grab == NO_GRAB || 0 <= a.grab)
    requires b.leases == a.leases || (a.grab != NO_GRAB && Taken(u, a, b))
    ensures c.leases == a.leases || (a.grab != NO_GRAB && Taken(u, a, c))
    ensures e.None? && a.grab != NO_GRAB ==> Taken(u, a, c)
  {}

  // ---- one decision ----

  /** The decision follows a transition that needs the instance. */
  ghost predicate Staggered<W>(d: Decision<W>, ts: seq<Transition>, name: string)
  {
    && d.error.None? && d.pick.Some? && d.pick.value < |ts|
    && ts[d.pick.value].check.expr.Some? && Implies(ts[d.pick.value].check.expr.value, name)
  }

  datatype Hold = Hold(lease: int, time: int)

  /** The lease a staggered decision holds afterwards. */
  function HoldOf(s: State): Hold
  {
    Hold(s.grab, if s.grab in s.leases then s.leases[s.grab].renew else 0)
  }

  /** A hold is new: it lies in the decision, and the lease was free when it was taken. */
  ghost predicate Fresh(u: Setup, s: State, s': State, h: Hold)
  {
    && 0 <= h.lease < u.parallel && h.lease in s'.leases
    && s'.leases[h.lease].renew == h.time && s'.leases[h.lease].seconds == WholeSeconds(u)
    && s.clock <= h.time <= s'.clock
    && (h.lease in s.leases ==> Free(s.leases[h.lease], h.time))
  }

  lemma DecisionEvolves<W(!new)>(pl: Plugins<W>, st: W -> State, u: Setup, name: string, w: W, prm: Params, ts: seq<Transition>)
    requires Wired(pl, st, u, name)
    ensures var d := Decide(pl, w, prm, ts);
      && Evolves(u, st(w), st(d.world))
      && (Staggered(d, ts, name) ==> Fresh(u, st(w), st(d.world), HoldOf(st(d.world))))
  {
    var x := ExecuteAll(pl, w, prm, ts, |ts|);
    var p := FirstPassing(x.passed);
    if x.errors == [] && p.Some? {
      var names := ts[p.value].check.plugins;
      ExecuteAllExtends(pl, st, u, name, w, prm, ts, |ts|, p.value);
      HooksTake(pl, st, u, name, x.world, prm, names, |names|);
      assert names[..|names|] == names;
      TakenEvolves(u, st(w), st(x.world), st(RunHooks(pl, x.world, prm, names, |names|).world));
    } else if |ts| > 0 {
      ExecuteAllExtends(pl, st, u, name, w, prm, ts, |ts|, 0);
    }
  }

  lemma TakenEvolves(u: Setup, a: State, b: State, c: State)
    requires Extends(u, a, b) && b.clock <= c.clock && c.grab == b.grab
    requires c.leases == b.leases || (Ready(u, b) && Taken(u, b, c))
    ensures Evolves(u, a, c)
    ensures Ready(u, b) && Taken(u, b, c) ==> Fresh(u, a, c, HoldOf(c))
  {}

  // ---- one pass ----

  /** The holds of the first n profiles of a pass, whether or not the pass is committed later. */
  ghost function HoldsIn<W>(pl: Plugins<W>, st: W -> State, name: string, w: W, states: seq<ProfileState>,
                            profiles: map<string, ProfileData>, notes: map<string, nat>, n: nat): seq<Hold>
    requires n <= |states| && StatesPresent(states, profiles)
  {
    if n == 0 then []
    else
      HoldsIn(pl, st, name, w, states, profiles, notes, n - 1) +
      StepHolds(pl, st, name, states[n - 1], AnyInMaintenance(states), profiles, Collect(pl, w, states, profiles, notes, n - 1))
  }

  ghost function StepHolds<W>(pl: Plugins<W>, st: W -> State, name: string, ps: ProfileState, flag: bool,
                              profiles: map<string, ProfileData>, c: Collected<W>): seq<Hold>
    requires ps.profile.name in profiles
  {
    if ps.state.Unknown? then []
    else HoldsOf(pl, st, name, c.world, ParamsFor(ps, flag, profiles), ChainsOf(ps.profile, ps.state), Data(profiles, c.notes))
  }

  ghost function HoldsOf<W>(pl: Plugins<W>, st: W -> State, name: string, w: W, prm: Params, chains: PluginChains, data: Data): seq<Hold>
    requires prm.profile in data.profiles
  {
    var p := RunPrelude(pl, w, prm, chains, data.profiles[prm.profile], data.notifications);
    var d := Decide(pl, p.world, prm, chains.transitions);
    if p.error.None? && Staggered(d, chains.transitions, name) then [HoldOf(st(d.world))] else []
  }

  /** Every hold is still visible in its lease, and holds of one lease lie more than the duration apart. */
  ghost predicate Spaced(u: Setup, holds: seq<Hold>, s: State)
  {
    && (forall i :: 0 <= i < |holds| ==> Visible(u, holds[i], s))
    && (forall i, j :: 0 <= i < j < |holds| && holds[i].lease == holds[j].lease ==>
          holds[j].time - holds[i].time > WholeSeconds(u) * SECOND)
  }

  predicate Visible(u: Setup, h: Hold, s: State)
  {
    && 0 <= h.lease < u.parallel && h.lease in s.leases
    && s.leases[h.lease].renew >= h.time && s.leases[h.lease].seconds == WholeSeconds(u)
  }

  lemma SpacedEvolves(u: Setup, holds: seq<Hold>, s: State, s': State)
    requires Spaced(u, holds, s) && Evolves(u, s, s')
    ensures Spaced(u, holds, s')
  {
    forall i | 0 <= i < |holds| ensures Visible(u, holds[i], s') {
      assert Visible(u, holds[i], s);
    }
  }

  lemma SpacedGrows(u: Setup, holds: seq<Hold>, s: State, s': State, h: Hold)
    requires Spaced(u, holds, s) && Evolves(u, s, s') && Fresh(u, s, s', h)
    ensures Spaced(u, holds + [h], s')
  {
    SpacedEvolves(u, holds, s, s');
    forall i | 0 <= i < |holds| && holds[i].lease == h.lease ensures h.time - holds[i].time > WholeSeconds(u) * SECOND {
      assert Visible(u, holds[i], s);
    }
  }

  lemma ApplySpaced<W(!new)>(pl: Plugins<W>, st: W -> State, u: Setup, name: string, w: W, prm: Params, chains: PluginChains,
                             data: Data, holds: seq<Hold>)
    requires Wired(pl, st, u, name) && prm.profile in data.profiles && Spaced(u, holds, st(w))
    ensures Spaced(u, holds + HoldsOf(pl, st, name, w, prm, chains, data), st(Apply(pl, w, prm, chains, data).world))
  {
    var ts := chains.transitions;
    PreludeRespects(pl, Quietly(st), w, prm, chains, data.profiles[prm.profile], data.notifications);
    var v := DecidingWorld(pl, w, prm, chains, data);
    QuietEvolves(u, st(w), st(v));
    SpacedEvolves(u, holds, st(w), st(v));
    DecisionEvolves(pl, st, u, name, v, prm, ts);
    var d := Decide(pl, v, prm, ts);
    SpacedEvolves(u, holds, st(v), st(d.world));
    var all := holds + HoldsOf(pl, st, name, w, prm, chains, data);
    if HoldsOf(pl, st, name, w, prm, chains, data) == [] {
      assert all == holds;
    } else {
      SpacedGrows(u, holds, st(v), st(d.world), HoldOf(st(d.world)));
    }
    RunTriggersToRespects(pl, Quietly(st), d.world, prm, ts, d.next);
    var t := RunTriggersTo(pl, d.world, prm, ts, d.next);
    QuietEvolves(u, st(d.world), st(t.world));
    SpacedEvolves(u, all, st(d.world), st(t.world));
  }

  lemma StepSpaced<W(!new)>(pl: Plugins<W>, st: W -> State, u: Setup, name: string, ps: ProfileState, flag: bool,
                            profiles: map<string, ProfileData>, c: Collected<W>, holds: seq<Hold>)
    requires Wired(pl, st, u, name) && ps.profile.name in profiles && Spaced(u, holds, st(c.world))
    ensures Spaced(u, holds + StepHolds(pl, st, name, ps, flag, profiles, c), st(CollectStep(pl, ps, flag, profiles, c).world))
  {
    if ps.state.Unknown? {
      assert holds + [] == holds;
    } else {
      ApplySpaced(pl, st, u, name, c.world, ParamsFor(ps, flag, profiles), ChainsOf(ps.profile, ps.state), Data(profiles, c.notes), holds);
    }
  }

  lemma {:induction false} CollectSpaced<W(!new)>(pl: Plugins<W>, st: W -> State, u: Setup, name: string, w: W, states: seq<ProfileState>,
      profiles: map<string, ProfileData>, notes: map<string, nat>, n: nat, holds: seq<Hold>)
    requires Wired(pl, st, u, name) && n <= |states| && StatesPresent(states, profiles) && Spaced(u, holds, st(w))
    ensures Spaced(u, holds + HoldsIn(pl, st, name, w, states, profiles, notes, n), st(Collect(pl, w, states, profiles, notes, n).world))
  {
    hide StepHolds, CollectStep, Spaced, Wired;
    if n == 0 {
      assert holds + [] == holds;
    } else {
      CollectSpaced(pl, st, u, name, w, states, profiles, notes, n - 1, holds);
      var c, flag := Collect(pl, w, states, profiles, notes, n - 1), AnyInMaintenance(states);
      var before := HoldsIn(pl, st, name, w, states, profiles, notes, n - 1);
      StepSpaced(pl, st, u, name, states[n - 1], flag, profiles, c, holds + before);
      Assoc(holds, before, StepHolds(pl, st, name, states[n - 1], flag, profiles, c));
    }
  }

  lemma Assoc(a: seq<Hold>, b: seq<Hold>, c: seq<Hold>)
    ensures a + (b + c) == (a + b) + c
  {}

  // ---- runs of passes over any nodes ----

  datatype Job<!W> = Job(pl: Plugins<W>, w: W, cfg: Config, node: NodeObject)

  ghost function JobHolds<W>(st: W -> State, name: string, j: Job<W>): seq<Hold>
  {
    if j.node.stored.Garbled? then []
    else
      var t, states := Maintained(j.pl, j.w, j.cfg, j.node), Snapshot(j.pl, j.w, j.cfg, j.node);
      HoldsIn(j.pl, st, name, t.world, states, t.profiles, DataOf(j.node).notifications, |states|)
  }

  lemma JobSpaced<W(!new)>(st: W -> State, u: Setup, name: string, j: Job<W>, holds: seq<Hold>)
    requires Wired(j.pl, st, u, name) && Spaced(u, holds, st(j.w))
    ensures Spaced(u, holds + JobHolds(st, name, j), st(RunPass(j.pl, j.w, j.cfg, j.node).world))
  {
    if j.node.stored.Garbled? {
      assert holds + [] == holds;
    } else {
      var t, states, r := Maintained(j.pl, j.w, j.cfg, j.node), Snapshot(j.pl, j.w, j.cfg, j.node), Quietly(st);
      var notes := DataOf(j.node).notifications;
      var ps := Active(Tag(j.node), j.cfg);
      AddNewRespects(j.pl, r, j.w, Kept(DataOf(j.node).profiles, Effective(Tag(j.node))), ps, |ps|);
      QuietEvolves(u, st(j.w), st(t.world));
      SpacedEvolves(u, holds, st(j.w), st(t.world));
      CollectSpaced(j.pl, st, u, name, t.world, states, t.profiles, notes, |states|, holds);
      CommitQuiet(st, u, j, holds + JobHolds(st, name, j));
    }
  }

  lemma CommitQuiet<W(!new)>(st: W -> State, u: Setup, j: Job<W>, holds: seq<Hold>)
    requires !j.node.stored.Garbled? && ActionsRespect(j.pl, Quietly(st))
    requires var t, states := Maintained(j.pl, j.w, j.cfg, j.node), Snapshot(j.pl, j.w, j.cfg, j.node);
      Spaced(u, holds, st(Collect(j.pl, t.world, states, t.profiles, DataOf(j.node).notifications, |states|).world))
    ensures Spaced(u, holds, st(RunPass(j.pl, j.w, j.cfg, j.node).world))
  {
    hide Collect, Commit, Spaced, ErrorsOf, ReportsOf, RetryingOf, Maintained;
    var t, states := Maintained(j.pl, j.w, j.cfg, j.node), Snapshot(j.pl, j.w, j.cfg, j.node);
    var c := Collect(j.pl, t.world, states, t.profiles, DataOf(j.node).notifications, |states|);
    Aligned(c.tries);
    if ErrorsOf(c.tries) == [] {
      CommitRespects(j.pl, Quietly(st), c.world, states, ReportsOf(c.tries), RetryingOf(c.tries), t.profiles, |states|);
      var e := Commit(j.pl, c.world, states, ReportsOf(c.tries), RetryingOf(c.tries), t.profiles, |states|);
      QuietEvolves(u, st(c.world), st(e.world));
      SpacedEvolves(u, holds, st(c.world), st(e.world));
    }
  }

  /** Between two passes the leases stay and the clock does not run backwards; the plugin is made anew. */
  predicate Follows(s: State, s': State) { s'.leases == s.leases && s.clock <= s'.clock }

  ghost predicate Sequential<W(!new)>(st: W -> State, u: Setup, name: string, jobs: seq<Job<W>>)
  {
    && (forall k :: 0 <= k < |jobs| ==> Wired(jobs[k].pl, st, u, name))
    && (forall k :: 0 < k < |jobs| ==> LinkedAt(st, jobs, k))
  }

  ghost predicate LinkedAt<W>(st: W -> State, jobs: seq<Job<W>>, k: nat)
    requires 0 < k < |jobs|
  {
    var j := jobs[k - 1];
    Follows(st(RunPass(j.pl, j.w, j.cfg, j.node).world), st(jobs[k].w))
  }

  ghost function HoldsBefore<W>(st: W -> State, name: string, jobs: seq<Job<W>>, n: nat): seq<Hold>
    requires n <= |jobs|
  {
    if n == 0 then [] else HoldsBefore(st, name, jobs, n - 1) + JobHolds(st, name, jobs[n - 1])
  }

  lemma {:induction false} RunSpaced<W(!new)>(st: W -> State, u: Setup, name: string, jobs: seq<Job<W>>, n: nat)
    requires Sequential(st, u, name, jobs) && 0 < n <= |jobs|
    ensures var j := jobs[n - 1];
            Spaced(u, HoldsBefore(st, name, jobs, n), st(RunPass(j.pl, j.w, j.cfg, j.node).world))
  {
    var holds := HoldsBefore(st, name, jobs, n - 1);
    if n > 1 {
      RunSpaced(st, u, name, jobs, n - 1);
      assert LinkedAt(st, jobs, n - 1);
      var j := jobs[n - 2];
      FollowsEvolves(u, holds, st(RunPass(j.pl, j.w, j.cfg, j.node).world), st(jobs[n - 1].w));
    }
    JobSpaced(st, u, name, jobs[n - 1], holds);
  }

  lemma FollowsEvolves(u: Setup, holds: seq<Hold>, s: State, s': State)
    requires Spaced(u, holds, s) && Follows(s, s')
    ensures Spaced(u, holds, s')
  {
    SpacedEvolves(u, holds, s, s');
  }

  // ---- the sliding window ----

  function InWindow(holds: seq<Hold>, from: int, length: int): set<int>
  {
    set i | 0 <= i < |holds| && from <= holds[i].time <= from + length
  }

  lemma {:induction false} Injective(ids: set<int>, f: map<int, int>, bound: int)
    requires ids <= f.Keys && forall i :: i in ids ==> 0 <= f[i] < bound
    requires forall i, j :: i in ids && j in ids && f[i] == f[j] ==> i == j
    ensures |ids| <= if bound < 0 then 0 else bound
    decreases if bound < 0 then 0 else bound
  {
    if bound <= 0 {
      assert forall i :: i !in ids;
    } else if i :| i in ids && f[i] == bound - 1 {
      Injective(ids - {i}, f, bound - 1);
    } else {
      Injective(ids, f, bound - 1);
    }
  }

  /** At most `parallel` staggered transitions in any window of the length of the lease duration,
      counting also transitions of passes that are not committed. */
  lemma SlidingWindow<W(!new)>(st: W -> State, u: Setup, name: string, jobs: seq<Job<W>>, from: int)
    requires Sequential(st, u, name, jobs) && u.parallel >= 0
    ensures |InWindow(HoldsBefore(st, name, jobs, |jobs|), from, WholeSeconds(u) * SECOND)| <= u.parallel
  {
    hide RunPass, Sequential, Spaced;
    var holds := HoldsBefore(st, name, jobs, |jobs|);
    var ids := InWindow(holds, from, WholeSeconds(u) * SECOND);
    if jobs != [] {
      RunSpaced(st, u, name, jobs, |jobs|);
      var j := jobs[|jobs| - 1];
      WindowOf(u, holds, st(RunPass(j.pl, j.w, j.cfg, j.node).world), from);
    } else {
      assert ids == {};
    }
  }

  lemma WindowOf(u: Setup, holds: seq<Hold>, s: State, from: int)
    requires Spaced(u, holds, s) && u.parallel >= 0
    ensures |InWindow(holds, from, WholeSeconds(u) * SECOND)| <= u.parallel
  {
    var ids := InWindow(holds, from, WholeSeconds(u) * SECOND);
    var f := map i | 0 <= i < |holds| :: holds[i].lease;
    forall i | i in ids ensures 0 <= f[i] < u.parallel {
      assert Visible(u, holds[i], s);
    }
    Injective(ids, f, u.parallel);
  }
}
