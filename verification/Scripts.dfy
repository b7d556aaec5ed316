/** Which transitions of a state can be followed at all, read off its configuration, and plugins that
    follow a script, with which every such transition is followed. */
module Scripts {

  import opened Errors
  import opened Labels
  import opened CheckExpressions
  import opened Plugins
  import opened States
  import opened Passes

  // ---- a static condition ----

  /** Some answers of its instances make the chain say `verdict`. */
  ghost predicate CanAnswer(chain: CheckChain, verdict: bool)
  {
    if chain.expr.None? then verdict && chain.plugins == []
    else exists values: map<string, bool> :: Answering(chain, values, verdict)
  }

  ghost predicate Answering(chain: CheckChain, values: map<string, bool>, verdict: bool)
    requires chain.expr.Some?
  {
    (forall x :: x in values <==> x in chain.plugins) && Eval(chain.expr.value, values) == Some(verdict)
  }

  /** The flag keeps the transition from passing. */
  predicate Vetoed(t: Transition, flag: bool) { t.next == InMaintenance && flag }

  /** Transition k can pass, and nothing in front of it has to pass. */
  ghost predicate Followable(ts: seq<Transition>, k: nat, flag: bool)
  {
    && k < |ts| && !Vetoed(ts[k], flag) && CanAnswer(ts[k].check, true)
    && forall j :: 0 <= j < k ==> Vetoed(ts[j], flag) || CanAnswer(ts[j].check, false)
  }

  lemma AnswerWasPossible<W>(pl: Plugins<W>, w: W, prm: Params, chain: CheckChain)
    requires ExecuteChecks(pl, w, prm, chain).error.None?
    ensures CanAnswer(chain, ExecuteChecks(pl, w, prm, chain).passed)
  {
    if chain.expr.Some? {
      var names := chain.plugins;
      var r := RunChecks(pl, w, prm, names, |names|);
      ValuesKeys(names, r.outcomes, |names|);
      assert names[..|names|] == names;
      assert Answering(chain, Values(names, r.outcomes, |names|), ExecuteChecks(pl, w, prm, chain).passed);
    }
  }

  /** Whatever the plugins do, a followed transition is one that can be followed. */
  lemma FollowedIsFollowable<W>(pl: Plugins<W>, w: W, prm: Params, ts: seq<Transition>)
    requires var d := Decide(pl, w, prm, ts); d.error.None? && d.next != prm.state
    ensures var d := Decide(pl, w, prm, ts);
      d.pick.Some? && Followable(ts, d.pick.value, prm.inMaintenance) && d.next == ts[d.pick.value].next
  {
    Followed(pl, w, prm, ts);
    var k := Decide(pl, w, prm, ts).pick.value;
    forall j | 0 <= j <= k ensures Vetoed(ts[j], prm.inMaintenance) || CanAnswer(ts[j].check, j == k) {
      var r := ExecutionOf(pl, w, prm, ts, j);
      assert r.passed == (j == k) && r.error.None?;
      AnswerWasPossible(pl, ExecuteAll(pl, w, prm, ts, j).world, prm, ts[j].check);
    }
  }

  // ---- plugins that follow a script ----

  /** Checks answer from a script; nothing else ever fails. */
  function Scripted(): Plugins<seq<bool>>
  {
    Plugins((w: seq<bool>, p: Params, x: string) => if w == [] then (Failed, w) else (if w[0] then Passed else Failed, w[1..]),
            (w: seq<bool>, p: Params, x: string) => (None, w),
            (w: seq<bool>, p: Params, x: string) => (None, w),
            (w: seq<bool>, p: Params, x: string) => (None, w),
            (w: seq<bool>) => (0 as nat, w),
            (w: seq<bool>, labels: map<string, string>) => labels)
  }

  /** The chain runs every instance its expression names. */
  ghost predicate Evaluable(chain: CheckChain)
  {
    match chain.expr
    case None => chain.plugins == []
    case Some(e) => forall n :: n in Leaves(e) ==> n in chain.plugins
  }

  ghost function Row(chain: CheckChain, verdict: bool): (row: seq<bool>)
    requires CanAnswer(chain, verdict)
    ensures |row| == |chain.plugins|
  {
    if chain.expr.None? then []
    else
      var values :| Answering(chain, values, verdict);
      seq(|chain.plugins|, l requires 0 <= l < |chain.plugins| => values[chain.plugins[l]])
  }

  function IdleRow(chain: CheckChain): seq<bool> { seq(|chain.plugins|, l => false) }

  lemma {:induction false} RunRow(row: seq<bool>, rest: seq<bool>, prm: Params, names: seq<string>, n: nat)
    requires |row| == |names| && n <= |names|
    ensures var r := RunChecks(Scripted(), row + rest, prm, names, n);
      && r.world == row[n..] + rest
      && forall l :: 0 <= l < n ==> r.outcomes[l] == if row[l] then Passed else Failed
  {
    if n > 0 {
      RunRow(row, rest, prm, names, n - 1);
      var w := row[n - 1..] + rest;
      assert w[0] == row[n - 1] && w[1..] == row[n..] + rest;
    }
  }

  lemma RowRuns(chain: CheckChain, row: seq<bool>, rest: seq<bool>, prm: Params)
    requires Evaluable(chain) && |row| == |chain.plugins|
    ensures var r := ExecuteChecks(Scripted(), row + rest, prm, chain); r.error.None? && r.world == rest
  {
    var names := chain.plugins;
    if chain.expr.None? {
      assert row + rest == rest;
    } else {
      RunRow(row, rest, prm, names, |names|);
      var r := RunChecks(Scripted(), row + rest, prm, names, |names|);
      assert r.world == rest;
      ValuesKeys(names, r.outcomes, |names|);
      assert names[..|names|] == names;
      EvalDefined(chain.expr.value, Values(names, r.outcomes, |names|));
    }
  }

  lemma RowAnswers(chain: CheckChain, verdict: bool, rest: seq<bool>, prm: Params)
    requires Evaluable(chain) && CanAnswer(chain, verdict)
    ensures ExecuteChecks(Scripted(), Row(chain, verdict) + rest, prm, chain) == ChainRun(verdict, None, rest)
  {
    var names, row := chain.plugins, Row(chain, verdict);
    RowRuns(chain, row, rest, prm);
    if chain.expr.Some? {
      var values :| Answering(chain, values, verdict) && forall l :: 0 <= l < |names| ==> row[l] == values[names[l]];
      RowValues(names, row, rest, prm, values);
      hide Row, Values, Evaluable, Scripted, RunChecks, CanAnswer;
    }
  }

  /** The values a row of answers leads to. */
  lemma RowValues(names: seq<string>, row: seq<bool>, rest: seq<bool>, prm: Params, values: map<string, bool>)
    requires |row| == |names| && (forall x :: x in values <==> x in names)
    requires forall l :: 0 <= l < |names| ==> row[l] == values[names[l]]
    ensures Values(names, RunChecks(Scripted(), row + rest, prm, names, |names|).outcomes, |names|) == values
  {
    RunRow(row, rest, prm, names, |names|);
    var outcomes := RunChecks(Scripted(), row + rest, prm, names, |names|).outcomes;
    hide RunChecks, Values;
    var computed := Values(names, outcomes, |names|);
    ValuesKeys(names, outcomes, |names|);
    assert names[..|names|] == names;
    forall x | x in computed ensures computed[x] == values[x] {
      var k := ValueSource(names, outcomes, |names|, x);
    }
  }

  /** The goal is a transition that can be followed, or there is none. */
  ghost predicate Reachable(ts: seq<Transition>, goal: Option<nat>, flag: bool)
  {
    goal.Some? ==> Followable(ts, goal.value, flag)
  }

  ghost function RowAt(ts: seq<Transition>, goal: Option<nat>, flag: bool, j: nat): seq<bool>
    requires j < |ts| && Reachable(ts, goal, flag)
  {
    if goal.Some? && j <= goal.value && !Vetoed(ts[j], flag) then Row(ts[j].check, j == goal.value) else IdleRow(ts[j].check)
  }

  /** The answers that lead to the goal. */
  ghost function ScriptFrom(ts: seq<Transition>, goal: Option<nat>, flag: bool, j: nat): seq<bool>
    requires j <= |ts| && Reachable(ts, goal, flag)
    decreases |ts| - j
  {
    if j == |ts| then [] else RowAt(ts, goal, flag, j) + ScriptFrom(ts, goal, flag, j + 1)
  }

  lemma RowStep(ts: seq<Transition>, goal: Option<nat>, j: nat, rest: seq<bool>, prm: Params)
    requires j < |ts| && Reachable(ts, goal, prm.inMaintenance) && Evaluable(ts[j].check)
    ensures var r := ExecuteTransition(Scripted(), ScriptFrom(ts, goal, prm.inMaintenance, j) + rest, prm, ts[j]);
      && r.error.None? && r.world == ScriptFrom(ts, goal, prm.inMaintenance, j + 1) + rest
      && (goal.Some? && j <= goal.value ==> r.passed == (j == goal.value))
  {
    var flag := prm.inMaintenance;
    var row, tail := RowAt(ts, goal, flag, j), ScriptFrom(ts, goal, flag, j + 1) + rest;
    assert ScriptFrom(ts, goal, flag, j) + rest == row + tail;
    RowRuns(ts[j].check, row, tail, prm);
    if goal.Some? && j <= goal.value && !Vetoed(ts[j], flag) {
      RowAnswers(ts[j].check, j == goal.value, tail, prm);
    }
  }

  /** Up to the goal, only the goal passes. */
  ghost predicate PassedAsPlanned(goal: Option<nat>, passed: seq<bool>)
  {
    forall j :: 0 <= j < |passed| && goal.Some? && j <= goal.value ==> passed[j] == (j == goal.value)
  }

  lemma {:induction false} ExecuteScript(ts: seq<Transition>, goal: Option<nat>, rest: seq<bool>, prm: Params, n: nat)
    requires n <= |ts| && Reachable(ts, goal, prm.inMaintenance) && forall j :: 0 <= j < |ts| ==> Evaluable(ts[j].check)
    ensures ExecuteAll(Scripted(), ScriptFrom(ts, goal, prm.inMaintenance, 0) + rest, prm, ts, n).errors == []
    ensures ExecuteAll(Scripted(), ScriptFrom(ts, goal, prm.inMaintenance, 0) + rest, prm, ts, n).world
            == ScriptFrom(ts, goal, prm.inMaintenance, n) + rest
    ensures PassedAsPlanned(goal, ExecuteAll(Scripted(), ScriptFrom(ts, goal, prm.inMaintenance, 0) + rest, prm, ts, n).passed)
  {
    hide ExecuteTransition, Evaluable, Reachable, ScriptFrom, Scripted;
    if n > 0 {
      ExecuteScript(ts, goal, rest, prm, n - 1);
      RowStep(ts, goal, n - 1, rest, prm);
    }
  }

  lemma {:induction false} QuietHooks(w: seq<bool>, prm: Params, names: seq<string>, n: nat)
    requires n <= |names|
    ensures RunHooks(Scripted(), w, prm, names, n) == ActionRun(None, w)
  {
    if n > 0 { QuietHooks(w, prm, names, n - 1); }
  }

  lemma {:induction false} QuietTriggers(w: seq<bool>, prm: Params, names: seq<string>, n: nat)
    requires n <= |names|
    ensures RunTriggers(Scripted(), w, prm, names, n) == ActionRun(None, w)
  {
    if n > 0 { QuietTriggers(w, prm, names, n - 1); }
  }

  lemma {:induction false} QuietNotify(w: seq<bool>, prm: Params, pd: ProfileData, notes: map<string, nat>,
                                       chain: seq<NotificationInstance>, n: nat)
    requires n <= |chain| && forall j :: 0 <= j < |chain| ==> chain[j].schedule.Some?
    ensures var r := RunNotify(Scripted(), w, prm, pd, notes, chain, n); r.error.None? && r.world == w
  {
    if n > 0 { QuietNotify(w, prm, pd, notes, chain, n - 1); }
  }

  lemma DecideQuietly(w: seq<bool>, prm: Params, ts: seq<Transition>)
    requires ExecuteAll(Scripted(), w, prm, ts, |ts|).errors == []
    ensures var x := ExecuteAll(Scripted(), w, prm, ts, |ts|);
      var p := FirstPassing(x.passed);
      Decide(Scripted(), w, prm, ts) == Decision(if p.Some? then ts[p.value].next else prm.state, p, None, x.world)
  {
    var x := ExecuteAll(Scripted(), w, prm, ts, |ts|);
    var p := FirstPassing(x.passed);
    if p.Some? {
      QuietHooks(x.world, prm, ts[p.value].check.plugins, |ts[p.value].check.plugins|);
    }
  }

  lemma DecideScript(ts: seq<Transition>, goal: Option<nat>, rest: seq<bool>, prm: Params) returns (p: Option<nat>)
    requires Reachable(ts, goal, prm.inMaintenance) && forall j :: 0 <= j < |ts| ==> Evaluable(ts[j].check)
    ensures p.Some? ==> p.value < |ts|
    ensures Decide(Scripted(), ScriptFrom(ts, goal, prm.inMaintenance, 0) + rest, prm, ts) ==
            Decision(if p.Some? then ts[p.value].next else prm.state, p, None, rest)
    ensures goal.Some? ==> p == goal
  {
    hide Evaluable;
    var w := ScriptFrom(ts, goal, prm.inMaintenance, 0) + rest;
    ExecuteScript(ts, goal, rest, prm, |ts|);
    assert ScriptFrom(ts, goal, prm.inMaintenance, |ts|) + rest == rest;
    DecideQuietly(w, prm, ts);
    var passed := ExecuteAll(Scripted(), w, prm, ts, |ts|).passed;
    p := FirstPassing(passed);
    if goal.Some? {
      assert passed[goal.value] && forall j :: 0 <= j < goal.value ==> !passed[j];
    }
  }

  lemma PreludeScript(w: seq<bool>, prm: Params, chains: PluginChains, pd: ProfileData, notes: map<string, nat>)
    requires forall j :: 0 <= j < |chains.notification| ==> chains.notification[j].schedule.Some?
    ensures var p := RunPrelude(Scripted(), w, prm, chains, pd, notes); p.error.None? && p.world == w
  {
    QuietTriggers(w, prm, chains.enter, |chains.enter|);
    QuietNotify(w, prm, pd, notes, chains.notification, |chains.notification|);
  }

  /** The expressions of a state can be evaluated and its notifications have schedules. */
  ghost predicate Sound(chains: PluginChains)
  {
    && (forall j :: 0 <= j < |chains.transitions| ==> Evaluable(chains.transitions[j].check))
    && forall j :: 0 <= j < |chains.notification| ==> chains.notification[j].schedule.Some?
  }

  /** With its script, a transition that can be followed is followed. */
  lemma ApplyScript(chains: PluginChains, goal: Option<nat>, prm: Params, rest: seq<bool>, data: Data)
    requires Sound(chains) && Reachable(chains.transitions, goal, prm.inMaintenance) && prm.profile in data.profiles
    ensures var ts := chains.transitions;
      var a := Apply(Scripted(), ScriptFrom(ts, goal, prm.inMaintenance, 0) + rest, prm, chains, data);
      && a.error.None? && a.world == rest
      && (goal.Some? ==> a.report.pick == goal && a.report.next == ts[goal.value].next)
      && (a.report.next != prm.state ==> a.report.ran == FirstTo(ts, a.report.next))
  {
    hide Evaluable, ScriptFrom;
    var ts := chains.transitions;
    var w := ScriptFrom(ts, goal, prm.inMaintenance, 0) + rest;
    PreludeScript(w, prm, chains, data.profiles[prm.profile], data.notifications);
    var p := DecideScript(ts, goal, rest, prm);
    if p.Some? {
      var k := FirstTo(ts, ts[p.value].next);
      QuietTriggers(rest, prm, ts[k.value].trigger, |ts[k.value].trigger|);
    }
  }
}
