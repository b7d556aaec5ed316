/** Plugin chains.  The plugins themselves are the environment: every call may answer anything and
    may change the world it runs in, so a claim about all `Plugins<W>` and all worlds is a claim
    about every behaviour of the configured plugins. */
module Plugins {

  import opened Errors
  import opened Labels
  import opened CheckExpressions

  datatype CheckOutcome = Passed | Failed | Errored

  /** What a plugin is told about the profile it runs for. */
  datatype Params = Params(profile: string, state: NodeStateLabel, inMaintenance: bool, lastTransition: nat)

  /** `relabel` gives the labels of the node object as trigger plugins have left them in a world. */
  datatype Plugins<!W> = Plugins(
    check: (W, Params, string) -> (CheckOutcome, W),
    onTransition: (W, Params, string) -> (Option<Error>, W),
    trigger: (W, Params, string) -> (Option<Error>, W),
    notify: (W, Params, string) -> (Option<Error>, W),
    now: W -> (nat, W),
    relabel: (W, map<string, string>) -> map<string, string>)

  // ---- check chains ----

  datatype CheckRun<W> = CheckRun(outcomes: seq<CheckOutcome>, world: W)

  /** The first n checks of a chain; a failing check does not stop the others. */
  function RunChecks<W>(pl: Plugins<W>, w: W, prm: Params, names: seq<string>, n: nat): (r: CheckRun<W>)
    requires n <= |names|
    ensures |r.outcomes| == n
  {
    if n == 0 then CheckRun([], w)
    else
      var r := RunChecks(pl, w, prm, names, n - 1);
      var (o, w') := pl.check(r.world, prm, names[n - 1]);
      CheckRun(r.outcomes + [o], w')
  }

  /** The parameters of the expression: of two results of one instance the later one counts. */
  function Values(names: seq<string>, outcomes: seq<CheckOutcome>, n: nat): map<string, bool>
    requires n <= |names| && n <= |outcomes|
  {
    if n == 0 then map[] else Values(names, outcomes, n - 1)[names[n - 1] := outcomes[n - 1] == Passed]
  }

  datatype ChainRun<W> = ChainRun(passed: bool, error: Option<Error>, world: W)

  function ExecuteChecks<W>(pl: Plugins<W>, w: W, prm: Params, chain: CheckChain): ChainRun<W>
  {
    if chain.expr.None? && chain.plugins == [] then ChainRun(true, None, w)
    else
      var r := RunChecks(pl, w, prm, chain.plugins, |chain.plugins|);
      if Errored in r.outcomes then ChainRun(false, Some(Plain(FailedChecks)), r.world)
      else if chain.expr.None? then ChainRun(false, Some(Plain(FailedExpression)), r.world)
      else match Eval(chain.expr.value, Values(chain.plugins, r.outcomes, |chain.plugins|))
           case None => ChainRun(false, Some(Plain(FailedExpression)), r.world)
           case Some(b) => ChainRun(b, None, r.world)
  }

  method CheckChainExecute<W>(pl: Plugins<W>, w: W, prm: Params, chain: CheckChain) returns (r: ChainRun<W>)
    ensures r == ExecuteChecks(pl, w, prm, chain)
  {
    if chain.expr.None? && chain.plugins == [] {
      return ChainRun(true, None, w);
    }
    var values: map<string, bool> := map[];
    var failed: seq<string> := [];
    var world := w;
    for k := 0 to |chain.plugins|
      invariant world == RunChecks(pl, w, prm, chain.plugins, k).world
      invariant values == Values(chain.plugins, RunChecks(pl, w, prm, chain.plugins, k).outcomes, k)
      invariant failed != [] <==> Errored in RunChecks(pl, w, prm, chain.plugins, k).outcomes
    {
      ghost var before := RunChecks(pl, w, prm, chain.plugins, k).outcomes;
      var (o, world') := pl.check(world, prm, chain.plugins[k]);
      ValuesPrefix(chain.plugins, before, o, k);
      world := world';
      values := values[chain.plugins[k] := o == Passed];
      if o == Errored {
        failed := failed + [chain.plugins[k]];
      }
    }
    if failed != [] {
      return ChainRun(false, Some(Plain(FailedChecks)), world);
    }
    if chain.expr.None? {
      return ChainRun(false, Some(Plain(FailedExpression)), world);
    }
    match Eval(chain.expr.value, values)
    case None => r := ChainRun(false, Some(Plain(FailedExpression)), world);
    case Some(b) => r := ChainRun(b, None, world);
  }

  lemma {:induction false} ValuesPrefix(names: seq<string>, outcomes: seq<CheckOutcome>, o: CheckOutcome, n: nat)
    requires n <= |names| && n <= |outcomes|
    ensures Values(names, outcomes + [o], n) == Values(names, outcomes, n)
  {
    if n > 0 {
      ValuesPrefix(names, outcomes, o, n - 1);
    }
  }

  /** A value comes from the last run of its instance. */
  lemma {:induction false} ValueSource(names: seq<string>, outcomes: seq<CheckOutcome>, n: nat, g: string) returns (k: nat)
    requires n <= |names| && n <= |outcomes| && g in Values(names, outcomes, n)
    ensures k < n && names[k] == g && Values(names, outcomes, n)[g] == (outcomes[k] == Passed)
    ensures forall j :: k < j < n ==> names[j] != g
  {
    if names[n - 1] == g {
      k := n - 1;
    } else {
      k := ValueSource(names, outcomes, n - 1, g);
    }
  }

  lemma {:induction false} ValuesKeys(names: seq<string>, outcomes: seq<CheckOutcome>, n: nat)
    requires n <= |names| && n <= |outcomes|
    ensures forall x :: x in Values(names, outcomes, n) <==> x in names[..n]
  {
    if n > 0 {
      ValuesKeys(names, outcomes, n - 1);
      assert names[..n] == names[..n - 1] + [names[n - 1]];
    }
  }

  /** What each instance answered in a run of the chain, where every plugin answered. */
  ghost predicate Answers(names: seq<string>, outcomes: seq<CheckOutcome>, values: map<string, bool>)
    requires |outcomes| == |names|
  {
    && (forall x :: x in values <==> x in names)
    && forall k :: 0 <= k < |names| && (forall j :: k < j < |names| ==> names[j] != names[k]) ==>
         names[k] in values && values[names[k]] == (outcomes[k] == Passed)
  }

  lemma ComputedAnswers(names: seq<string>, outcomes: seq<CheckOutcome>, values: map<string, bool>)
    requires |outcomes| == |names| && Answers(names, outcomes, values)
    ensures Values(names, outcomes, |names|) == values
    ensures forall n :: n in names ==> n in values
  {
    hide Values;
    var computed := Values(names, outcomes, |names|);
    ValuesKeys(names, outcomes, |names|);
    assert names[..|names|] == names;
    forall x | x in computed ensures x in values && values[x] == computed[x] {
      var k := ValueSource(names, outcomes, |names|, x);
    }
  }

  /** A chain passes exactly when no plugin errors and its tree is true under what the plugins
      answered, provided the chain runs every instance the tree names. */
  lemma ChecksMeanTheTree<W>(pl: Plugins<W>, w: W, prm: Params, chain: CheckChain, values: map<string, bool>)
    requires chain.expr.Some? && forall n :: n in Leaves(chain.expr.value) ==> n in chain.plugins
    requires Answers(chain.plugins, RunChecks(pl, w, prm, chain.plugins, |chain.plugins|).outcomes, values)
    ensures var r := ExecuteChecks(pl, w, prm, chain);
            var outcomes := RunChecks(pl, w, prm, chain.plugins, |chain.plugins|).outcomes;
            && (r.error.Some? <==> Errored in outcomes)
            && (r.passed <==> Errored !in outcomes && Eval(chain.expr.value, values) == Some(true))
  {
    hide RunChecks, Values, Leaves, Eval, Answers;
    var names := chain.plugins;
    var outcomes := RunChecks(pl, w, prm, names, |names|).outcomes;
    ComputedAnswers(names, outcomes, values);
    EvalDefined(chain.expr.value, values);
  }

  /** From text to verdict: the chain loaded from the text of a spaced expression with known names passes
      exactly when no plugin errors and the expression is true under what the plugins answered. */
  lemma TextMeansTree<W>(pl: Plugins<W>, w: W, prm: Params, e: Expr, known: set<string>, parse: string -> Option<Expr>,
                         values: map<string, bool>)
    requires Legal(e) && Spaced(e) && parse(Render(e, FULL)) == Some(e)
    requires forall n :: n in Leaves(e) ==> n in known
    requires Answers(Leaves(e), RunChecks(pl, w, prm, Leaves(e), |Leaves(e)|).outcomes, values)
    ensures ChainFor(Render(e, FULL), known, parse).Some?
    ensures var r := ExecuteChecks(pl, w, prm, ChainFor(Render(e, FULL), known, parse).value);
            var outcomes := RunChecks(pl, w, prm, Leaves(e), |Leaves(e)|).outcomes;
            && (r.error.Some? <==> Errored in outcomes)
            && (r.passed <==> Errored !in outcomes && Eval(e, values) == Some(true))
  {
    hide ExecuteChecks, RunChecks, Eval, Leaves, Render, Legal, Spaced, ChainFor, Answers;
    LoadedBack(e, known, parse);
    ChecksMeanTheTree(pl, w, prm, CheckChain(Leaves(e), Some(e)), values);
  }

  // ---- trigger chains and transition hooks: stop at the first error ----

  datatype ActionRun<W> = ActionRun(error: Option<Error>, world: W)

  function RunTriggers<W>(pl: Plugins<W>, w: W, prm: Params, names: seq<string>, n: nat): ActionRun<W>
    requires n <= |names|
  {
    if n == 0 then ActionRun(None, w)
    else
      var r := RunTriggers(pl, w, prm, names, n - 1);
      if r.error.Some? then r
      else
        var (e, w') := pl.trigger(r.world, prm, names[n - 1]);
        ActionRun(if e.Some? then Some(Wrapped(PluginFailed, e.value)) else None, w')
  }

  lemma {:induction false} TriggersStop<W>(pl: Plugins<W>, w: W, prm: Params, names: seq<string>, k: nat, n: nat)
    requires k <= n <= |names| && RunTriggers(pl, w, prm, names, k).error.Some?
    ensures RunTriggers(pl, w, prm, names, n) == RunTriggers(pl, w, prm, names, k)
  {
    if k < n {
      TriggersStop(pl, w, prm, names, k, n - 1);
    }
  }

  method TriggerChainExecute<W>(pl: Plugins<W>, w: W, prm: Params, names: seq<string>) returns (r: ActionRun<W>)
    ensures r == RunTriggers(pl, w, prm, names, |names|)
  {
    var world := w;
    for k := 0 to |names|
      invariant RunTriggers(pl, w, prm, names, k) == ActionRun(None, world)
    {
      var (e, world') := pl.trigger(world, prm, names[k]);
      if e.Some? {
        TriggersStop(pl, w, prm, names, k + 1, |names|);
        return ActionRun(Some(Wrapped(PluginFailed, e.value)), world');
      }
      world := world';
    }
    r := ActionRun(None, world);
  }

  function RunHooks<W>(pl: Plugins<W>, w: W, prm: Params, names: seq<string>, n: nat): ActionRun<W>
    requires n <= |names|
  {
    if n == 0 then ActionRun(None, w)
    else
      var r := RunHooks(pl, w, prm, names, n - 1);
      if r.error.Some? then r
      else
        var (e, w') := pl.onTransition(r.world, prm, names[n - 1]);
        ActionRun(e, w')
  }

  lemma {:induction false} HooksStop<W>(pl: Plugins<W>, w: W, prm: Params, names: seq<string>, k: nat, n: nat)
    requires k <= n <= |names| && RunHooks(pl, w, prm, names, k).error.Some?
    ensures RunHooks(pl, w, prm, names, n) == RunHooks(pl, w, prm, names, k)
  {
    if k < n {
      HooksStop(pl, w, prm, names, k, n - 1);
    }
  }
}
