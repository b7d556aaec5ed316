/** What the functions of a pass mean, said in terms of the plugin calls alone: which plugin is called in
    which world, what it answers, and what follows from the answers. */
module Calls {

  import opened Errors
  import opened Strings
  import opened CheckExpressions
  import opened Plugins

  // ---- rows of calls ----

  /** The world after the first k calls of a row, each made in the world the previous one left. */
  function After<W, A>(call: (W, Params, string) -> (A, W), w: W, prm: Params, names: seq<string>, k: nat): W
    requires k <= |names|
  {
    if k == 0 then w else call(After(call, w, prm, names, k - 1), prm, names[k - 1]).1
  }

  function AnswerOf<W, A>(call: (W, Params, string) -> (A, W), w: W, prm: Params, names: seq<string>, k: nat): A
    requires k < |names|
  {
    call(After(call, w, prm, names, k), prm, names[k]).0
  }

  ghost predicate AllAgree<W>(call: (W, Params, string) -> (Option<Error>, W), w: W, prm: Params, names: seq<string>)
  {
    forall k :: 0 <= k < |names| ==> AnswerOf(call, w, prm, names, k).None?
  }

  /** Call k is the first one that answers with an error. */
  ghost predicate Refuses<W>(call: (W, Params, string) -> (Option<Error>, W), w: W, prm: Params, names: seq<string>, k: nat)
  {
    && k < |names| && AnswerOf(call, w, prm, names, k).Some?
    && forall j :: 0 <= j < k ==> AnswerOf(call, w, prm, names, j).None?
  }

  lemma FirstRefusal<W>(call: (W, Params, string) -> (Option<Error>, W), w: W, prm: Params, names: seq<string>) returns (k: nat)
    requires !AllAgree(call, w, prm, names)
    ensures Refuses(call, w, prm, names, k)
  {
    k := 0;
    while AnswerOf(call, w, prm, names, k).None?
      invariant k < |names|
      invariant forall j :: 0 <= j < k ==> AnswerOf(call, w, prm, names, j).None?
      decreases |names| - k
    {
      assert k + 1 < |names|;
      k := k + 1;
    }
  }

  /** Triggers: every one is called as long as all agree; the first error stops the chain and is the
      chain's error. */
  lemma {:induction false} TriggersAgree<W>(pl: Plugins<W>, w: W, prm: Params, names: seq<string>, n: nat)
    requires n <= |names| && forall j :: 0 <= j < n ==> AnswerOf(pl.trigger, w, prm, names, j).None?
    ensures RunTriggers(pl, w, prm, names, n) == ActionRun(None, After(pl.trigger, w, prm, names, n))
  {
    if n > 0 {
      TriggersAgree(pl, w, prm, names, n - 1);
      assert AnswerOf(pl.trigger, w, prm, names, n - 1).None?;
    }
  }

  lemma TriggersMean<W>(pl: Plugins<W>, w: W, prm: Params, names: seq<string>)
    ensures RunTriggers(pl, w, prm, names, |names|).error.None? <==> AllAgree(pl.trigger, w, prm, names)
    ensures AllAgree(pl.trigger, w, prm, names) ==> RunTriggers(pl, w, prm, names, |names|).world == After(pl.trigger, w, prm, names, |names|)
    ensures forall k: nat :: Refuses(pl.trigger, w, prm, names, k) ==>
      RunTriggers(pl, w, prm, names, |names|) ==
      ActionRun(Some(Wrapped(PluginFailed, AnswerOf(pl.trigger, w, prm, names, k).value)), After(pl.trigger, w, prm, names, k + 1))
  {
    if AllAgree(pl.trigger, w, prm, names) {
      TriggersAgree(pl, w, prm, names, |names|);
    } else {
      var first := FirstRefusal(pl.trigger, w, prm, names);
      forall k: nat | Refuses(pl.trigger, w, prm, names, k)
        ensures RunTriggers(pl, w, prm, names, |names|) ==
          ActionRun(Some(Wrapped(PluginFailed, AnswerOf(pl.trigger, w, prm, names, k).value)), After(pl.trigger, w, prm, names, k + 1))
      {
        TriggersAgree(pl, w, prm, names, k);
        TriggersStop(pl, w, prm, names, k + 1, |names|);
      }
    }
  }

  lemma {:induction false} HooksAgree<W>(pl: Plugins<W>, w: W, prm: Params, names: seq<string>, n: nat)
    requires n <= |names| && forall j :: 0 <= j < n ==> AnswerOf(pl.onTransition, w, prm, names, j).None?
    ensures RunHooks(pl, w, prm, names, n) == ActionRun(None, After(pl.onTransition, w, prm, names, n))
  {
    if n > 0 {
      HooksAgree(pl, w, prm, names, n - 1);
      assert AnswerOf(pl.onTransition, w, prm, names, n - 1).None?;
    }
  }

  lemma HooksMean<W>(pl: Plugins<W>, w: W, prm: Params, names: seq<string>)
    ensures RunHooks(pl, w, prm, names, |names|).error.None? <==> AllAgree(pl.onTransition, w, prm, names)
    ensures AllAgree(pl.onTransition, w, prm, names) ==>
      RunHooks(pl, w, prm, names, |names|).world == After(pl.onTransition, w, prm, names, |names|)
    ensures forall k: nat :: Refuses(pl.onTransition, w, prm, names, k) ==>
      RunHooks(pl, w, prm, names, |names|) ==
      ActionRun(AnswerOf(pl.onTransition, w, prm, names, k), After(pl.onTransition, w, prm, names, k + 1))
  {
    if AllAgree(pl.onTransition, w, prm, names) {
      HooksAgree(pl, w, prm, names, |names|);
    } else {
      var first := FirstRefusal(pl.onTransition, w, prm, names);
      forall k: nat | Refuses(pl.onTransition, w, prm, names, k)
        ensures RunHooks(pl, w, prm, names, |names|) ==
          ActionRun(AnswerOf(pl.onTransition, w, prm, names, k), After(pl.onTransition, w, prm, names, k + 1))
      {
        HooksAgree(pl, w, prm, names, k);
        HooksStop(pl, w, prm, names, k + 1, |names|);
      }
    }
  }

  // ---- check chains ----

  lemma {:induction false} ChecksAreCalls<W>(pl: Plugins<W>, w: W, prm: Params, names: seq<string>, n: nat)
    requires n <= |names|
    ensures RunChecks(pl, w, prm, names, n).world == After(pl.check, w, prm, names, n)
    ensures forall k :: 0 <= k < n ==> RunChecks(pl, w, prm, names, n).outcomes[k] == AnswerOf(pl.check, w, prm, names, k)
  {
    if n > 0 {
      ChecksAreCalls(pl, w, prm, names, n - 1);
    }
  }

  ghost predicate SomeErrored<W>(pl: Plugins<W>, w: W, prm: Params, names: seq<string>)
  {
    exists k :: 0 <= k < |names| && AnswerOf(pl.check, w, prm, names, k) == Errored
  }

  ghost predicate LastCall(names: seq<string>, k: nat)
  {
    k < |names| && forall j :: k < j < |names| ==> names[j] != names[k]
  }

  ghost function AllNames(names: seq<string>): set<string> { set k | 0 <= k < |names| :: names[k] }

  /** The instances whose last call passed. */
  ghost function PassingNames<W>(pl: Plugins<W>, w: W, prm: Params, names: seq<string>): set<string>
  {
    set k | 0 <= k < |names| && LastCall(names, k) && AnswerOf(pl.check, w, prm, names, k) == Passed :: names[k]
  }

  /** A plugin errors, or there is no expression over the instances, or it names an instance that is not run. */
  ghost predicate ChainErrs<W>(pl: Plugins<W>, w: W, prm: Params, chain: CheckChain)
  {
    || SomeErrored(pl, w, prm, chain.plugins)
    || (chain.expr.None? && chain.plugins != [])
    || (chain.expr.Some? && exists n :: n in Leaves(chain.expr.value) && n !in chain.plugins)
  }

  /** The expression is true of the instances whose last call passed. */
  ghost predicate ChainHolds<W>(pl: Plugins<W>, w: W, prm: Params, chain: CheckChain)
  {
    chain.expr.Some? ==> PassingNames(pl, w, prm, chain.plugins) in Models(chain.expr.value, AllNames(chain.plugins))
  }

  lemma ValuesMean<W>(pl: Plugins<W>, w: W, prm: Params, names: seq<string>)
    ensures var values := Values(names, RunChecks(pl, w, prm, names, |names|).outcomes, |names|);
            values.Keys == AllNames(names) && TrueNames(values) == PassingNames(pl, w, prm, names)
  {
    var outcomes := RunChecks(pl, w, prm, names, |names|).outcomes;
    ChecksAreCalls(pl, w, prm, names, |names|);
    ValuesKeys(names, outcomes, |names|);
    assert names[..|names|] == names;
    hide RunChecks, Values, AnswerOf;
    var values := Values(names, outcomes, |names|);
    forall x | x in values ensures values[x] <==> x in PassingNames(pl, w, prm, names) {
      var k := ValueSource(names, outcomes, |names|, x);
      assert LastCall(names, k) && outcomes[k] == AnswerOf(pl.check, w, prm, names, k);
      forall j | 0 <= j < |names| && LastCall(names, j) && names[j] == x ensures j == k {}
    }
  }

  /** A chain passes exactly when nothing errs and its expression is true of what passed; all its plugins
      are called. */
  lemma ChainMeans<W>(pl: Plugins<W>, w: W, prm: Params, chain: CheckChain)
    ensures var r := ExecuteChecks(pl, w, prm, chain);
      && (r.error.Some? <==> ChainErrs(pl, w, prm, chain))
      && (r.passed <==> !ChainErrs(pl, w, prm, chain) && ChainHolds(pl, w, prm, chain))
      && r.world == After(pl.check, w, prm, chain.plugins, |chain.plugins|)
      && (r.error.Some? ==> r.error.value.Plain?)
  {
    var names := chain.plugins;
    ChecksAreCalls(pl, w, prm, names, |names|);
    var outcomes := RunChecks(pl, w, prm, names, |names|).outcomes;
    assert Errored in outcomes <==> SomeErrored(pl, w, prm, names) by {
      hide RunChecks, AnswerOf;
      if Errored in outcomes {
        var k :| 0 <= k < |outcomes| && outcomes[k] == Errored;
        assert AnswerOf(pl.check, w, prm, names, k) == Errored;
      }
      if SomeErrored(pl, w, prm, names) {
        var k :| 0 <= k < |names| && AnswerOf(pl.check, w, prm, names, k) == Errored;
        assert outcomes[k] == Errored;
      }
    }
    if chain.expr.Some? {
      ValuesMean(pl, w, prm, names);
      var values := Values(names, outcomes, |names|);
      EvalDefined(chain.expr.value, values);
      assert forall n :: n in values <==> n in names by {
        assert forall n :: n in AllNames(names) <==> n in names;
      }
      if forall n :: n in Leaves(chain.expr.value) ==> n in values {
        EvalMeans(chain.expr.value, values);
      }
    }
    hide RunChecks, Values, Eval, AnswerOf, Leaves, Models, SomeErrored, PassingNames;
  }

  // ---- expressions, operator by operator ----

  /** Every instance's last call passed, or some instance's did. */
  ghost predicate Everyone<W>(pl: Plugins<W>, w: W, prm: Params, names: seq<string>)
  {
    forall k :: 0 <= k < |names| && LastCall(names, k) ==> AnswerOf(pl.check, w, prm, names, k) == Passed
  }

  ghost predicate Someone<W>(pl: Plugins<W>, w: W, prm: Params, names: seq<string>)
  {
    exists k :: 0 <= k < |names| && LastCall(names, k) && AnswerOf(pl.check, w, prm, names, k) == Passed
  }

  lemma {:induction false} HasLastCall(names: seq<string>, k: nat) returns (l: nat)
    requires k < |names|
    ensures LastCall(names, l) && names[l] == names[k]
    decreases |names| - k
  {
    if LastCall(names, k) {
      l := k;
    } else {
      var j :| k < j < |names| && names[j] == names[k];
      l := HasLastCall(names, j);
    }
  }

  /** The text of names joined by ` && ` loads into a chain that passes exactly if no plugin errors and
      every instance passed, one joined by ` || ` if some instance passed. */
  lemma JoinedText<W>(pl: Plugins<W>, w: W, prm: Params, op: Op, names: seq<string>, known: set<string>, parse: string -> Option<Expr>)
    requires names != [] && forall k :: 0 <= k < |names| ==> LegalName(names[k]) && names[k] in known
    requires var text := Join(names, if op == Conj then " && " else " || "); parse(text) == Some(Chained(op, names))
    ensures var text := Join(names, if op == Conj then " && " else " || "); ChainFor(text, known, parse).Some?
    ensures var text := Join(names, if op == Conj then " && " else " || ");
      var r := ExecuteChecks(pl, w, prm, ChainFor(text, known, parse).value);
      && (r.error.Some? <==> SomeErrored(pl, w, prm, names))
      && (r.passed <==> !SomeErrored(pl, w, prm, names) && if op == Conj then Everyone(pl, w, prm, names) else Someone(pl, w, prm, names))
  {
    ChainedLeaves(op, names);
    ChainedIsSpaced(op, names);
    ChainedIsLegal(op, names);
    ChainedText(op, names);
    LoadedBack(Chained(op, names), known, parse);
    var chain := CheckChain(names, Some(Chained(op, names)));
    ChainMeans(pl, w, prm, chain);
    JoinedHolds(pl, w, prm, op, names);
    hide ExecuteChecks, SomeErrored, Everyone, Someone, Render, Leaves, ChainHolds, Chained;
  }

  lemma JoinedHolds<W>(pl: Plugins<W>, w: W, prm: Params, op: Op, names: seq<string>)
    requires names != []
    ensures ChainHolds(pl, w, prm, CheckChain(names, Some(Chained(op, names)))) <==>
            if op == Conj then Everyone(pl, w, prm, names) else Someone(pl, w, prm, names)
  {
    var passing := PassingNames(pl, w, prm, names);
    assert passing <= AllNames(names);
    ChainedMeans(op, names, AllNames(names), passing);
    hide AnswerOf, Chained, Models;
    forall k | 0 <= k < |names| ensures names[k] in passing <==> LastPassed(pl, w, prm, names, names[k]) {}
    if op == Conj {
      EveryoneLasts(pl, w, prm, names);
    } else {
      assert (exists k :: 0 <= k < |names| && names[k] in passing) <==> Someone(pl, w, prm, names);
    }
  }

  ghost predicate LastPassed<W>(pl: Plugins<W>, w: W, prm: Params, names: seq<string>, x: string)
  {
    exists l :: 0 <= l < |names| && LastCall(names, l) && names[l] == x && AnswerOf(pl.check, w, prm, names, l) == Passed
  }

  lemma EveryoneLasts<W>(pl: Plugins<W>, w: W, prm: Params, names: seq<string>)
    ensures Everyone(pl, w, prm, names) <==> forall k :: 0 <= k < |names| ==> LastPassed(pl, w, prm, names, names[k])
  {
    hide AnswerOf;
    if Everyone(pl, w, prm, names) {
      forall k | 0 <= k < |names| ensures LastPassed(pl, w, prm, names, names[k]) {
        var l := HasLastCall(names, k);
      }
    }
    if forall k :: 0 <= k < |names| ==> LastPassed(pl, w, prm, names, names[k]) {
      forall k | 0 <= k < |names| && LastCall(names, k) ensures AnswerOf(pl.check, w, prm, names, k) == Passed {
        var l :| 0 <= l < |names| && LastCall(names, l) && names[l] == names[k] && AnswerOf(pl.check, w, prm, names, l) == Passed;
        assert l == k;
      }
    }
  }

  /** A chain under `!` passes exactly if the chain without it fails, as long as nothing errs. */
  lemma NegatedChain<W>(pl: Plugins<W>, w: W, prm: Params, names: seq<string>, e: Expr)
    ensures var r, n := ExecuteChecks(pl, w, prm, CheckChain(names, Some(e))), ExecuteChecks(pl, w, prm, CheckChain(names, Some(Not(e))));
            n.error.Some? == r.error.Some? && (r.error.None? ==> n.passed == !r.passed) && n.world == r.world
  {
    ChainMeans(pl, w, prm, CheckChain(names, Some(e)));
    ChainMeans(pl, w, prm, CheckChain(names, Some(Not(e))));
    hide ExecuteChecks, SomeErrored;
  }
}
