/** The check expression of a transition: how an instance list is cut out of its text, and what
    the text means.  The tree is what the expression library makes of the text; it keeps the
    parentheses and the optional space on either side of every operator. */
module CheckExpressions {

  import opened Errors
  import opened Strings

  datatype Op = Conj | Disj

  datatype Expr =
    | Leaf(name: string)
    | Not(arg: Expr)
    | Paren(arg: Expr)
    | Binary(op: Op, left: Expr, right: Expr, before: bool, after: bool)

  datatype CheckChain = CheckChain(plugins: seq<string>, expr: Option<Expr>)

  /** The instances an expression names, from left to right. */
  function Leaves(e: Expr): (names: seq<string>)
    ensures names != []
  {
    match e
    case Leaf(name) => [name]
    case Not(arg) => Leaves(arg)
    case Paren(arg) => Leaves(arg)
    case Binary(_, l, r, _, _) => Leaves(l) + Leaves(r)
  }

  /** Evaluation under the collected plugin results; an instance without a result is an error. */
  function Eval(e: Expr, values: map<string, bool>): Option<bool>
  {
    match e
    case Leaf(name) => if name in values then Some(values[name]) else None
    case Not(arg) => (match Eval(arg, values) case None => None case Some(b) => Some(!b))
    case Paren(arg) => Eval(arg, values)
    case Binary(op, l, r, _, _) =>
      match (Eval(l, values), Eval(r, values))
      case (Some(a), Some(b)) => Some(if op == Conj then a && b else a || b)
      case _ => None
  }

  /** Evaluation succeeds exactly when every named instance has a result. */
  lemma {:induction false} EvalDefined(e: Expr, values: map<string, bool>)
    ensures Eval(e, values).Some? <==> forall n :: n in Leaves(e) ==> n in values
  {
    match e
    case Leaf(name) => assert Leaves(e)[0] == name;
    case Not(arg) => EvalDefined(arg, values);
    case Paren(arg) => EvalDefined(arg, values);
    case Binary(_, l, r, _, _) =>
      EvalDefined(l, values);
      EvalDefined(r, values);
  }

  // ---- what an expression means ----

  /** The sets of passing instances, out of all instances in `all`, under which the expression is true:
      a name stands for the sets that contain it, the operators for complement, intersection and union. */
  ghost function Models(e: Expr, all: set<string>): set<set<string>>
  {
    match e
    case Leaf(name) => set a: set<string> | a <= all && name in a
    case Not(arg) => (set a: set<string> | a <= all) - Models(arg, all)
    case Paren(arg) => Models(arg, all)
    case Binary(Conj, l, r, _, _) => Models(l, all) * Models(r, all)
    case Binary(Disj, l, r, _, _) => Models(l, all) + Models(r, all)
  }

  ghost function TrueNames(values: map<string, bool>): set<string> { set n | n in values && values[n] }

  /** Evaluation agrees with the meaning. */
  lemma {:induction false} EvalMeans(e: Expr, values: map<string, bool>)
    requires forall n :: n in Leaves(e) ==> n in values
    ensures Eval(e, values) == Some(TrueNames(values) in Models(e, values.Keys))
  {
    EvalDefined(e, values);
    assert TrueNames(values) <= values.Keys;
    match e
    case Leaf(name) => assert Leaves(e)[0] == name;
    case Not(arg) => EvalMeans(arg, values);
    case Paren(arg) => EvalMeans(arg, values);
    case Binary(_, l, r, _, _) =>
      EvalMeans(l, values);
      EvalMeans(r, values);
  }

  /** Names joined by one operator. */
  function Chained(op: Op, names: seq<string>): Expr
    requires names != []
  {
    var n := |names| - 1;
    if n == 0 then Leaf(names[0]) else Binary(op, Chained(op, names[..n]), Leaf(names[n]), true, true)
  }

  lemma {:induction false} ChainedLeaves(op: Op, names: seq<string>)
    requires names != []
    ensures Leaves(Chained(op, names)) == names
  {
    var n := |names| - 1;
    if n > 0 {
      ChainedLeaves(op, names[..n]);
      assert names == names[..n] + [names[n]];
    }
  }

  lemma {:induction false} ChainedIsSpaced(op: Op, names: seq<string>)
    requires names != []
    ensures Spaced(Chained(op, names))
  {
    if |names| > 1 {
      ChainedIsSpaced(op, names[..|names| - 1]);
    }
  }

  lemma {:induction false} ChainedIsLegal(op: Op, names: seq<string>)
    requires names != [] && forall k :: 0 <= k < |names| ==> LegalName(names[k])
    ensures Legal(Chained(op, names))
  {
    hide LegalName;
    if |names| > 1 {
      ChainedIsLegal(op, names[..|names| - 1]);
    }
  }

  /** All of them, or one of them. */
  lemma {:induction false} ChainedMeans(op: Op, names: seq<string>, all: set<string>, a: set<string>)
    requires names != [] && a <= all
    ensures a in Models(Chained(op, names), all) <==>
            if op == Conj then forall k :: 0 <= k < |names| ==> names[k] in a else exists k :: 0 <= k < |names| && names[k] in a
  {
    var n := |names| - 1;
    if n > 0 {
      ChainedMeans(op, names[..n], all, a);
      assert names == names[..n] + [names[n]];
      assert forall k :: 0 <= k < n ==> names[..n][k] == names[k];
    }
  }

  /** The text of such a chain. */
  lemma {:induction false} ChainedText(op: Op, names: seq<string>)
    requires names != []
    ensures Render(Chained(op, names), FULL) == Join(names, if op == Conj then " && " else " || ")
  {
    var n := |names| - 1;
    if n > 0 {
      var sep := if op == Conj then " && " else " || ";
      ChainedText(op, names[..n]);
      JoinLast(names, sep);
      assert Render(Chained(op, names), FULL) == Render(Chained(op, names[..n]), FULL) + (" " + (OpText(op, FULL) + (" " + names[n])));
      assert sep == " " + OpText(op, FULL) + " ";
    }
  }

  lemma {:induction false} JoinLast(parts: seq<string>, sep: string)
    requires |parts| > 1
    ensures Join(parts, sep) == Join(parts[..|parts| - 1], sep) + sep + parts[|parts| - 1]
  {
    var n := |parts| - 1;
    if n > 1 {
      JoinLast(parts[1..], sep);
      assert parts[1..][..n - 1] == parts[..n][1..];
    }
  }

  /** `g` has to hold whenever the expression does. */
  ghost predicate Implies(e: Expr, g: string)
  {
    forall values :: Eval(e, values) == Some(true) ==> g in values && values[g]
  }

  // ---- text ----

  datatype Symbols = Symbols(conj: string, disj: string, open: string, close: string, bang: string)

  const FULL := Symbols("&&", "||", "(", ")", "!")
  const BARE := Symbols("", "", "", "", "")

  function Gap(space: bool): string { if space then " " else "" }

  function OpText(op: Op, y: Symbols): string { if op == Conj then y.conj else y.disj }

  function Render(e: Expr, y: Symbols): string
  {
    match e
    case Leaf(name) => name
    case Not(arg) => y.bang + Render(arg, y)
    case Paren(arg) => y.open + (Render(arg, y) + y.close)
    case Binary(op, l, r, before, after) =>
      Render(l, y) + (Gap(before) + (OpText(op, y) + (Gap(after) + Render(r, y))))
  }

  predicate LegalName(name: string)
  {
    name != "" && forall c :: c in name ==> c !in " &|()!"
  }

  predicate Legal(e: Expr)
  {
    match e
    case Leaf(name) => LegalName(name)
    case Not(arg) => Legal(arg)
    case Paren(arg) => Legal(arg)
    case Binary(_, l, r, _, _) => Legal(l) && Legal(r)
  }

  /** Every operator has a space on at least one side. */
  predicate Spaced(e: Expr)
  {
    match e
    case Leaf(_) => true
    case Not(arg) => Spaced(arg)
    case Paren(arg) => Spaced(arg)
    case Binary(_, l, r, before, after) => (before || after) && Spaced(l) && Spaced(r)
  }

  function StripAll(base: string, symbols: seq<string>, n: nat): string
    requires n <= |symbols| && forall k :: 0 <= k < |symbols| ==> symbols[k] != ""
  {
    if n == 0 then base else ReplaceAll(StripAll(base, symbols, n - 1), symbols[n - 1])
  }

  const SYMBOLS: seq<string> := ["&&", "||", "(", ")", "!"]

  function Names(config: string): seq<string>
  {
    Fields(StripAll(config, SYMBOLS, 5))
  }

  method StripSymbols(base: string, symbols: seq<string>) returns (stripped: string)
    requires forall k :: 0 <= k < |symbols| ==> symbols[k] != ""
    ensures stripped == StripAll(base, symbols, |symbols|)
  {
    stripped := base;
    for k := 0 to |symbols|
      invariant stripped == StripAll(base, symbols, k)
    {
      stripped := ReplaceAll(stripped, symbols[k]);
    }
  }

  /** The chain a text stands for, if it can be loaded. */
  function ChainFor(config: string, known: set<string>, parse: string -> Option<Expr>): Option<CheckChain>
  {
    if config == "" then Some(CheckChain([], None))
    else if (forall n :: n in Names(config) ==> n in known) && parse(config).Some? then Some(CheckChain(Names(config), parse(config)))
    else None
  }

  /** Builds a chain from its text; `parse` stands for the expression library. */
  method NewCheckChain(config: string, known: set<string>, parse: string -> Option<Expr>)
    returns (r: Result<CheckChain>)
    ensures config == "" ==> r == Ok(CheckChain([], None))
    ensures config != "" ==>
              (r.Ok? <==> (forall n :: n in Names(config) ==> n in known) && parse(config).Some?)
    ensures config != "" && r.Ok? ==> r.value == CheckChain(Names(config), parse(config))
    ensures r.Ok? <==> ChainFor(config, known, parse).Some?
    ensures r.Ok? ==> r.value == ChainFor(config, known, parse).value
  {
    hide Split, Fields, StripAll;
    if config == "" {
      return Ok(CheckChain([], None));
    }
    var stripped := StripSymbols(config, SYMBOLS);
    FieldsSkipEmpty(stripped);
    var parts := Split(stripped, " ");
    var plugins := [];
    for k := 0 to |parts|
      invariant plugins == SkipEmpty(parts, k)
      invariant forall n :: n in plugins ==> n in known
    {
      if parts[k] != "" {
        if parts[k] !in known {
          SkipEmptyKeeps(parts, k, |parts|);
          return Err(Plain(UnknownInstance));
        }
        plugins := plugins + [parts[k]];
      }
    }
    match parse(config)
    case None => r := Err(Plain(BadExpression));
    case Some(e) => r := Ok(CheckChain(plugins, Some(e)));
  }

  lemma {:induction false} SkipEmptyKeeps(parts: seq<string>, k: nat, n: nat)
    requires k < n <= |parts| && parts[k] != ""
    ensures parts[k] in SkipEmpty(parts, n)
  {
    if k < n - 1 {
      SkipEmptyKeeps(parts, k, n - 1);
    }
  }

  // ---- stripping one symbol after the other ----

  predicate NoneOf(s: string, sym: string) { forall c :: c in s ==> c !in sym }

  predicate Whole(f: string, sym: string) { f == sym || NoneOf(f, sym) }

  predicate NamesAvoid(e: Expr, sym: string)
  {
    match e
    case Leaf(name) => name != "" && NoneOf(name, sym)
    case Not(arg) => NamesAvoid(arg, sym)
    case Paren(arg) => NamesAvoid(arg, sym)
    case Binary(_, l, r, _, _) => NamesAvoid(l, sym) && NamesAvoid(r, sym)
  }

  lemma {:induction false} LegalAvoids(e: Expr, sym: string)
    requires Legal(e) && forall c :: c in sym ==> c in " &|()!"
    ensures NamesAvoid(e, sym)
  {
    match e
    case Leaf(_) =>
    case Not(arg) => LegalAvoids(arg, sym);
    case Paren(arg) => LegalAvoids(arg, sym);
    case Binary(_, l, r, _, _) => LegalAvoids(l, sym); LegalAvoids(r, sym);
  }

  function Without(f: string, sym: string): string { if f == sym then "" else f }

  lemma ReplaceWhole(f: string, z: string, sym: string)
    requires sym != "" && Whole(f, sym)
    ensures ReplaceAll(f + z, sym) == Without(f, sym) + ReplaceAll(z, sym)
  {
    hide ReplaceAll;
    if f == sym {
      ReplaceSymbol(z, sym);
    } else {
      ReplaceConcat(f, z, sym);
      ReplaceKeeps(f, sym);
    }
  }

  /** A rendered expression never ends inside a longer symbol. */
  lemma {:induction false} RenderEnds(e: Expr, y: Symbols, sym: string)
    requires NamesAvoid(e, sym) && NoneOf(y.close, sym)
    ensures Render(e, y) != "" && Render(e, y)[|Render(e, y)| - 1] !in sym
  {
    match e
    case Leaf(name) =>
    case Not(arg) => RenderEnds(arg, y, sym);
    case Paren(arg) =>
      RenderEnds(arg, y, sym);
      var inner := Render(arg, y) + y.close;
      EndOf(y.open, inner);
    case Binary(op, l, r, before, after) =>
      RenderEnds(r, y, sym);
      BinaryEnds(e, y);
  }

  /** A binary expression ends as its right operand does. */
  lemma BinaryEnds(e: Expr, y: Symbols)
    requires e.Binary? && Render(e.right, y) != ""
    ensures Render(e, y) != "" && Render(e, y)[|Render(e, y)| - 1] == Render(e.right, y)[|Render(e.right, y)| - 1]
  {
    NestedEnd(Render(e.left, y), Gap(e.before), OpText(e.op, y), Gap(e.after), Render(e.right, y));
  }

  lemma NestedEnd(a: string, b: string, c: string, d: string, z: string)
    requires z != ""
    ensures var t := a + (b + (c + (d + z))); t != "" && t[|t| - 1] == z[|z| - 1]
  {
    EndOf(d, z);
    EndOf(c, d + z);
    EndOf(b, c + (d + z));
    EndOf(a, b + (c + (d + z)));
  }

  lemma EndOf(a: string, b: string)
    requires b != ""
    ensures a + b != "" && (a + b)[|a + b| - 1] == b[|b| - 1]
  {}

  ghost predicate Strippable(y: Symbols, sym: string)
  {
    && sym != "" && ' ' !in sym
    && Whole(y.conj, sym) && Whole(y.disj, sym) && Whole(y.open, sym) && Whole(y.close, sym) && Whole(y.bang, sym)
    && (|sym| == 1 || NoneOf(y.close, sym))
  }

  function Drop(y: Symbols, sym: string): Symbols
  {
    Symbols(Without(y.conj, sym), Without(y.disj, sym), Without(y.open, sym), Without(y.close, sym), Without(y.bang, sym))
  }

  /** Removing one symbol from the text is rendering the same tree without that symbol. */
  lemma {:induction false} StripOne(e: Expr, y: Symbols, sym: string)
    requires Strippable(y, sym) && NamesAvoid(e, sym)
    ensures ReplaceAll(Render(e, y), sym) == Render(e, Drop(y, sym))
  {
    match e
    case Leaf(name) =>
      ReplaceKeeps(name, sym);
    case Not(arg) =>
      StripOne(arg, y, sym);
      ReplaceWhole(y.bang, Render(arg, y), sym);
    case Paren(arg) =>
      StripOne(arg, y, sym);
      StripParen(arg, y, sym);
    case Binary(op, l, r, _, _) =>
      StripOne(l, y, sym);
      StripOne(r, y, sym);
      StripBinary(e, y, sym);
  }

  lemma StripParen(arg: Expr, y: Symbols, sym: string)
    requires Strippable(y, sym) && NamesAvoid(arg, sym)
    requires ReplaceAll(Render(arg, y), sym) == Render(arg, Drop(y, sym))
    ensures ReplaceAll(Render(Paren(arg), y), sym) == Render(Paren(arg), Drop(y, sym))
  {
    StripJoint(arg, y, sym, y.close);
    ReplaceWhole(y.open, Render(arg, y) + y.close, sym);
    ReplaceWhole(y.close, "", sym);
    assert y.close + "" == y.close;
  }

  lemma StripBinary(e: Expr, y: Symbols, sym: string)
    requires Strippable(y, sym) && NamesAvoid(e, sym) && e.Binary?
    requires ReplaceAll(Render(e.left, y), sym) == Render(e.left, Drop(y, sym))
    requires ReplaceAll(Render(e.right, y), sym) == Render(e.right, Drop(y, sym))
    ensures ReplaceAll(Render(e, y), sym) == Render(e, Drop(y, sym))
  {
    var Binary(op, l, r, before, after) := e;
    var t3 := Gap(after) + Render(r, y);
    var t2 := OpText(op, y) + t3;
    var t1 := Gap(before) + t2;
    GapKept(before, sym);
    GapKept(after, sym);
    ReplaceWhole(Gap(after), Render(r, y), sym);
    ReplaceWhole(OpText(op, y), t3, sym);
    ReplaceWhole(Gap(before), t2, sym);
    StripJoint(l, y, sym, t1);
  }

  lemma GapKept(space: bool, sym: string)
    requires sym != "" && ' ' !in sym
    ensures Whole(Gap(space), sym) && Without(Gap(space), sym) == Gap(space)
  {
    assert sym[0] in sym;
  }

  lemma StripJoint(e: Expr, y: Symbols, sym: string, tail: string)
    requires Strippable(y, sym) && NamesAvoid(e, sym)
    ensures ReplaceAll(Render(e, y) + tail, sym) == ReplaceAll(Render(e, y), sym) + ReplaceAll(tail, sym)
  {
    hide Render, ReplaceAll, NamesAvoid;
    if |sym| > 1 {
      RenderEnds(e, y, sym);
    }
    ReplaceConcat(Render(e, y), tail, sym);
  }

  /** The symbols left after the first k of them have been stripped. */
  function Level(k: nat): Symbols
  {
    Symbols(if k < 1 then "&&" else "", if k < 2 then "||" else "", if k < 3 then "(" else "",
            if k < 4 then ")" else "", if k < 5 then "!" else "")
  }

  lemma LevelStep(k: nat)
    requires k < 5
    ensures Strippable(Level(k), SYMBOLS[k]) && Drop(Level(k), SYMBOLS[k]) == Level(k + 1)
    ensures forall c :: c in SYMBOLS[k] ==> c in " &|()!"
  {}

  lemma {:induction false} StripLevels(e: Expr, k: nat)
    requires Legal(e) && k <= 5
    ensures StripAll(Render(e, FULL), SYMBOLS, k) == Render(e, Level(k))
  {
    if k > 0 {
      StripLevels(e, k - 1);
      LevelStep(k - 1);
      LegalAvoids(e, SYMBOLS[k - 1]);
      StripOne(e, Level(k - 1), SYMBOLS[k - 1]);
    }
  }

  lemma StripToBare(e: Expr)
    requires Legal(e)
    ensures StripAll(Render(e, FULL), SYMBOLS, 5) == Render(e, BARE)
  {
    StripLevels(e, 5);
  }

  // ---- words of the stripped text ----

  /** What splitting at spaces finds: names grow together where an operator has no space. */
  function Words(e: Expr): (ws: seq<string>)
    ensures ws != []
  {
    match e
    case Leaf(name) => [name]
    case Not(arg) => Words(arg)
    case Paren(arg) => Words(arg)
    case Binary(_, l, r, before, after) =>
      if before || after then Words(l) + Words(r) else Merge(Words(l), Words(r))
  }

  function Unspaced(e: Expr): nat
  {
    match e
    case Leaf(_) => 0
    case Not(arg) => Unspaced(arg)
    case Paren(arg) => Unspaced(arg)
    case Binary(_, l, r, before, after) => Unspaced(l) + Unspaced(r) + (if before || after then 0 else 1)
  }

  /** The text once every symbol is gone. */
  function Bare(e: Expr): string
  {
    match e
    case Leaf(name) => name
    case Not(arg) => Bare(arg)
    case Paren(arg) => Bare(arg)
    case Binary(_, l, r, before, after) => Bare(l) + (Gap(before) + Gap(after)) + Bare(r)
  }

  lemma {:induction false} RenderBare(e: Expr)
    ensures Render(e, BARE) == Bare(e)
  {
    match e
    case Leaf(_) =>
    case Not(arg) => RenderBare(arg);
    case Paren(arg) => RenderBare(arg);
    case Binary(_, l, r, _, _) => RenderBare(l); RenderBare(r);
  }

  predicate Tight(t: string) { t != "" && t[0] != ' ' && t[|t| - 1] != ' ' }

  lemma {:induction false} BareTight(e: Expr)
    requires Legal(e)
    ensures Tight(Bare(e))
  {
    match e
    case Leaf(name) => assert name[0] in name && name[|name| - 1] in name;
    case Not(arg) => BareTight(arg);
    case Paren(arg) => BareTight(arg);
    case Binary(_, l, r, before, after) => BareTight(l); BareTight(r); EndOf(Bare(l) + (Gap(before) + Gap(after)), Bare(r));
  }

  lemma {:induction false} BareWords(e: Expr)
    requires Legal(e)
    ensures Fields(Bare(e)) == Words(e)
  {
    match e
    case Leaf(name) =>
      assert forall j :: 0 <= j < |name| ==> name[j] in name;
      FieldsWord(name);
    case Not(arg) => BareWords(arg);
    case Paren(arg) => BareWords(arg);
    case Binary(_, l, r, before, after) =>
      BareWords(l);
      BareWords(r);
      BareTight(l);
      BareTight(r);
      BareJoin(Bare(l), Bare(r), before, after);
  }

  lemma BareJoin(a: string, b: string, before: bool, after: bool)
    requires Tight(a) && Tight(b)
    ensures Fields(a) != [] && Fields(b) != []
    ensures Fields(a + (Gap(before) + Gap(after)) + b) ==
            if before || after then Fields(a) + Fields(b) else Merge(Fields(a), Fields(b))
  {
    FieldsMerge(a, b);
    if before && after {
      DoubleGap(a, b);
    } else if before || after {
      assert Gap(before) + Gap(after) == " ";
      FieldsConcat(a, b);
    } else {
      assert Gap(before) + Gap(after) == "" && a + "" == a;
    }
  }

  lemma DoubleGap(a: string, b: string)
    ensures Fields(a + (" " + " ") + b) == Fields(a) + Fields(b)
  {
    calc {
      Fields(a + (" " + " ") + b);
      { assert a + (" " + " ") + b == a + " " + ("" + " " + b); }
      Fields(a + " " + ("" + " " + b));
      { FieldsConcat(a, "" + " " + b); }
      Fields(a) + Fields("" + " " + b);
      { FieldsConcat("", b); }
      Fields(a) + (Fields("") + Fields(b));
      Fields(a) + Fields(b);
    }
  }

  lemma {:induction false} WordCount(e: Expr)
    ensures |Words(e)| + Unspaced(e) == |Leaves(e)|
    ensures Spaced(e) <==> Unspaced(e) == 0
    ensures Spaced(e) ==> Words(e) == Leaves(e)
  {
    match e
    case Leaf(_) =>
    case Not(arg) => WordCount(arg);
    case Paren(arg) => WordCount(arg);
    case Binary(_, l, r, _, _) => WordCount(l); WordCount(r);
  }

  /** The instance list agrees with the tree exactly when every operator has a space beside it. */
  lemma NamesAreLeaves(e: Expr)
    requires Legal(e)
    ensures Names(Render(e, FULL)) == Leaves(e) <==> Spaced(e)
  {
    StripToBare(e);
    RenderBare(e);
    BareWords(e);
    WordCount(e);
  }

  lemma {:induction false} RenderedIsText(e: Expr)
    requires Legal(e)
    ensures Render(e, FULL) != ""
  {
    match e
    case Leaf(_) =>
    case Not(_) =>
    case Paren(_) =>
    case Binary(_, l, _, _, _) => RenderedIsText(l);
  }

  /** The text of a spaced expression loads exactly if its names are known, and gives back its tree with
      its leaves as instances. */
  lemma LoadedBack(e: Expr, known: set<string>, parse: string -> Option<Expr>)
    requires Legal(e) && Spaced(e) && parse(Render(e, FULL)) == Some(e)
    ensures ChainFor(Render(e, FULL), known, parse) ==
            if forall n :: n in Leaves(e) ==> n in known then Some(CheckChain(Leaves(e), Some(e))) else None
  {
    hide Names, Render, Leaves, Legal, Spaced;
    NamesAreLeaves(e);
    RenderedIsText(e);
  }

  /** Without spaces the two names become one. */
  lemma UnspacedWitness()
    ensures Names("a&&b") == ["ab"]
  {
    var tight := Binary(Conj, Leaf("a"), Leaf("b"), false, false);
    assert Legal(tight);
    assert Render(tight, FULL) == "a&&b";
    StripToBare(tight);
    RenderBare(tight);
    BareWords(tight);
    assert "a" + "b" == "ab";
    assert Words(tight) == Merge(["a"], ["b"]) == ["a" + "b"];
  }
}
