/** Go's strings.Split and strings.ReplaceAll (with an empty replacement) on sequences of
    characters: both look for the leftmost occurrence and never look at removed text again. */
module Strings {

  import opened Errors

  predicate OccursAt(s: string, sep: string, k: nat)
  {
    k + |sep| <= |s| && s[k..k + |sep|] == sep
  }

  /** The leftmost position at or after `from` where `sep` occurs. */
  function Index(s: string, sep: string, from: nat := 0): (r: Option<nat>)
    requires from <= |s|
    ensures r.Some? ==> from <= r.value && OccursAt(s, sep, r.value)
    decreases |s| - from
  {
    if OccursAt(s, sep, from) then Some(from)
    else if from == |s| then None
    else Index(s, sep, from + 1)
  }

  lemma {:induction false} IndexLeftmost(s: string, sep: string, from: nat, k: nat)
    requires from <= k <= |s|
    requires Index(s, sep, from).None? || k < Index(s, sep, from).value
    ensures !OccursAt(s, sep, k)
    decreases k - from
  {
    if from < k {
      IndexLeftmost(s, sep, from + 1, k);
    }
  }

  function Split(s: string, sep: string): (parts: seq<string>)
    requires sep != ""
    ensures parts != []
    decreases |s|
  {
    match Index(s, sep)
    case None => [s]
    case Some(k) => [s[..k]] + Split(s[k + |sep|..], sep)
  }

  function Join(parts: seq<string>, sep: string): string
  {
    if parts == [] then ""
    else if |parts| == 1 then parts[0]
    else parts[0] + sep + Join(parts[1..], sep)
  }

  /** Splitting loses nothing, and no separator is left inside a part. */
  lemma {:induction false} SplitRoundTrip(s: string, sep: string)
    requires sep != ""
    ensures Join(Split(s, sep), sep) == s
    ensures forall i, k :: 0 <= i < |Split(s, sep)| && 0 <= k ==> !OccursAt(Split(s, sep)[i], sep, k)
    decreases |s|
  {
    match Index(s, sep)
    case None =>
      forall j: nat ensures !OccursAt(s, sep, j) {
        if j <= |s| {
          IndexLeftmost(s, sep, 0, j);
        }
      }
    case Some(k) =>
      var rest := s[k + |sep|..];
      SplitRoundTrip(rest, sep);
      assert Split(s, sep)[1..] == Split(rest, sep);
      assert s == s[..k] + sep + rest;
      forall j: nat ensures !OccursAt(s[..k], sep, j) {
        if j < k {
          IndexLeftmost(s, sep, 0, j);
          assert j + |sep| <= k ==> s[..k][j..j + |sep|] == s[j..j + |sep|];
        }
      }
  }

  /** In front of a separator, the part is not cut short: the first separator is the one after it. */
  predicate Uncut(part: string, sep: string)
  {
    Index(part + sep, sep) == Some(|part|)
  }

  lemma {:induction false} IndexIs(s: string, sep: string, from: nat, k: nat)
    requires from <= k && OccursAt(s, sep, k) && forall j :: from <= j < k ==> !OccursAt(s, sep, j)
    ensures Index(s, sep, from) == Some(k)
    decreases k - from
  {
    if from < k {
      IndexIs(s, sep, from + 1, k);
    }
  }

  lemma OccursIn(part: string, sep: string, rest: string, k: nat)
    requires k <= |part|
    ensures OccursAt(part + sep + rest, sep, k) <==> OccursAt(part + sep, sep, k)
  {
    if k + |sep| <= |part + sep| {
      assert (part + sep + rest)[k..k + |sep|] == (part + sep)[k..k + |sep|];
    }
  }

  /** Splitting finds the first part exactly if it is not cut short. */
  lemma SplitFirst(head: string, sep: string, rest: string)
    requires sep != ""
    ensures Index(head + sep + rest, sep) == Some(|head|) <==> Uncut(head, sep)
    ensures Uncut(head, sep) ==> Split(head + sep + rest, sep) == [head] + Split(rest, sep)
  {
    var s := head + sep + rest;
    assert s[|head|..|head| + |sep|] == sep;
    forall k | 0 <= k <= |head| ensures OccursAt(s, sep, k) <==> OccursAt(head + sep, sep, k) {
      OccursIn(head, sep, rest, k);
    }
    if Uncut(head, sep) {
      forall k | 0 <= k < |head| ensures !OccursAt(s, sep, k) { IndexLeftmost(head + sep, sep, 0, k); }
      IndexIs(s, sep, 0, |head|);
      assert s[..|head|] == head && s[|head| + |sep|..] == rest;
    } else if Index(s, sep) == Some(|head|) {
      forall k | 0 <= k < |head| ensures !OccursAt(head + sep, sep, k) { IndexLeftmost(s, sep, 0, k); }
      IndexIs(head + sep, sep, 0, |head|);
    }
  }

  /** No part is cut short, and the last one contains no separator. */
  predicate Joinable(parts: seq<string>, sep: string)
    requires parts != []
  {
    && (forall i :: 0 <= i < |parts| - 1 ==> Uncut(parts[i], sep))
    && Index(parts[|parts| - 1], sep).None?
  }

  lemma JoinableStep(parts: seq<string>, sep: string)
    requires |parts| > 1
    ensures Joinable(parts, sep) <==> Uncut(parts[0], sep) && Joinable(parts[1..], sep)
  {
    hide Uncut, Index;
    var tail := parts[1..];
    assert forall i :: 0 <= i < |tail| ==> tail[i] == parts[i + 1];
    assert forall i :: 0 < i < |parts| ==> parts[i] == tail[i - 1];
  }

  /** Parts that start with `head` are found again exactly if the head is not cut short and the others
      are found again. */
  lemma SplitStep(head: string, tail: seq<string>, sep: string, rest: string)
    requires sep != "" && tail != []
    ensures Split(head + sep + rest, sep) == [head] + tail <==> Uncut(head, sep) && Split(rest, sep) == tail
  {
    hide Uncut, Split;
    var s, parts := head + sep + rest, [head] + tail;
    SplitFirst(head, sep, rest);
    assert s[|head| + |sep|..] == rest && parts[0] == head && parts[1..] == tail;
    if Split(s, sep) == parts {
      CutAtFirst(s, sep, parts);
    }
  }

  /** Joined parts are found again exactly if they are joinable. */
  lemma {:induction false} JoinRoundTrip(parts: seq<string>, sep: string)
    requires sep != "" && parts != []
    ensures Split(Join(parts, sep), sep) == parts <==> Joinable(parts, sep)
  {
    if |parts| == 1 {
      assert Join(parts, sep) == parts[0];
    } else {
      hide Split, Joinable, Uncut, Index;
      JoinRoundTrip(parts[1..], sep);
      JoinableStep(parts, sep);
      SplitStep(parts[0], parts[1..], sep, Join(parts[1..], sep));
      assert parts == [parts[0]] + parts[1..];
    }
  }

  lemma CutAtFirst(s: string, sep: string, parts: seq<string>)
    requires sep != "" && |parts| > 1 && Split(s, sep) == parts
    ensures Index(s, sep) == Some(|parts[0]|) && Split(s[|parts[0]| + |sep|..], sep) == parts[1..]
  {
    var k := Index(s, sep).value;
    assert parts[0] == s[..k];
  }

  /** Go's strings.Trim with a space as the cutset. */
  function Trim(s: string): (r: string)
    ensures r != "" ==> r[0] != ' ' && r[|r| - 1] != ' '
    decreases |s|
  {
    if s == "" then s
    else if s[0] == ' ' then Trim(s[1..])
    else if s[|s| - 1] == ' ' then Trim(s[..|s| - 1])
    else s
  }

  /** Trimming cuts off nothing but spaces. */
  lemma {:induction false} TrimCuts(s: string) returns (i: nat, j: nat)
    ensures i <= j <= |s| && Trim(s) == s[i..j]
    ensures forall k :: 0 <= k < i || j <= k < |s| ==> s[k] == ' '
    decreases |s|
  {
    if s == "" || (s[0] != ' ' && s[|s| - 1] != ' ') {
      i, j := 0, |s|;
    } else if s[0] == ' ' {
      i, j := TrimCuts(s[1..]);
      i, j := i + 1, j + 1;
      assert forall k :: 1 <= k < |s| ==> s[k] == s[1..][k - 1];
    } else {
      i, j := TrimCuts(s[..|s| - 1]);
      assert forall k :: 0 <= k < |s| - 1 ==> s[k] == s[..|s| - 1][k];
    }
  }

  /** Removes every occurrence of `sym`, scanning from the left. */
  function ReplaceAll(s: string, sym: string): string
    requires sym != ""
    decreases |s|
  {
    if s == "" then ""
    else if sym <= s then ReplaceAll(s[|sym|..], sym)
    else [s[0]] + ReplaceAll(s[1..], sym)
  }

  lemma ReplaceSymbol(s: string, sym: string)
    requires sym != ""
    ensures ReplaceAll(sym + s, sym) == ReplaceAll(s, sym)
  {
    assert sym <= sym + s;
    assert (sym + s)[|sym|..] == s;
  }

  lemma ReplaceHead(c: char, s: string, sym: string)
    requires sym != "" && !(sym <= [c] + s)
    ensures ReplaceAll([c] + s, sym) == [c] + ReplaceAll(s, sym)
  {
    assert ([c] + s)[1..] == s;
  }

  /** No occurrence can straddle a boundary whose left side ends outside the symbol. */
  lemma {:induction false} ReplaceConcat(x: string, y: string, sym: string)
    requires sym != ""
    requires x == "" || |sym| == 1 || x[|x| - 1] !in sym
    ensures ReplaceAll(x + y, sym) == ReplaceAll(x, sym) + ReplaceAll(y, sym)
    decreases |x|
  {
    var n := |sym|;
    if x == "" {
      assert x + y == y;
    } else if sym <= x {
      var rest := x[n..];
      assert x == sym + rest && x + y == sym + (rest + y);
      assert n > 1 ==> x[n - 1] == sym[n - 1];
      ReplaceSymbol(rest, sym);
      ReplaceSymbol(rest + y, sym);
      ReplaceConcat(rest, y, sym);
    } else {
      var c, rest := x[0], x[1..];
      assert x == [c] + rest && x + y == [c] + (rest + y);
      StraddleFree(x, y, sym);
      ReplaceHead(c, rest, sym);
      ReplaceHead(c, rest + y, sym);
      ReplaceConcat(rest, y, sym);
    }
  }

  lemma StraddleFree(x: string, y: string, sym: string)
    requires sym != "" && x != "" && !(sym <= x)
    requires |sym| == 1 || x[|x| - 1] !in sym
    ensures !(sym <= x + y)
  {
    assert (x + y)[|x| - 1] == x[|x| - 1];
    if |sym| <= |x| {
      assert (x + y)[..|sym|] == x[..|sym|];
    }
  }

  /** Text without any character of the symbol is kept. */
  lemma {:induction false} ReplaceKeeps(s: string, sym: string)
    requires sym != ""
    requires forall c :: c in s ==> c !in sym
    ensures ReplaceAll(s, sym) == s
    decreases |s|
  {
    if s != "" {
      assert s[0] in s && sym[0] in sym;
      ReplaceKeeps(s[1..], sym);
      assert s == [s[0]] + s[1..];
    }
  }

  /** The non-empty parts of a split at single spaces. */
  function Fields(s: string): seq<string>
    decreases |s|
  {
    match Index(s, " ")
    case None => if s == "" then [] else [s]
    case Some(k) => (if k == 0 then [] else [s[..k]]) + Fields(s[k + 1..])
  }

  /** What is left of the parts once the empty ones are skipped. */
  function SkipEmpty(parts: seq<string>, n: nat): seq<string>
    requires n <= |parts|
  {
    if n == 0 then []
    else SkipEmpty(parts, n - 1) + (if parts[n - 1] == "" then [] else [parts[n - 1]])
  }

  lemma {:induction false} SkipEmptyHead(parts: seq<string>, n: nat)
    requires 1 <= n <= |parts|
    ensures SkipEmpty(parts, n) == (if parts[0] == "" then [] else [parts[0]]) + SkipEmpty(parts[1..], n - 1)
  {
    if n > 1 {
      SkipEmptyHead(parts, n - 1);
    }
  }

  lemma {:induction false} FieldsSkipEmpty(s: string)
    ensures Fields(s) == SkipEmpty(Split(s, " "), |Split(s, " ")|)
    decreases |s|
  {
    hide Index;
    var parts := Split(s, " ");
    SkipEmptyHead(parts, |parts|);
    match Index(s, " ")
    case None =>
    case Some(k) =>
      FieldsSkipEmpty(s[k + 1..]);
      assert parts[1..] == Split(s[k + 1..], " ");
  }

  predicate Word(s: string) { forall j :: 0 <= j < |s| ==> s[j] != ' ' }

  function IfAny(s: string): seq<string> { if s == "" then [] else [s] }

  lemma SpaceOccurs(s: string, k: nat)
    requires k < |s|
    ensures OccursAt(s, " ", k) <==> s[k] == ' '
  {
    assert s[k..k + 1] == [s[k]];
  }

  lemma {:induction false} IndexSpace(s: string, from: nat, k: nat)
    requires from <= k < |s| && s[k] == ' ' && forall j :: from <= j < k ==> s[j] != ' '
    ensures Index(s, " ", from) == Some(k)
    decreases k - from
  {
    SpaceOccurs(s, from);
    if from < k {
      IndexSpace(s, from + 1, k);
    }
  }

  lemma {:induction false} IndexNoSpace(s: string, from: nat)
    requires from <= |s| && Word(s)
    ensures Index(s, " ", from) == None
    decreases |s| - from
  {
    if from < |s| {
      SpaceOccurs(s, from);
      IndexNoSpace(s, from + 1);
    }
  }

  lemma FieldsWord(w: string)
    requires Word(w)
    ensures Fields(w) == IfAny(w)
  {
    IndexNoSpace(w, 0);
  }

  lemma FieldsFirst(w: string, y: string)
    requires Word(w)
    ensures Fields(w + " " + y) == IfAny(w) + Fields(y)
  {
    var s := w + " " + y;
    IndexSpace(s, 0, |w|);
    assert s[..|w|] == w && s[|w| + 1..] == y;
  }

  /** The text in front of the first space, if there is one. */
  lemma {:induction false} CutAtSpace(s: string) returns (w: string, rest: string)
    ensures Word(w)
    ensures (s == w && rest == "") || s == w + " " + rest
    ensures s != w ==> |rest| < |s|
    decreases |s|
  {
    if s == "" || s[0] == ' ' {
      w, rest := "", if s == "" then "" else s[1..];
    } else {
      w, rest := CutAtSpace(s[1..]);
      w := [s[0]] + w;
      assert s == [s[0]] + s[1..];
    }
  }

  /** A space separates whatever stands on its two sides. */
  lemma {:induction false} FieldsConcat(x: string, y: string)
    ensures Fields(x + " " + y) == Fields(x) + Fields(y)
    decreases |x|
  {
    var w, rest := CutAtSpace(x);
    if x == w {
      FieldsWord(w);
      FieldsFirst(w, y);
    } else {
      calc {
        Fields(x + " " + y);
        { assert x + " " + y == w + " " + (rest + " " + y); }
        Fields(w + " " + (rest + " " + y));
        { FieldsFirst(w, rest + " " + y); }
        IfAny(w) + Fields(rest + " " + y);
        { FieldsConcat(rest, y); }
        IfAny(w) + (Fields(rest) + Fields(y));
        (IfAny(w) + Fields(rest)) + Fields(y);
        { FieldsFirst(w, rest); }
        Fields(x) + Fields(y);
      }
    }
  }

  /** The last word of `a` and the first word of `b` grow together. */
  function Merge(a: seq<string>, b: seq<string>): seq<string>
    requires a != [] && b != []
  {
    a[..|a| - 1] + [a[|a| - 1] + b[0]] + b[1..]
  }

  lemma MergeAssoc(p: seq<string>, a: seq<string>, b: seq<string>)
    requires a != [] && b != []
    ensures Merge(p + a, b) == p + Merge(a, b)
  {}

  /** Without a space in between, two texts share one word. */
  lemma {:induction false} FieldsMerge(x: string, y: string)
    requires x != "" && x[|x| - 1] != ' ' && y != "" && y[0] != ' '
    ensures Fields(x) != [] && Fields(y) != []
    ensures Fields(x + y) == Merge(Fields(x), Fields(y))
    decreases |x|
  {
    var w, rest := CutAtSpace(x);
    if x == w {
      FieldsWord(x);
      var v, more := CutAtSpace(y);
      if y == v {
        FieldsWord(y);
        FieldsWord(x + y);
      } else {
        assert x + y == (x + v) + " " + more;
        FieldsFirst(v, more);
        FieldsFirst(x + v, more);
      }
    } else {
      assert x + y == w + " " + (rest + y);
      FieldsFirst(w, rest + y);
      FieldsFirst(w, rest);
      FieldsMerge(rest, y);
      MergeAssoc(IfAny(w), Fields(rest), Fields(y));
    }
  }
}
