/** The bracket scanner: depth counting over `(`/`)` and `{`/`}`, the search
    for the parenthesis that opens a signature's argument list (`_findparen`)
    and the split of an argument list on its top-level commas (`_commasplit`). */
module Brackets {
  import opened Results
  import opened Text
  import opened TypeValues

  /** Two independent nesting counters, read in the same pass. */
  datatype Depth = Depth(parens: int, braces: int)

  const Level0 := Depth(0, 0)

  function Step(d: Depth, c: char): Depth {
    if c == '(' then Depth(d.parens + 1, d.braces)
    else if c == ')' then Depth(d.parens - 1, d.braces)
    else if c == '{' then Depth(d.parens, d.braces + 1)
    else if c == '}' then Depth(d.parens, d.braces - 1)
    else d
  }

  /** The depth reached from `d` after reading all of `s`. */
  function Run(d: Depth, s: string): Depth
    decreases |s|
  {
    if s == [] then d else Run(Step(d, s[0]), s[1..])
  }

  function Add(d: Depth, e: Depth): Depth {
    Depth(d.parens + e.parens, d.braces + e.braces)
  }

  predicate NonNegative(d: Depth) {
    d.parens >= 0 && d.braces >= 0
  }

  /** No bracket closes before it is opened: every depth reached from `d`
      while reading `s` is non-negative. */
  predicate Nested(d: Depth, s: string)
    decreases |s|
  {
    NonNegative(d) && (s == [] || Nested(Step(d, s[0]), s[1..]))
  }

  /** Every bracket of `s` is closed, and none closes before it is opened. */
  predicate Balanced(s: string) {
    Nested(Level0, s) && Run(Level0, s) == Level0
  }

  /** No comma of `s` is read at depth zero, starting from `d`. */
  predicate NoTopComma(d: Depth, s: string)
    decreases |s|
  {
    s == [] || ((s[0] == ',' ==> d != Level0) && NoTopComma(Step(d, s[0]), s[1..]))
  }

  // ---- how the counters compose -------------------------------------------

  lemma {:induction false} RunConcat(d: Depth, a: string, b: string)
    ensures Run(d, a + b) == Run(Run(d, a), b)
    decreases |a|
  {
    if a != [] {
      assert (a + b)[0] == a[0] && (a + b)[1..] == a[1..] + b;
      assert Run(d, a + b) == Run(Step(d, a[0]), a[1..] + b);
      RunConcat(Step(d, a[0]), a[1..], b);
    } else {
      assert a + b == b;
    }
  }

  lemma {:induction false} RunShift(d: Depth, e: Depth, s: string)
    ensures Run(Add(d, e), s) == Add(d, Run(e, s))
    decreases |s|
  {
    if s != [] {
      assert Step(Add(d, e), s[0]) == Add(d, Step(e, s[0]));
      RunShift(d, Step(e, s[0]), s[1..]);
    }
  }

  lemma {:induction false} NestedConcat(d: Depth, a: string, b: string)
    ensures Nested(d, a + b) <==> Nested(d, a) && Nested(Run(d, a), b)
    decreases |a|
  {
    if a != [] {
      assert (a + b)[0] == a[0] && (a + b)[1..] == a[1..] + b;
      NestedConcat(Step(d, a[0]), a[1..], b);
    } else {
      assert a + b == b;
    }
  }

  lemma {:induction false} NestedShift(d: Depth, e: Depth, s: string)
    requires NonNegative(d) && Nested(e, s)
    ensures Nested(Add(d, e), s)
    decreases |s|
  {
    if s != [] {
      assert Step(Add(d, e), s[0]) == Add(d, Step(e, s[0]));
      NestedShift(d, Step(e, s[0]), s[1..]);
    }
  }

  lemma {:induction false} NestedPrefix(d: Depth, s: string, m: nat)
    requires Nested(d, s) && m <= |s|
    ensures Nested(d, s[..m]) && NonNegative(Run(d, s[..m]))
    decreases m
  {
    if m > 0 {
      assert s[..m][0] == s[0] && s[..m][1..] == s[1..][..m - 1];
      NestedPrefix(Step(d, s[0]), s[1..], m - 1);
    }
  }

  lemma {:induction false} NoTopCommaConcat(d: Depth, a: string, b: string)
    ensures NoTopComma(d, a + b) <==> NoTopComma(d, a) && NoTopComma(Run(d, a), b)
    decreases |a|
  {
    if a != [] {
      assert (a + b)[0] == a[0] && (a + b)[1..] == a[1..] + b;
      NoTopCommaConcat(Step(d, a[0]), a[1..], b);
    } else {
      assert a + b == b;
    }
  }

  /** Inside an open bracket no comma is at depth zero. */
  lemma {:induction false} NoTopCommaInside(d: Depth, e: Depth, s: string)
    requires NonNegative(d) && d != Level0 && Nested(e, s)
    ensures NoTopComma(Add(d, e), s)
    decreases |s|
  {
    if s != [] {
      assert Step(Add(d, e), s[0]) == Add(d, Step(e, s[0]));
      NoTopCommaInside(d, Step(e, s[0]), s[1..]);
    }
  }

  /** `"(" + s + ")"` and `"{" + s + "}"` are balanced, and have no top-level
      comma, when `s` is balanced. */
  lemma {:induction false} WrappedBalanced(open: char, s: string, close: char)
    requires (open, close) == ('(', ')') || (open, close) == ('{', '}')
    requires Balanced(s)
    ensures Balanced([open] + s + [close])
    ensures NoTopComma(Level0, [open] + s + [close])
  {
    var d := Step(Level0, open);
    assert Run(Level0, [open]) == d && Add(d, Level0) == d;
    NestedShift(d, Level0, s);
    RunShift(d, Level0, s);
    NestedConcat(Level0, [open], s);
    NestedConcat(Level0, [open] + s, [close]);
    RunConcat(Level0, [open], s);
    RunConcat(Level0, [open] + s, [close]);
    NoTopCommaInside(d, Level0, s);
    NoTopCommaConcat(Level0, [open], s);
    NoTopCommaConcat(Level0, [open] + s, [close]);
  }

  /** Items that are balanced stay balanced when joined by ", ". */
  lemma {:induction false} JoinBalanced(xs: seq<string>)
    requires forall i :: 0 <= i < |xs| ==> Balanced(xs[i])
    ensures Balanced(Join(xs, ", "))
    decreases |xs|
  {
    if |xs| >= 2 {
      var rest := Join(xs[1..], ", ");
      JoinBalanced(xs[1..]);
      assert Balanced(xs[0]);
      assert Run(Level0, ", ") == Level0 && Nested(Level0, ", ");
      NestedConcat(Level0, xs[0], ", ");
      RunConcat(Level0, xs[0], ", ");
      NestedConcat(Level0, xs[0] + ", ", rest);
      RunConcat(Level0, xs[0] + ", ", rest);
    } else if |xs| == 0 {
      assert Join(xs, ", ") == "";
    }
  }

  /** Balanced text followed by balanced text is balanced, and a comma at
      depth zero in the whole is one in either part. */
  lemma {:induction false} BalancedConcat(a: string, b: string)
    requires Balanced(a) && Balanced(b)
    ensures Balanced(a + b)
    ensures NoTopComma(Level0, a + b) <==> NoTopComma(Level0, a) && NoTopComma(Level0, b)
  {
    NestedConcat(Level0, a, b);
    RunConcat(Level0, a, b);
    NoTopCommaConcat(Level0, a, b);
  }

  predicate IsBracket(c: char) {
    c == '(' || c == ')' || c == '{' || c == '}'
  }

  /** Text without brackets never changes the depth. */
  lemma {:induction false} BracketFreeIsFlat(d: Depth, s: string)
    requires forall i :: 0 <= i < |s| ==> !IsBracket(s[i])
    ensures Run(d, s) == d
    ensures NonNegative(d) ==> Nested(d, s)
    decreases |s|
  {
    if s != [] {
      assert Step(d, s[0]) == d;
      BracketFreeIsFlat(d, s[1..]);
    }
  }

  lemma {:induction false} BracketFreeBalanced(s: string)
    requires forall i :: 0 <= i < |s| ==> !IsBracket(s[i])
    ensures Balanced(s)
  {
    BracketFreeIsFlat(Level0, s);
  }

  /** Text without commas has no top-level comma, whatever the depth. */
  lemma {:induction false} CommaFreeNoTopComma(d: Depth, s: string)
    requires forall i :: 0 <= i < |s| ==> s[i] != ','
    ensures NoTopComma(d, s)
    decreases |s|
  {
    if s != [] {
      CommaFreeNoTopComma(Step(d, s[0]), s[1..]);
    }
  }

  /** Whitespace around a balanced piece keeps it balanced and free of
      top-level commas, and trimming takes the whitespace off again. */
  lemma {:induction false} PaddedPiece(a: string, s: string, b: string)
    requires AllSpace(a) && AllSpace(b) && Trimmed(s) && s != []
    requires Balanced(s) && NoTopComma(Level0, s)
    ensures Balanced(a + s + b) && NoTopComma(Level0, a + s + b) && Trim(a + s + b) == s
  {
    BracketFreeBalanced(a);
    BracketFreeBalanced(b);
    CommaFreeNoTopComma(Level0, a);
    CommaFreeNoTopComma(Level0, b);
    BalancedConcat(a, s);
    BalancedConcat(a + s, b);
    TrimPadded(a, s, b);
  }

  // ---- _findparen ---------------------------------------------------------

  /** `s[i]` is a `(` that opens at depth zero. */
  predicate IsTopParen(s: string, i: int) {
    0 <= i < |s| && s[i] == '(' && Run(Level0, s[..i]) == Level0
  }

  /** The last `(` of `s` read at depth zero, counting depths from `d`. */
  function LastTopParen(s: string, d: Depth): (r: Option<nat>)
    decreases |s|
    ensures r.Some? ==> r.value < |s| && s[r.value] == '(' && Run(d, s[..r.value]) == Level0
    ensures forall j :: (if r.Some? then r.value else -1) < j < |s| && s[j] == '(' ==> Run(d, s[..j]) != Level0
  {
    if s == [] then None
    else
      var rest := LastTopParen(s[1..], Step(d, s[0]));
      assert forall j :: 0 < j <= |s| ==> s[..j][0] == s[0] && s[..j][1..] == s[1..][..j - 1];
      match rest
      case Some(k) => Some(k + 1)
      case None =>
        if s[0] == '(' && d == Level0 then Some(0) else None
  }

  /** `_findparen(s)`: the index of the `(` that opens the last top-level
      argument group of `s`; the search fails when `s` has no `(` at depth zero. */
  function FindParen(s: string): (r: Result<nat, TypeError>)
    ensures r.Ok? ==> IsTopParen(s, r.value) && forall j :: r.value < j < |s| ==> !IsTopParen(s, j)
    ensures r.Err? ==> r.error == LparenNotFound(s) && forall j :: 0 <= j < |s| ==> !IsTopParen(s, j)
  {
    match LastTopParen(s, Level0)
    case Some(i) => Ok(i)
    case None => Err(LparenNotFound(s))
  }

  /** In a signature `R(P)` whose result text `R` is balanced and whose
      argument text `P` never closes more than it opens, the argument group
      opens right after `R`. */
  lemma {:induction false} FindParenOfSignature(res: string, args: string)
    requires Run(Level0, res) == Level0 && Nested(Level0, args)
    ensures FindParen(res + "(" + args + ")") == Ok(|res|)
  {
    var s := res + "(" + args + ")";
    assert s[..|res|] == res;
    assert IsTopParen(s, |res|);
    forall j | |res| < j < |s| ensures !IsTopParen(s, j) {
      if j < |s| - 1 {
        InsideArgumentGroup(res, args, j - |res| - 1);
        assert s[..j] == res + "(" + args[..j - |res| - 1];
      }
    }
  }

  /** Within the argument group of `R(P)` the parenthesis depth is at least one. */
  lemma {:induction false} InsideArgumentGroup(res: string, args: string, m: nat)
    requires Run(Level0, res) == Level0 && Nested(Level0, args) && m <= |args|
    ensures Run(Level0, res + "(" + args[..m]).parens >= 1
  {
    RunConcat(Level0, res + "(", args[..m]);
    RunConcat(Level0, res, "(");
    assert Run(Level0, "(") == Depth(1, 0);
    NestedPrefix(Level0, args, m);
    RunShift(Depth(1, 0), Level0, args[..m]);
    assert Add(Depth(1, 0), Level0) == Depth(1, 0);
  }

  // ---- _commasplit --------------------------------------------------------

  /** The pieces of `cur + s` between the commas of `s` read at depth zero;
      `cur` is the piece read so far and `d` the depth reached in it. */
  function SplitPieces(s: string, cur: string, d: Depth): (pieces: seq<string>)
    decreases |s|
    ensures |pieces| >= 1
    ensures forall i :: 0 <= i < |pieces| ==> |pieces[i]| <= |cur| + |s|
  {
    if s == [] then [cur]
    else if s[0] == ',' && d == Level0 then [cur] + SplitPieces(s[1..], "", Level0)
    else SplitPieces(s[1..], cur + [s[0]], Step(d, s[0]))
  }

  /** A piece with no top-level comma is read whole. */
  lemma {:induction false} SplitPiecesSkip(x: string, s: string, cur: string, d: Depth)
    requires NoTopComma(d, x)
    ensures SplitPieces(x + s, cur, d) == SplitPieces(s, cur + x, Run(d, x))
    decreases |x|
  {
    if x != [] {
      assert (x + s)[0] == x[0] && (x + s)[1..] == x[1..] + s;
      assert cur + [x[0]] + x[1..] == cur + x;
      SplitPiecesSkip(x[1..], s, cur + [x[0]], Step(d, x[0]));
    } else {
      assert x + s == s && cur + x == cur;
    }
  }

  /** Each item with one space in front. */
  function SpaceBefore(xs: seq<string>): (r: seq<string>)
    ensures |r| == |xs| && forall i :: 0 <= i < |xs| ==> r[i] == " " + xs[i]
  {
    seq(|xs|, i requires 0 <= i < |xs| => " " + xs[i])
  }

  /** Splitting items joined by ", " gives the items back, each after the
      first still carrying its separator space. */
  lemma {:induction false} SplitPiecesOfJoin(xs: seq<string>, cur: string)
    requires |xs| >= 1
    requires forall i :: 0 <= i < |xs| ==> NoTopComma(Level0, xs[i]) && Run(Level0, xs[i]) == Level0
    ensures SplitPieces(Join(xs, ", "), cur, Level0) == [cur + xs[0]] + SpaceBefore(xs[1..])
    decreases |xs|
  {
    if |xs| == 1 {
      SplitPiecesSkip(xs[0], "", cur, Level0);
      assert xs[0] + "" == xs[0];
    } else {
      var rest := Join(xs[1..], ", ");
      assert Join(xs, ", ") == xs[0] + (", " + rest);
      SplitPiecesSkip(xs[0], ", " + rest, cur, Level0);
      assert (", " + rest)[1..] == " " + rest;
      assert (" " + rest)[0] == ' ' && (" " + rest)[1..] == rest;
      assert "" + [' '] == " " && Step(Level0, ' ') == Level0;
      assert SplitPieces(" " + rest, "", Level0) == SplitPieces(rest, " ", Level0);
      SplitPiecesOfJoin(xs[1..], " ");
      assert SpaceBefore(xs[1..]) == [" " + xs[1]] + SpaceBefore(xs[2..]);
    }
  }

  /** Every piece but the last closes all its brackets, and no piece holds a
      comma at depth zero. */
  predicate TopLevelPieces(ps: seq<string>) {
    && (forall i :: 0 <= i < |ps| ==> NoTopComma(Level0, ps[i]))
    && (forall i :: 0 <= i < |ps| - 1 ==> Run(Level0, ps[i]) == Level0)
  }

  /** Joining the pieces `SplitPieces` cuts with "," gives back the piece
      read so far followed by the text: the split drops nothing but the
      commas it cuts at. */
  lemma {:induction false} SplitPiecesRejoin(s: string, cur: string, d: Depth)
    ensures Join(SplitPieces(s, cur, d), ",") == cur + s
    decreases |s|
  {
    if s == [] {
      assert cur + s == cur;
    } else if s[0] == ',' && d == Level0 {
      var rest := SplitPieces(s[1..], "", Level0);
      SplitPiecesRejoin(s[1..], "", Level0);
      var ps := [cur] + rest;
      assert ps[0] == cur && ps[1..] == rest;
      assert Join(ps, ",") == cur + "," + ("" + s[1..]);
      assert s == [s[0]] + s[1..];
    } else {
      SplitPiecesRejoin(s[1..], cur + [s[0]], Step(d, s[0]));
      assert cur + [s[0]] + s[1..] == cur + s;
    }
  }

  /** The pieces `SplitPieces` cuts are top-level pieces; with
      `SplitPiecesRejoin` and `CommaSplitOfCut`, they are the only such cut
      of the text. */
  lemma {:induction false} SplitPiecesAreTopLevel(s: string, cur: string, d: Depth)
    requires d == Run(Level0, cur) && NoTopComma(Level0, cur)
    ensures TopLevelPieces(SplitPieces(s, cur, d))
    decreases |s|
  {
    var ps := SplitPieces(s, cur, d);
    if s == [] {
      assert ps == [cur];
    } else if s[0] == ',' && d == Level0 {
      var rest := SplitPieces(s[1..], "", Level0);
      assert ps == [cur] + rest;
      SplitPiecesAreTopLevel(s[1..], "", Level0);
      assert TopLevelPieces(rest);
      forall i | 0 <= i < |ps| ensures NoTopComma(Level0, ps[i]) {
        if i > 0 { assert ps[i] == rest[i - 1]; } else { assert ps[0] == cur; }
      }
      forall i | 0 <= i < |ps| - 1 ensures Run(Level0, ps[i]) == Level0 {
        if i > 0 { assert ps[i] == rest[i - 1]; } else { assert ps[0] == cur; }
      }
    } else {
      var c := s[0];
      assert ps == SplitPieces(s[1..], cur + [c], Step(d, c));
      RunConcat(Level0, cur, [c]);
      assert Run(d, [c]) == Step(d, c);
      NoTopCommaConcat(Level0, cur, [c]);
      assert NoTopComma(d, [c]);
      SplitPiecesAreTopLevel(s[1..], cur + [c], Step(d, c));
    }
  }

  function TrimAll(xs: seq<string>): (r: seq<string>)
    ensures |r| == |xs| && forall i :: 0 <= i < |xs| ==> r[i] == Trim(xs[i])
  {
    seq(|xs|, i requires 0 <= i < |xs| => Trim(xs[i]))
  }

  /** `_commasplit(s)`: the trimmed pieces of `s` between its commas at
      depth zero; it fails when `s` leaves a bracket open or closes one too
      many. The empty string is one empty piece. */
  function CommaSplit(s: string): (r: Result<seq<string>, TypeError>)
    ensures r.Err? <==> Run(Level0, s) != Level0
    ensures r.Err? ==> r.error == CommaSplitFailed(s)
    ensures r.Ok? ==> |r.value| >= 1 && forall i :: 0 <= i < |r.value| ==> |r.value[i]| <= |s| && Trimmed(r.value[i])
  {
    if Run(Level0, s) != Level0 then Err(CommaSplitFailed(s))
    else Ok(TrimAll(SplitPieces(s, "", Level0)))
  }

  /** Splitting pieces joined by "," gives the pieces back, untrimmed. */
  lemma {:induction false} SplitPiecesOfCommaJoin(xs: seq<string>, cur: string)
    requires |xs| >= 1
    requires forall i :: 0 <= i < |xs| ==> NoTopComma(Level0, xs[i]) && Run(Level0, xs[i]) == Level0
    ensures SplitPieces(Join(xs, ","), cur, Level0) == [cur + xs[0]] + xs[1..]
    decreases |xs|
  {
    if |xs| == 1 {
      SplitPiecesSkip(xs[0], "", cur, Level0);
      assert xs[0] + "" == xs[0];
    } else {
      var rest := Join(xs[1..], ",");
      assert Join(xs, ",") == xs[0] + ("," + rest);
      SplitPiecesSkip(xs[0], "," + rest, cur, Level0);
      assert ("," + rest)[0] == ',' && ("," + rest)[1..] == rest;
      SplitPiecesOfCommaJoin(xs[1..], "");
      assert "" + xs[1] == xs[1];
      assert [xs[1]] + xs[2..] == xs[1..];
    }
  }

  /** Pieces that each close their brackets and hold no comma at depth
      zero, joined by ",", split into the same pieces, each trimmed. The
      pieces need not be nested: `)(` is such a piece. */
  lemma {:induction false} CommaSplitOfCut(xs: seq<string>)
    requires |xs| >= 1
    requires forall i :: 0 <= i < |xs| ==> NoTopComma(Level0, xs[i]) && Run(Level0, xs[i]) == Level0
    ensures CommaSplit(Join(xs, ",")) == Ok(TrimAll(xs))
  {
    CommaJoinRun(xs);
    SplitPiecesOfCommaJoin(xs, "");
    assert "" + xs[0] == xs[0];
    assert [xs[0]] + xs[1..] == xs;
  }

  lemma {:induction false} CommaJoinRun(xs: seq<string>)
    requires forall i :: 0 <= i < |xs| ==> Run(Level0, xs[i]) == Level0
    ensures Run(Level0, Join(xs, ",")) == Level0
    decreases |xs|
  {
    if |xs| >= 2 {
      CommaJoinRun(xs[1..]);
      RunConcat(Level0, xs[0], ",");
      RunConcat(Level0, xs[0] + ",", Join(xs[1..], ","));
    } else if |xs| == 0 {
      assert Join(xs, ",") == "";
    }
  }

  /** A successful split is a cut of the text: there are top-level pieces
      that join with "," into the text and whose trimmed forms are the
      result. */
  lemma {:induction false} CommaSplitIsCut(s: string)
    requires CommaSplit(s).Ok?
    ensures exists raw :: Join(raw, ",") == s && TopLevelPieces(raw) && CommaSplit(s).value == TrimAll(raw)
  {
    var raw := SplitPieces(s, "", Level0);
    SplitPiecesRejoin(s, "", Level0);
    assert "" + s == s;
    SplitPiecesAreTopLevel(s, "", Level0);
  }

  /** A piece that splits cleanly is read whole, trimmed. */
  lemma {:induction false} CommaSplitOfPiece(x: string)
    requires Balanced(x) && NoTopComma(Level0, x)
    ensures CommaSplit(x) == Ok([Trim(x)])
  {
    CommaSplitOfCut([x]);
    assert Join([x], ",") == x;
    assert TrimAll([x]) == [Trim(x)];
  }

  /** Reading past a piece with no top-level comma, and the comma after it. */
  lemma {:induction false} SplitPiecesAfterPiece(x: string, rest: string)
    requires NoTopComma(Level0, x) && Run(Level0, x) == Level0
    ensures SplitPieces(x + "," + rest, "", Level0) == [x] + SplitPieces(rest, "", Level0)
  {
    var t := "," + rest;
    assert x + "," + rest == x + t && "" + x == x;
    SplitPiecesSkip(x, t, "", Level0);
    assert t[0] == ',' && t[1..] == rest;
  }

  /** A piece that splits cleanly, a comma, then text that splits: the piece
      trimmed comes first, then the pieces of the rest. */
  lemma {:induction false} CommaSplitCons(x: string, rest: string)
    requires Balanced(x) && NoTopComma(Level0, x) && CommaSplit(rest).Ok?
    ensures CommaSplit(x + "," + rest) == Ok([Trim(x)] + CommaSplit(rest).value)
  {
    var s := x + "," + rest;
    assert Run(Level0, s) == Level0 by {
      assert s == (x + ",") + rest;
      RunConcat(Level0, x, ",");
      RunConcat(Level0, x + ",", rest);
    }
    SplitPiecesAfterPiece(x, rest);
    TrimAllCons(x, SplitPieces(rest, "", Level0));
  }

  lemma {:induction false} TrimAllCons(x: string, ps: seq<string>)
    ensures TrimAll([x] + ps) == [Trim(x)] + TrimAll(ps)
  {
    var l, r := TrimAll([x] + ps), [Trim(x)] + TrimAll(ps);
    forall i | 0 <= i < |l| ensures l[i] == r[i] {
      if i > 0 {
        assert ([x] + ps)[i] == ps[i - 1];
      }
    }
  }

  lemma {:induction false} CommaJoinBalanced(xs: seq<string>)
    requires forall i :: 0 <= i < |xs| ==> Balanced(xs[i])
    ensures Balanced(Join(xs, ","))
    decreases |xs|
  {
    if |xs| >= 2 {
      var rest := Join(xs[1..], ",");
      CommaJoinBalanced(xs[1..]);
      assert Balanced(",") by { BracketFreeBalanced(","); }
      BalancedConcat(xs[0], ",");
      BalancedConcat(xs[0] + ",", rest);
    } else if |xs| == 0 {
      assert Join(xs, ",") == "";
    }
  }

  /** Trimmed, balanced items joined by ", " split back into the same items. */
  lemma {:induction false} CommaSplitOfJoin(xs: seq<string>)
    requires |xs| >= 1
    requires forall i :: 0 <= i < |xs| ==> Balanced(xs[i]) && NoTopComma(Level0, xs[i]) && Trimmed(xs[i])
    ensures CommaSplit(Join(xs, ", ")) == Ok(xs)
  {
    JoinBalanced(xs);
    var ps := SplitPieces(Join(xs, ", "), "", Level0);
    SplitPiecesOfJoin(xs, "");
    assert ps == ["" + xs[0]] + SpaceBefore(xs[1..]);
    TrimPieces(xs, ps);
    assert TrimAll(ps) == xs;
  }

  lemma {:induction false} TrimPieces(xs: seq<string>, ps: seq<string>)
    requires |xs| >= 1 && forall i :: 0 <= i < |xs| ==> Trimmed(xs[i])
    requires ps == ["" + xs[0]] + SpaceBefore(xs[1..])
    ensures |ps| == |xs| && forall i :: 0 <= i < |xs| ==> Trim(ps[i]) == xs[i]
  {
    forall i | 0 <= i < |xs| ensures Trim(ps[i]) == xs[i] {
      if i == 0 {
        assert ps[0] == xs[0];
        TrimOfTrimmed(xs[0]);
      } else {
        assert ps[i] == " " + xs[i];
        TrimAfterSpace(xs[i]);
      }
    }
  }
}
