/** The documented cases of the bracket scanner (`_findparen`) and of the
    top-level comma splitter (`_commasplit`). Each case is first proved for
    every text of its shape, with bracket-free parts left open, and then for
    the documented text, fixed by a `requires`. */
module BracketExamples {
  import opened Results
  import opened Text
  import opened Brackets

  predicate BracketFree(x: string) {
    forall i :: 0 <= i < |x| ==> !IsBracket(x[i])
  }

  /** `x(y)` is balanced when `x` and `y` are. */
  lemma {:induction false} Call(x: string, y: string)
    requires Balanced(x) && Balanced(y)
    ensures Balanced(x + "(" + y + ")")
  {
    WrappedBalanced('(', y, ')');
    BalancedConcat(x, ['('] + y + [')']);
    assert x + (['('] + y + [')']) == x + "(" + y + ")";
  }

  // ---- _findparen -----------------------------------------------------------

  /** `r(x)`, `r(x(y))`-like argument lists: the group found is the one after `r`. */
  lemma {:induction false} FindParenOfCallShape(r: string, x: string, y: string)
    requires BracketFree(r) && BracketFree(x) && BracketFree(y)
    ensures FindParen(r + "(" + x + ")") == Ok(|r|)
    ensures FindParen(r + "(" + (x + "(" + y + ")") + ")") == Ok(|r|)
  {
    BracketFreeIsFlat(Level0, r);
    BracketFreeBalanced(x);
    BracketFreeBalanced(y);
    Call(x, y);
    FindParenOfSignature(r, x);
    FindParenOfSignature(r, x + "(" + y + ")");
  }

  lemma FindParenOfSimpleCall(s: string)
    requires s == "a(b)"
    ensures FindParen(s) == Ok(1)
  {
    assert BracketFree("a") && BracketFree("b") && BracketFree("");
    FindParenOfCallShape("a", "b", "");
    assert s == "a" + "(" + "b" + ")";
  }

  lemma FindParenBeforeInnerCalls(t: string, u: string)
    requires t == "a(b, c())" && u == "a(b, c(d))"
    ensures FindParen(t) == Ok(1) && FindParen(u) == Ok(1)
  {
    assert BracketFree("a") && BracketFree("b, c") && BracketFree("") && BracketFree("d");
    FindParenOfCallShape("a", "b, c", "");
    FindParenOfCallShape("a", "b, c", "d");
    assert t == "a" + "(" + ("b, c" + "(" + "" + ")") + ")";
    assert u == "a" + "(" + ("b, c" + "(" + "d" + ")") + ")";
  }

  /** `r(x1(y1)x2(x3()x4))`: calls nested inside the argument list. */
  lemma {:induction false} FindParenOfNestedCallShape(s: string, r: string, x1: string, y1: string, x2: string, x3: string, x4: string)
    requires BracketFree(r) && BracketFree(x1) && BracketFree(y1)
    requires BracketFree(x2) && BracketFree(x3) && BracketFree(x4)
    requires s == r + "(" + ((x1 + "(" + y1 + ")") + (x2 + "(" + ((x3 + "()") + x4) + ")")) + ")"
    ensures FindParen(s) == Ok(|r|)
  {
    BracketFreeIsFlat(Level0, r);
    BracketFreeBalanced(x1);
    BracketFreeBalanced(y1);
    BracketFreeBalanced(x2);
    BracketFreeBalanced(x3);
    BracketFreeBalanced(x4);
    BracketFreeBalanced("");
    Call(x1, y1);
    Call(x3, "");
    assert x3 + "(" + "" + ")" == x3 + "()";
    BalancedConcat(x3 + "()", x4);
    Call(x2, (x3 + "()") + x4);
    BalancedConcat(x1 + "(" + y1 + ")", x2 + "(" + ((x3 + "()") + x4) + ")");
    FindParenOfSignature(r, (x1 + "(" + y1 + ")") + (x2 + "(" + ((x3 + "()") + x4) + ")"));
  }

  lemma FindParenOfNestedCalls(s: string)
    requires s == "a(b(a), c(f(), d))"
    ensures FindParen(s) == Ok(1)
  {
    assert BracketFree("a") && BracketFree("b") && BracketFree(", c") && BracketFree("f") && BracketFree(", d");
    var p1, p2 := "b" + "(" + "a" + ")", ("f" + "()") + ", d";
    var p3 := ", c" + "(" + p2 + ")";
    assert p1 == "b(a)" && p2 == "f(), d";
    assert p3 == ", c(f(), d)";
    assert s == "a" + "(" + (p1 + p3) + ")";
    FindParenOfNestedCallShape(s, "a", "b", "a", ", c", "f", ", d");
  }

  /** The group found is the last one at depth zero: after a group that ends
      the result text, and after a braced result. */
  lemma {:induction false} FindParenAfterGroupShape(x: string, y: string, z: string, w: string)
    requires BracketFree(x) && BracketFree(y) && BracketFree(z) && BracketFree(w)
    ensures FindParen((x + "()") + "(" + w + ")") == Ok(|x| + 2)
    ensures FindParen((['{'] + ((y + "()") + (z + "()")) + ['}']) + "(" + w + ")") == Ok(|y| + |z| + 6)
  {
    BracketFreeBalanced(x);
    BracketFreeBalanced(y);
    BracketFreeBalanced(z);
    BracketFreeBalanced(w);
    BracketFreeBalanced("");
    Call(x, "");
    Call(y, "");
    Call(z, "");
    assert x + "(" + "" + ")" == x + "()" && y + "(" + "" + ")" == y + "()" && z + "(" + "" + ")" == z + "()";
    FindParenOfSignature(x + "()", w);
    BalancedConcat(y + "()", z + "()");
    WrappedBalanced('{', (y + "()") + (z + "()"), '}');
    FindParenOfSignature(['{'] + ((y + "()") + (z + "()")) + ['}'], w);
  }

  lemma FindParenAfterEmptyGroup(s: string)
    requires s == "a()(b)"
    ensures FindParen(s) == Ok(3)
  {
    assert BracketFree("a") && BracketFree("b");
    FindParenAfterGroupShape("a", "a", "a", "b");
    assert s == ("a" + "()") + "(" + "b" + ")";
  }

  lemma FindParenAfterBracedResult(t: string)
    requires t == "{a(),c()}(b)"
    ensures FindParen(t) == Ok(9)
  {
    assert BracketFree("a") && BracketFree(",c") && BracketFree("b");
    FindParenAfterGroupShape("a", "a", ",c", "b");
    var g := ("a" + "()") + (",c" + "()");
    assert g == "a(),c()";
    assert t == (['{'] + g + ['}']) + "(" + "b" + ")";
  }

  // ---- _commasplit ----------------------------------------------------------

  /** A piece the splitter hands back as it is: non-empty, trimmed, balanced
      and without a comma at depth zero. */
  predicate CleanPiece(x: string) {
    x != [] && Trimmed(x) && Balanced(x) && NoTopComma(Level0, x)
  }

  /** A single character that is neither whitespace, a bracket nor a comma. */
  predicate Letter(x: string) {
    |x| == 1 && !IsSpace(x[0]) && !IsBracket(x[0]) && x[0] != ','
  }

  lemma {:induction false} LetterPiece(x: string)
    requires Letter(x)
    ensures CleanPiece(x)
  {
    BracketFreeBalanced(x);
    CommaFreeNoTopComma(Level0, x);
  }

  /** `(u)` or `{u}` around bracket-free `u` is a clean piece, commas in `u` included. */
  lemma {:induction false} GroupPiece(g: string, open: char, u: string, close: char)
    requires (open, close) == ('(', ')') || (open, close) == ('{', '}')
    requires BracketFree(u) && g == [open] + u + [close]
    ensures CleanPiece(g)
  {
    BracketFreeBalanced(u);
    WrappedBalanced(open, u, close);
  }

  lemma {:induction false} OnePiece(s: string)
    requires CleanPiece(s)
    ensures CommaSplit(s) == Ok([s])
  {
    CommaSplitOfPiece(s);
    TrimOfTrimmed(s);
  }

  /** `p0 x p , q y` with whitespace `p0`, `p` and `q` splits into `x` and `y`. */
  lemma {:induction false} TwoPieces(s: string, x: string, y: string, p0: string, p: string, q: string)
    requires CleanPiece(x) && CleanPiece(y) && AllSpace(p0) && AllSpace(p) && AllSpace(q)
    requires s == (p0 + x + p) + "," + (q + y)
    ensures CommaSplit(s) == Ok([x, y])
  {
    PaddedPiece(p0, x, p);
    PaddedPiece(q, y, "");
    assert q + y + "" == q + y;
    CommaSplitOfPiece(q + y);
    CommaSplitCons(p0 + x + p, q + y);
    assert [x] + [y] == [x, y];
  }

  /** `x , p1 y p2 , p3 z` with whitespace paddings splits into `x`, `y` and `z`. */
  lemma {:induction false} ThreePieces(s: string, x: string, y: string, z: string, p1: string, p2: string, p3: string)
    requires CleanPiece(x) && CleanPiece(y) && CleanPiece(z)
    requires AllSpace(p1) && AllSpace(p2) && AllSpace(p3)
    requires s == x + "," + ((p1 + y + p2) + "," + (p3 + z))
    ensures CommaSplit(s) == Ok([x, y, z])
  {
    TwoPieces((p1 + y + p2) + "," + (p3 + z), y, z, p1, p2, p3);
    TrimOfTrimmed(x);
    CommaSplitCons(x, (p1 + y + p2) + "," + (p3 + z));
    assert [x] + [y, z] == [x, y, z];
  }

  lemma CommaSplitOfNames(s: string, t: string, u: string)
    requires s == "a" && t == "a, b" && u == "a, b  , c"
    ensures CommaSplit(s) == Ok(["a"])
    ensures CommaSplit(t) == Ok(["a", "b"])
    ensures CommaSplit(u) == Ok(["a", "b", "c"])
  {
    LetterPiece("a");
    LetterPiece("b");
    LetterPiece("c");
    assert AllSpace("") && AllSpace(" ") && AllSpace("  ");
    OnePiece(s);
    assert t == ("" + "a" + "") + "," + (" " + "b");
    TwoPieces(t, "a", "b", "", "", " ");
    assert u == "a" + "," + ((" " + "b" + "  ") + "," + (" " + "c"));
    ThreePieces(u, "a", "b", "c", " ", "  ", " ");
  }

  /** `x, (u)  , z`: a group keeps its inner commas. */
  lemma {:induction false} GroupBetweenLetters(s: string, x: string, u: string, z: string)
    requires Letter(x) && Letter(z) && BracketFree(u)
    requires s == x + "," + ((" " + (['('] + u + [')']) + "  ") + "," + (" " + z))
    ensures CommaSplit(s) == Ok([x, ['('] + u + [')'], z])
  {
    LetterPiece(x);
    LetterPiece(z);
    GroupPiece(['('] + u + [')'], '(', u, ')');
    assert AllSpace(" ") && AllSpace("  ");
    ThreePieces(s, x, ['('] + u + [')'], z, " ", "  ", " ");
  }

  lemma CommaSplitKeepsGroup(s: string)
    requires s == "a, (b, e)  , c"
    ensures CommaSplit(s) == Ok(["a", "(b, e)", "c"])
  {
    assert Letter("a") && Letter("c") && BracketFree("b, e");
    assert ['('] + "b, e" + [')'] == "(b, e)";
    assert s == "a" + "," + ((" " + "(b, e)" + "  ") + "," + (" " + "c"));
    GroupBetweenLetters(s, "a", "b, e", "c");
  }

  /** `(x(y{u}))` with bracket-free `x`, `y` and `u` is a clean piece. */
  lemma {:induction false} DeepGroupPiece(g: string, x: string, y: string, u: string)
    requires BracketFree(x) && BracketFree(y) && BracketFree(u)
    requires g == "(" + x + "(" + y + "{" + u + "})" + ")"
    ensures CleanPiece(g)
  {
    assert g == ['('] + (x + (['('] + (y + (['{'] + u + ['}'])) + [')'])) + [')'];
    BracketFreeBalanced(x);
    BracketFreeBalanced(y);
    BracketFreeBalanced(u);
    WrappedBalanced('{', u, '}');
    BalancedConcat(y, ['{'] + u + ['}']);
    WrappedBalanced('(', y + (['{'] + u + ['}']), ')');
    BalancedConcat(x, ['('] + (y + (['{'] + u + ['}'])) + [')']);
    WrappedBalanced('(', x + (['('] + (y + (['{'] + u + ['}'])) + [')']), ')');
  }

  /** `a, (x(y{u}))  , c`: groups inside groups are kept whole. */
  lemma {:induction false} DeepGroupBetweenLetters(s: string, g: string, a: string, x: string, y: string, u: string, c: string)
    requires Letter(a) && Letter(c) && BracketFree(x) && BracketFree(y) && BracketFree(u)
    requires g == "(" + x + "(" + y + "{" + u + "})" + ")"
    requires s == a + ", " + g + "  , " + c
    ensures CommaSplit(s) == Ok([a, g, c])
  {
    assert s == a + "," + ((" " + g + "  ") + "," + (" " + c));
    LetterPiece(a);
    LetterPiece(c);
    DeepGroupPiece(g, x, y, u);
    assert AllSpace(" ") && AllSpace("  ");
    ThreePieces(s, a, g, c, " ", "  ", " ");
  }

  lemma CommaSplitKeepsNestedGroups(s: string)
    requires s == "a, (b, (e,f ,g{h, j}))  , c"
    ensures CommaSplit(s) == Ok(["a", "(b, (e,f ,g{h, j}))", "c"])
  {
    var g := "(b, (e,f ,g{h, j}))";
    NestedGroupText(g);
    NestedGroupsText(s, g);
    assert Letter("a") && Letter("c");
    assert BracketFree("b, ") && BracketFree("e,f ,g") && BracketFree("h, j");
    DeepGroupBetweenLetters(s, g, "a", "b, ", "e,f ,g", "h, j", "c");
  }

  lemma NestedGroupText(g: string)
    requires g == "(b, (e,f ,g{h, j}))"
    ensures g == "(" + "b, " + "(" + "e,f ,g" + "{" + "h, j" + "})" + ")"
  {
  }

  lemma NestedGroupsText(s: string, g: string)
    requires s == "a, (b, (e,f ,g{h, j}))  , c" && g == "(b, (e,f ,g{h, j}))"
    ensures s == "a" + ", " + g + "  , " + "c"
  {
  }

  /** `(u)` and `{u}` are one piece each. */
  lemma {:induction false} OneGroup(s: string, open: char, u: string, close: char)
    requires (open, close) == ('(', ')') || (open, close) == ('{', '}')
    requires BracketFree(u) && s == [open] + u + [close]
    ensures CommaSplit(s) == Ok([s])
  {
    GroupPiece(s, open, u, close);
    OnePiece(s);
  }

  lemma CommaSplitOfOneGroup(s: string, t: string)
    requires s == "(a, b)" && t == "{a, b}"
    ensures CommaSplit(s) == Ok(["(a, b)"]) && CommaSplit(t) == Ok(["{a, b}"])
  {
    assert BracketFree("a, b");
    OneGroup(s, '(', "a, b", ')');
    OneGroup(t, '{', "a, b", '}');
  }

  /** `(u) , {v}`: two groups are two pieces. */
  lemma {:induction false} TwoGroups(s: string, u: string, v: string)
    requires BracketFree(u) && BracketFree(v)
    requires s == ("" + (['('] + u + [')']) + " ") + "," + (" " + (['{'] + v + ['}']))
    ensures CommaSplit(s) == Ok([['('] + u + [')'], ['{'] + v + ['}']])
  {
    GroupPiece(['('] + u + [')'], '(', u, ')');
    GroupPiece(['{'] + v + ['}'], '{', v, '}');
    assert AllSpace("") && AllSpace(" ");
    TwoPieces(s, ['('] + u + [')'], ['{'] + v + ['}'], "", " ", " ");
  }

  lemma CommaSplitOfTwoGroups(s: string)
    requires s == "(a, b) , {d, e}"
    ensures CommaSplit(s) == Ok(["(a, b)", "{d, e}"])
  {
    assert BracketFree("a, b") && BracketFree("d, e");
    assert ['('] + "a, b" + [')'] == "(a, b)" && ['{'] + "d, e" + ['}'] == "{d, e}";
    assert s == ("" + "(a, b)" + " ") + "," + (" " + "{d, e}");
    TwoGroups(s, "a, b", "d, e");
  }
}
