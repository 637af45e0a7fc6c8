/** The documented readings of `Type.fromstring` and of the shape predicates
    (`is_void`, `is_atomic`, `is_pointer`, `is_struct`, `is_function`). Each
    shape of text is first read for every text of that shape, with names,
    whitespace and item lists left open, and then for the documented text,
    fixed by a `requires`. */
module ParseExamples {
  import opened Results
  import opened Text
  import opened TypeValues
  import opened Names
  import opened Brackets
  import opened Parser
  import opened Printer
  import opened BracketExamples

  // ---- flat text --------------------------------------------------------------

  predicate CommaFree(x: string) {
    forall i :: 0 <= i < |x| ==> x[i] != ','
  }

  /** Neither a bracket nor a comma: text the scanner reads as one flat piece. */
  predicate Plain(x: string) {
    BracketFree(x) && CommaFree(x)
  }

  lemma {:induction false} FlatCat(u: string, v: string)
    requires BracketFree(u) && BracketFree(v)
    ensures BracketFree(u + v)
  {
    assert forall i :: 0 <= i < |u + v| ==> (u + v)[i] == if i < |u| then u[i] else v[i - |u|];
  }

  lemma {:induction false} PlainPiece(x: string)
    requires Plain(x)
    ensures Balanced(x) && NoTopComma(Level0, x) && CommaSplit(x) == Ok([Trim(x)])
  {
    BracketFreeBalanced(x);
    CommaFreeNoTopComma(Level0, x);
    CommaSplitOfPiece(x);
  }

  /** Whitespace alone reads as void. */
  lemma {:induction false} ParseOfSpace(a: string)
    requires AllSpace(a)
    ensures Parse(a) == Ok(Void)
  {
    TrimOfSpace(a);
    ParseOfVoidName(a);
  }

  // ---- words ------------------------------------------------------------------

  /** Text without brackets that reads as `t` on its own: a name that does not
      start like `void` or `none` and does not end in `*` or `,` reads as that
      name normalized, and a void name reads as void. */
  predicate Simple(x: string, t: Type) {
    Trimmed(x) && BracketFree(x) &&
    if x != [] && LowerChar(x[0]) != 'v' && LowerChar(x[0]) != 'n' then
      x[|x| - 1] != '*' && x[|x| - 1] != ',' && t == Atomic(Normalize(x))
    else
      IsVoidName(x) && t == Void
  }

  lemma {:induction false} FirstLetterNotVoid(n: string)
    requires n != [] && LowerChar(n[0]) != 'v' && LowerChar(n[0]) != 'n'
    ensures !IsVoidName(n)
  {
    assert Lower(n)[0] == LowerChar(n[0]);
  }

  lemma {:induction false} SimpleReads(x: string, t: Type)
    requires Simple(x, t)
    ensures Parse(x) == Ok(t)
  {
    if x != [] && LowerChar(x[0]) != 'v' && LowerChar(x[0]) != 'n' {
      FirstLetterNotVoid(x);
      TrimOfTrimmed(x);
      ParseOfName(x);
    } else {
      ParseVoidName(x);
    }
  }

  /** A bracket-free word: a simple name, or a word followed by `*` (with
      whitespace allowed before the `*`), which reads as a pointer to what
      the word reads as. */
  predicate Word(y: string, t: Type)
    decreases |y|
  {
    Trimmed(y) && BracketFree(y) &&
    if y != [] && y[|y| - 1] == '*' then
      t.Pointer? && Word(y[..SkipSpaceBack(y, 0, |y| - 1)], t.target)
    else
      Simple(y, t)
  }

  /** `x b`: whitespace after a trimmed text does not change what it reads as. */
  lemma {:induction false} PaddedText(s: string, x: string, b: string, t: Type)
    requires AllSpace(b) && Trimmed(x) && BracketFree(x) && Parse(x) == Ok(t)
    requires (x != [] || b == []) && s == x + b
    ensures Parse(s) == Ok(t) && Balanced(s) && (s == [] || !IsSpace(s[0]))
  {
    assert BracketFree(b);
    FlatCat(x, b);
    BracketFreeBalanced(s);
    if x != [] {
      TrimPadded("", x, b);
      assert "" + x + b == s;
      ParseOfTrim(s);
      assert s[0] == x[0];
    }
  }

  /** `i* b`: a pointer to what `i` reads as, whitespace allowed after the `*`. */
  lemma {:induction false} PointerReads(s: string, inner: string, b: string, x: Type)
    requires AllSpace(b) && (inner == [] || !IsSpace(inner[0])) && Parse(inner) == Ok(x)
    requires s == inner + "*" + b
    ensures Parse(s) == Ok(Pointer(x))
  {
    var t := inner + "*";
    assert t[0] == (if inner == [] then '*' else inner[0]) && t[|t| - 1] == '*';
    TrimPadded("", t, b);
    assert "" + t + b == s;
    ParseOfPointer(s, inner, x);
  }

  /** The texts inside a word `w p*`: `w` is the word before the `*` and `p`
      the whitespace dropped from its end. */
  lemma {:induction false} PointerWordText(y: string, k: nat)
    requires Trimmed(y) && BracketFree(y) && y != [] && y[|y| - 1] == '*'
    requires k == SkipSpaceBack(y, 0, |y| - 1)
    ensures var z := y[..|y| - 1];
      z == y[..k] + z[k..] && AllSpace(z[k..]) && y == z + "*" + "" &&
      Trimmed(y[..k]) && BracketFree(y[..k]) && (y[..k] != [] || z[k..] == []) &&
      (z == [] || !IsSpace(z[0]))
  {
    var w := y[..k];
    var z := y[..|y| - 1];
    assert z == w + z[k..];
    assert forall i :: 0 <= i < k ==> w[i] == y[i];
    if w == [] {
      assert z == [];
    } else {
      assert z[0] == y[0] && w[k - 1] == y[k - 1];
    }
  }

  /** `w p*`: a pointer to what the word `w` before the `*` reads as. */
  lemma {:induction false} PointerWordReads(y: string, k: nat, x: Type)
    requires Trimmed(y) && BracketFree(y) && y != [] && y[|y| - 1] == '*'
    requires k == SkipSpaceBack(y, 0, |y| - 1) && Parse(y[..k]) == Ok(x)
    ensures Parse(y) == Ok(Pointer(x))
  {
    var z := y[..|y| - 1];
    PointerWordText(y, k);
    PaddedText(z, y[..k], z[k..], x);
    assert AllSpace("");
    PointerReads(y, z, "", x);
  }

  lemma {:induction false} WordReads(y: string, t: Type)
    requires Word(y, t)
    ensures Parse(y) == Ok(t) && Balanced(y)
    decreases |y|
  {
    BracketFreeBalanced(y);
    if y != [] && y[|y| - 1] == '*' {
      var k := SkipSpaceBack(y, 0, |y| - 1);
      WordReads(y[..k], t.target);
      PointerWordReads(y, k, t.target);
    } else {
      SimpleReads(y, t);
    }
  }

  /** `a y b`: a word with whitespace around it. */
  lemma {:induction false} WordShape(s: string, a: string, y: string, b: string, t: Type)
    requires AllSpace(a) && AllSpace(b) && Word(y, t) && s == a + y + b
    ensures Parse(s) == Ok(t)
  {
    WordReads(y, t);
    if y == [] {
      assert AllSpace(s) by {
        assert forall i :: 0 <= i < |s| ==> s[i] == if i < |a| then a[i] else b[i - |a|];
      }
      ParseOfSpace(s);
    } else {
      TrimPadded(a, y, b);
      ParseOfTrim(s);
    }
  }

  // ---- lists of pieces ----------------------------------------------------------

  /** A piece the comma splitter hands back as it is, and what it reads as. */
  predicate Piece(y: string, t: Type) {
    CleanPiece(y) && Parse(y) == Ok(t)
  }

  predicate Pieces(ys: seq<string>, ts: seq<Type>) {
    |ys| == |ts| && forall i :: 0 <= i < |ys| ==> Piece(ys[i], ts[i])
  }

  /** Non-empty comma-free words, each reading as the type beside it. */
  predicate Words(ys: seq<string>, ts: seq<Type>) {
    |ys| == |ts| && forall i :: 0 <= i < |ys| ==> ys[i] != [] && CommaFree(ys[i]) && Word(ys[i], ts[i])
  }

  /** Each text of `xs` is the piece of `ys` beside it with whitespace around it. */
  predicate Padded(xs: seq<string>, ls: seq<string>, ys: seq<string>, rs: seq<string>) {
    |xs| == |ls| == |ys| == |rs| &&
    forall i :: 0 <= i < |xs| ==> AllSpace(ls[i]) && AllSpace(rs[i]) && xs[i] == ls[i] + ys[i] + rs[i]
  }

  lemma {:induction false} WordPiece(y: string, t: Type)
    requires y != [] && CommaFree(y) && Word(y, t)
    ensures Piece(y, t)
  {
    WordReads(y, t);
    CommaFreeNoTopComma(Level0, y);
  }

  lemma {:induction false} WordsArePieces(ys: seq<string>, ts: seq<Type>)
    requires Words(ys, ts)
    ensures Pieces(ys, ts)
  {
    forall i | 0 <= i < |ys|
      ensures Piece(ys[i], ts[i])
    {
      WordPiece(ys[i], ts[i]);
    }
  }

  /** Padded pieces joined by commas split back into the pieces. */
  lemma {:induction false} PiecesJoined(s: string, xs: seq<string>, ls: seq<string>, ys: seq<string>, rs: seq<string>, ts: seq<Type>)
    requires |xs| >= 1 && Padded(xs, ls, ys, rs) && Pieces(ys, ts) && s == Join(xs, ",")
    ensures CommaSplit(s) == Ok(ys) && Balanced(s)
  {
    forall i | 0 <= i < |xs|
      ensures Balanced(xs[i]) && NoTopComma(Level0, xs[i]) && Trim(xs[i]) == ys[i]
    {
      PaddedPiece(ls[i], ys[i], rs[i]);
    }
    CommaSplitOfCut(xs);
    assert TrimAll(xs) == ys;
    CommaJoinBalanced(xs);
  }

  /** `{x1, ..., xn}`: a struct of what the pieces read as; the struct text
      is itself a piece, so structs nest. */
  lemma {:induction false} StructOfPieces(s: string, body: string, xs: seq<string>, ls: seq<string>, ys: seq<string>, rs: seq<string>, ts: seq<Type>)
    requires |xs| >= 1 && Padded(xs, ls, ys, rs) && Pieces(ys, ts)
    requires body == Join(xs, ",") && s == "{" + body + "}"
    ensures Parse(s) == Ok(Struct(ts)) && Piece(s, Struct(ts))
  {
    PiecesJoined(body, xs, ls, ys, rs, ts);
    assert s[0] == '{' && s[|s| - 1] == '}';
    TrimOfTrimmed(s);
    ParseOfStruct(s, body, ys, ts);
    assert s == ['{'] + body + ['}'];
    WrappedBalanced('{', body, '}');
  }

  /** `a R(P) b` with a balanced result text `R`: a function from what `R`
      reads as to what the pieces of `P` read as. */
  lemma {:induction false} CallReads(s: string, a: string, res: string, args: string, b: string, r: Type, pieces: seq<string>, ps: seq<Type>)
    requires AllSpace(a) && AllSpace(b) && (res == [] || !IsSpace(res[0]))
    requires Balanced(res) && Nested(Level0, args)
    requires Parse(res) == Ok(r) && CommaSplit(args) == Ok(pieces)
    requires |pieces| == |ps| && forall i :: 0 <= i < |pieces| ==> Parse(pieces[i]) == Ok(ps[i])
    requires s == a + (res + "(" + args + ")") + b
    ensures Parse(s) == Ok(Function(r, ParamsOf(ps)))
  {
    var t := res + "(" + args + ")";
    assert t[0] == (if res == [] then '(' else res[0]) && t[|t| - 1] == ')';
    TrimPadded(a, t, b);
    ParseOfSignature(s, res, args, r, pieces, ps);
  }

  /** `a r p(x1, ..., xn) b`: a function whose result is the word `r` and whose
      parameters are what the pieces read as. */
  lemma {:induction false} CallOfPieces(s: string, a: string, r: string, p: string, args: string, xs: seq<string>, ls: seq<string>, ys: seq<string>, rs: seq<string>, b: string, tr: Type, ts: seq<Type>)
    requires AllSpace(a) && AllSpace(p) && AllSpace(b) && Word(r, tr) && (r != [] || p == [])
    requires |xs| >= 1 && Padded(xs, ls, ys, rs) && Pieces(ys, ts) && args == Join(xs, ",")
    requires s == a + ((r + p) + "(" + args + ")") + b
    ensures Parse(s) == Ok(Function(tr, ParamsOf(ts)))
  {
    WordReads(r, tr);
    PaddedText(r + p, r, p, tr);
    PiecesJoined(args, xs, ls, ys, rs, ts);
    CallReads(s, a, r + p, args, b, tr, ys, ts);
  }

  /** Whitespace between the parentheses is one empty piece, which reads as void. */
  lemma {:induction false} SpaceArguments(q: string)
    requires AllSpace(q)
    ensures Nested(Level0, q) && CommaSplit(q) == Ok([""]) && Parse("") == Ok(Void)
  {
    assert Plain(q);
    PlainPiece(q);
    TrimOfSpace(q);
    assert AllSpace("");
    ParseOfSpace("");
  }

  /** `a r p(q) b` with whitespace `q`: a function of no parameters. */
  lemma {:induction false} CallOfNothing(s: string, a: string, r: string, p: string, q: string, b: string, tr: Type)
    requires AllSpace(a) && AllSpace(p) && AllSpace(q) && AllSpace(b) && Word(r, tr) && (r != [] || p == [])
    requires s == a + ((r + p) + "(" + q + ")") + b
    ensures Parse(s) == Ok(Function(tr, []))
  {
    WordReads(r, tr);
    PaddedText(r + p, r, p, tr);
    SpaceArguments(q);
    CallReads(s, a, r + p, q, b, tr, [""], [Void]);
  }

  /** `r((y)`: the argument text `(y` leaves a parenthesis open. */
  lemma {:induction false} UnclosedShape(s: string, r: string, y: string, t: Type)
    requires Simple(r, t) && r != [] && BracketFree(y)
    requires s == r + "(" + ("(" + y) + ")"
    ensures Parse(s) == Err(CommaSplitFailed("(" + y))
  {
    SimpleReads(r, t);
    BracketFreeBalanced(r);
    assert s[0] == r[0] && s[|s| - 1] == ')';
    TrimOfTrimmed(s);
    BracketFreeIsFlat(Depth(1, 0), y);
    assert Nested(Level0, "(" + y) && Run(Level0, "(" + y) == Depth(1, 0);
    FindParenOfSignature(r, "(" + y);
    ParseOfUnbalancedArguments(s, r, "(" + y, t);
  }

  // ---- the names the documented texts use ----------------------------------

  lemma ShortWords()
    ensures Word("i", Atomic("int32")) && Word("j", Atomic("j")) && Word("k", Atomic("k"))
  {
    assert Normalize("i") == "int32";
    assert Normalize("j") == "j";
    assert Normalize("k") == "k";
  }

  lemma CommaWords()
    ensures Word("ij", Atomic("ij")) && Word("i,j", Atomic("i,j"))
  {
    assert Normalize("ij") == "ij";
    assert "i,j"[1..][0] == ',';
    assert Normalize("i,j") == "i,j";
  }

  lemma VoidWords()
    ensures Word("", Void) && Word("void", Void) && Word("none", Void)
  {
    assert Lower("void") == "void" && Lower("none") == "none";
  }

  lemma PointerWords()
    ensures Word("i*", Pointer(Atomic("int32"))) && Word("i  *", Pointer(Atomic("int32")))
    ensures Word("i* *", Pointer(Pointer(Atomic("int32"))))
  {
    ShortWords();
    assert "i*"[..1] == "i" && "i  *"[..1] == "i" && "i* *"[..2] == "i*";
  }

  lemma VoidPointerWords()
    ensures Word("*", Pointer(Void)) && Word("void*", Pointer(Void)) && Word("void *", Pointer(Void))
  {
    VoidWords();
    assert "*"[..0] == "" && "void*"[..4] == "void" && "void *"[..4] == "void";
  }

  lemma SpaceFacts()
    ensures AllSpace("") && AllSpace(" ") && AllSpace("  ")
  {
  }

  /** The argument lists `j`, `j , k` and `j,k`, and the field lists `i,j`
      and `i, j`. */
  lemma OneArgument()
    ensures Words(["j"], [Atomic("j")])
    ensures Padded(["j"], [""], ["j"], [""]) && Join(["j"], ",") == "j"
  {
    ShortWords();
  }

  lemma TwoArguments()
    ensures Words(["j", "k"], [Atomic("j"), Atomic("k")])
    ensures Padded(["j", "k"], ["", ""], ["j", "k"], ["", ""]) && Join(["j", "k"], ",") == "j,k"
  {
    ShortWords();
  }

  lemma TwoSpacedArguments()
    ensures Padded(["j ", " k"], ["", " "], ["j", "k"], [" ", ""]) && Join(["j ", " k"], ",") == "j , k"
  {
    SpaceFacts();
    assert "j " == "" + "j" + " " && " k" == " " + "k" + "";
  }

  lemma TwoFields()
    ensures Words(["i", "j"], [Atomic("int32"), Atomic("j")])
    ensures Padded(["i", "j"], ["", ""], ["i", "j"], ["", ""]) && Join(["i", "j"], ",") == "i,j"
    ensures Padded(["i", " j"], ["", " "], ["i", "j"], ["", ""]) && Join(["i", " j"], ",") == "i, j"
  {
    ShortWords();
    SpaceFacts();
    assert " j" == " " + "j" + "";
  }

  // ---- fromstring -----------------------------------------------------------

  lemma FromVoidNames(s: string, t: string, u: string)
    requires s == "void" && t == "" && u == "none"
    ensures Parse(s) == Ok(Void) && Parse(t) == Ok(Void) && Parse(u) == Ok(Void)
  {
    VoidWords();
    WordReads(s, Void);
    WordReads(t, Void);
    WordReads(u, Void);
  }

  lemma FromShortName(s: string)
    requires s == "i"
    ensures Parse(s) == Ok(Atomic("int32"))
  {
    ShortWords();
    WordReads(s, Atomic("int32"));
  }

  lemma FromPointerToName(s: string)
    requires s == "i*"
    ensures Parse(s) == Ok(Pointer(Atomic("int32")))
  {
    PointerWords();
    WordReads(s, Pointer(Atomic("int32")));
  }

  /** A bare `*` and `void*` both point to void. */
  lemma FromPointersToVoid(s: string, t: string)
    requires s == "*" && t == "void*"
    ensures Parse(s) == Ok(Pointer(Void)) && Parse(t) == Ok(Pointer(Void))
  {
    VoidPointerWords();
    WordReads(s, Pointer(Void));
    WordReads(t, Pointer(Void));
  }

  lemma FromStruct(s: string)
    requires s == "{i,j}"
    ensures Parse(s) == Ok(Struct([Atomic("int32"), Atomic("j")]))
  {
    TwoFields();
    WordsArePieces(["i", "j"], [Atomic("int32"), Atomic("j")]);
    assert s == "{" + "i,j" + "}";
    StructOfPieces(s, "i,j", ["i", "j"], ["", ""], ["i", "j"], ["", ""], [Atomic("int32"), Atomic("j")]);
  }

  lemma FromFunctionOfOne(s: string)
    requires s == "i(j)"
    ensures Parse(s) == Ok(Function(Atomic("int32"), [Atomic("j")]))
  {
    ShortWords();
    SpaceFacts();
    OneArgument();
    WordsArePieces(["j"], [Atomic("j")]);
    assert s == "" + (("i" + "") + "(" + "j" + ")") + "";
    CallOfPieces(s, "", "i", "", "j", ["j"], [""], ["j"], [""], "", Atomic("int32"), [Atomic("j")]);
  }

  lemma FromFunctionOfTwo(s: string)
    requires s == "i(j , k)"
    ensures Parse(s) == Ok(Function(Atomic("int32"), [Atomic("j"), Atomic("k")]))
  {
    ShortWords();
    SpaceFacts();
    TwoArguments();
    TwoSpacedArguments();
    WordsArePieces(["j", "k"], [Atomic("j"), Atomic("k")]);
    assert s == "" + (("i" + "") + "(" + "j , k" + ")") + "";
    CallOfPieces(s, "", "i", "", "j , k", ["j ", " k"], ["", " "], ["j", "k"], [" ", ""], "", Atomic("int32"), [Atomic("j"), Atomic("k")]);
  }

  lemma EmptyResultText(s: string)
    requires s == "  (j , k) "
    ensures s == "  " + (("" + "") + "(" + "j , k" + ")") + " "
  {
  }

  /** An empty result text means a void result. */
  lemma FromEmptyResult(s: string)
    requires s == "  (j , k) "
    ensures Parse(s) == Ok(Function(Void, [Atomic("j"), Atomic("k")]))
  {
    VoidWords();
    SpaceFacts();
    TwoArguments();
    TwoSpacedArguments();
    WordsArePieces(["j", "k"], [Atomic("j"), Atomic("k")]);
    EmptyResultText(s);
    CallOfPieces(s, "  ", "", "", "j , k", ["j ", " k"], ["", " "], ["j", "k"], [" ", ""], " ", Void, [Atomic("j"), Atomic("k")]);
  }

  lemma VoidResultText(s: string)
    requires s == "void(j,k)"
    ensures s == "" + (("void" + "") + "(" + "j,k" + ")") + ""
  {
  }

  /** A `void` result text means a void result. */
  lemma FromVoidResult(s: string)
    requires s == "void(j,k)"
    ensures Parse(s) == Ok(Function(Void, [Atomic("j"), Atomic("k")]))
  {
    VoidWords();
    SpaceFacts();
    TwoArguments();
    WordsArePieces(["j", "k"], [Atomic("j"), Atomic("k")]);
    VoidResultText(s);
    CallOfPieces(s, "", "void", "", "j,k", ["j", "k"], ["", ""], ["j", "k"], ["", ""], "", Void, [Atomic("j"), Atomic("k")]);
  }

  // ---- malformed text ---------------------------------------------------------

  lemma FromUnopenedParen(s: string)
    requires s == "a)"
    ensures Parse(s) == Err(LparenNotFound("a)"))
  {
    TrimOfTrimmed(s);
    assert forall j :: 0 <= j < |s| ==> s[j] != '(';
    ParseOfSignatureWithoutParen(s);
  }

  lemma FromUnclosedArguments(s: string)
    requires s == "a((b)"
    ensures Parse(s) == Err(CommaSplitFailed("(b"))
  {
    assert Simple("a", Atomic("a")) && BracketFree("b");
    assert s == "a" + "(" + ("(" + "b") + ")" && "(" + "b" == "(b";
    UnclosedShape(s, "a", "b", Atomic("a"));
  }

  lemma FromUnopenedCurly(s: string)
    requires s == "ab}"
    ensures Parse(s) == Err(MismatchingCurly("ab}"))
  {
    TrimOfTrimmed(s);
    ParseOfMismatchedCurly(s);
  }

  // ---- the shape predicates ---------------------------------------------------

  /** `Type()` is void, and `Type('i')` and `Type('ij')` are atomic. */
  lemma ConstructedShapes()
    ensures Make([]).Ok? && Make([]).value.IsVoid()
    ensures Make([Str("i")]).Ok? && Make([Str("i")]).value.IsAtomic()
    ensures Make([Str("ij")]).Ok? && Make([Str("ij")]).value.IsAtomic()
  {
  }

  /** Text with a comma but no bracket is still read as one atomic name. */
  lemma AtomicTexts(s: string, t: string)
    requires s == "ij" && t == "i,j"
    ensures Parse(s) == Ok(Atomic("ij")) && Parse(s).value.IsAtomic()
    ensures Parse(t) == Ok(Atomic("i,j")) && Parse(t).value.IsAtomic()
  {
    CommaWords();
    WordReads(s, Atomic("ij"));
    WordReads(t, Atomic("i,j"));
  }

  lemma PointerTexts(s: string, t: string, u: string)
    requires s == "i  *" && t == "*" && u == "i* * "
    ensures Parse(s) == Ok(Pointer(Atomic("int32"))) && Parse(s).value.IsPointer()
    ensures Parse(t) == Ok(Pointer(Void)) && Parse(t).value.IsPointer()
    ensures Parse(u) == Ok(Pointer(Pointer(Atomic("int32")))) && Parse(u).value.IsPointer()
  {
    PointerWords();
    VoidPointerWords();
    SpaceFacts();
    WordReads(s, Pointer(Atomic("int32")));
    WordReads(t, Pointer(Void));
    assert u == "" + "i* *" + " ";
    WordShape(u, "", "i* *", " ", Pointer(Pointer(Atomic("int32"))));
  }

  /** `(j)` is a function with a void result; `()` one with no parameters. */
  lemma FunctionTexts(s: string, t: string)
    requires s == "(j)" && t == "()"
    ensures Parse(s) == Ok(Function(Void, [Atomic("j")])) && Parse(s).value.IsFunction()
    ensures Parse(t) == Ok(Function(Void, [])) && Parse(t).value.IsFunction()
  {
    VoidWords();
    SpaceFacts();
    OneArgument();
    WordsArePieces(["j"], [Atomic("j")]);
    assert s == "" + (("" + "") + "(" + "j" + ")") + "";
    CallOfPieces(s, "", "", "", "j", ["j"], [""], ["j"], [""], "", Void, [Atomic("j")]);
    assert t == "" + (("" + "") + "(" + "" + ")") + "";
    CallOfNothing(t, "", "", "", "", "", Void);
  }

  lemma StructText(s: string)
    requires s == "{i, j}"
    ensures Parse(s) == Ok(Struct([Atomic("int32"), Atomic("j")])) && Parse(s).value.IsStruct()
  {
    TwoFields();
    WordsArePieces(["i", "j"], [Atomic("int32"), Atomic("j")]);
    assert s == "{" + "i, j" + "}";
    StructOfPieces(s, "i, j", ["i", " j"], ["", " "], ["i", "j"], ["", ""], [Atomic("int32"), Atomic("j")]);
  }
}
