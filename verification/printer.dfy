/** `Type.tostring`: the canonical text of a type value, and the proof that
    parsing it gives the value back. */
module Printer {
  import opened Results
  import opened Text
  import opened TypeValues
  import opened Names
  import opened Brackets
  import opened Parser

  function ToString(t: Type): string
    decreases t
  {
    match t
    case Void => "void"
    case Atomic(n) => n
    case Pointer(x) => ToString(x) + "*"
    case Struct(fs) => "{" + Join(ToStrings(fs), ", ") + "}"
    case Function(r, ps) => ToString(r) + "(" + ParamsText(ps) + ")"
  }

  function ToStrings(ts: seq<Type>): (r: seq<string>)
    ensures |r| == |ts|
    decreases ts, 1
  {
    seq(|ts|, i requires 0 <= i < |ts| => ToString(ts[i]))
  }

  /** The text between a function's parentheses: an empty list is `void`. */
  function ParamsText(ps: seq<Type>): string
    decreases ps, 2
  {
    if ps == [] then "void" else Join(ToStrings(ps), ", ")
  }

  // ---- well-formed values ---------------------------------------------------

  predicate NoStructural(s: string) {
    forall i :: 0 <= i < |s| ==> !IsStructural(s[i])
  }

  /** An atomic name that reads back as itself: non-empty, trimmed, free of
      structural characters, not a void name and already normalized. */
  predicate PlainName(n: string) {
    |n| > 0 && Trimmed(n) && NoStructural(n) && !IsVoidName(n) && Normalize(n) == n
  }

  /** The values the parser can produce and give back from their own text.
      It leaves out comma-joined placeholder names such as `f,g` (inside a
      struct or an argument list the comma would split them), the empty
      struct (`{}` reads as a struct of one void field) and the argument
      list that is exactly `void` (it reads as no arguments). */
  predicate WellFormed(t: Type)
    decreases t
  {
    match t
    case Void => true
    case Atomic(n) => PlainName(n)
    case Pointer(x) => WellFormed(x)
    case Struct(fs) => |fs| >= 1 && forall i :: 0 <= i < |fs| ==> WellFormed(fs[i])
    case Function(r, ps) => WellFormed(r) && ps != [Void] && forall i :: 0 <= i < |ps| ==> WellFormed(ps[i])
  }

  /** Text without structural characters never changes the depth. */
  lemma {:induction false} PlainTextIsFlat(d: Depth, s: string)
    requires NoStructural(s)
    ensures Run(d, s) == d && NoTopComma(d, s)
    ensures NonNegative(d) ==> Nested(d, s)
    decreases |s|
  {
    if s != [] {
      assert Step(d, s[0]) == d;
      PlainTextIsFlat(d, s[1..]);
    }
  }

  /** The shape every well-formed value's text has: non-empty, trimmed,
      balanced, and without a comma at depth zero. */
  predicate ItemText(s: string) {
    |s| > 0 && Trimmed(s) && Balanced(s) && NoTopComma(Level0, s)
  }

  lemma {:induction false} PointerText(x: string)
    requires ItemText(x)
    ensures ItemText(x + "*")
  {
    assert Run(Level0, "*") == Level0 && Nested(Level0, "*") && NoTopComma(Level0, "*");
    NestedConcat(Level0, x, "*");
    RunConcat(Level0, x, "*");
    NoTopCommaConcat(Level0, x, "*");
  }

  lemma {:induction false} StructText(items: seq<string>)
    requires forall i :: 0 <= i < |items| ==> ItemText(items[i])
    ensures ItemText("{" + Join(items, ", ") + "}")
  {
    JoinBalanced(items);
    WrappedBalanced('{', Join(items, ", "), '}');
    assert "{" + Join(items, ", ") + "}" == ['{'] + Join(items, ", ") + ['}'];
  }

  lemma {:induction false} SignatureText(res: string, args: string)
    requires ItemText(res) && Balanced(args)
    ensures ItemText(res + "(" + args + ")")
  {
    var w := "(" + args + ")";
    WrappedBalanced('(', args, ')');
    assert w == ['('] + args + [')'];
    assert res + "(" + args + ")" == res + w;
    NestedConcat(Level0, res, w);
    RunConcat(Level0, res, w);
    NoTopCommaConcat(Level0, res, w);
  }

  /** The text of a well-formed value is non-empty, trimmed and balanced, and
      has no comma at depth zero. */
  lemma {:induction false} TextShape(t: Type)
    requires WellFormed(t)
    ensures ItemText(ToString(t))
    decreases t, 1
  {
    match t
    case Void =>
      PlainTextIsFlat(Level0, "void");
    case Atomic(n) =>
      PlainTextIsFlat(Level0, n);
    case Pointer(x) =>
      TextShape(x);
      PointerText(ToString(x));
    case Struct(fs) =>
      ItemsShape(fs);
      StructText(ToStrings(fs));
    case Function(r, ps) =>
      TextShape(r);
      if ps == [] {
        PlainTextIsFlat(Level0, "void");
      } else {
        ItemsShape(ps);
        JoinBalanced(ToStrings(ps));
      }
      SignatureText(ToString(r), ParamsText(ps));
  }

  lemma {:induction false} ItemsShape(ts: seq<Type>)
    requires forall i :: 0 <= i < |ts| ==> WellFormed(ts[i])
    ensures forall i :: 0 <= i < |ts| ==> ItemText(ToStrings(ts)[i])
    decreases ts, 0
  {
    forall i | 0 <= i < |ts| ensures ItemText(ToStrings(ts)[i]) {
      TextShape(ts[i]);
    }
  }

  // ---- parse . tostring = identity -----------------------------------------

  lemma {:induction false} ParsePointerText(xs: string, x: Type)
    requires ItemText(xs) && Parse(xs) == Ok(x)
    ensures Parse(xs + "*") == Ok(Pointer(x))
  {
    var s := xs + "*";
    PointerText(xs);
    PointerDispatch(s);
    assert s[..|s| - 1] == xs;
  }

  lemma {:induction false} ParseStructText(items: seq<string>, fs: seq<Type>)
    requires |items| >= 1 && forall i :: 0 <= i < |items| ==> ItemText(items[i])
    requires |items| == |fs| && forall i :: 0 <= i < |items| ==> Parse(items[i]) == Ok(fs[i])
    ensures Parse("{" + Join(items, ", ") + "}") == Ok(Struct(fs))
  {
    var s := "{" + Join(items, ", ") + "}";
    StructText(items);
    StructDispatch(s);
    assert s[1..|s| - 1] == Join(items, ", ");
    CommaSplitOfJoin(items);
    ParseEachIs(items, |s|, fs);
    assert ParseStruct(s) == Ok(Struct(fs));
  }

  lemma {:induction false} ParseSignatureText(rs: string, r: Type, items: seq<string>, ps: seq<Type>)
    requires ItemText(rs) && Parse(rs) == Ok(r)
    requires |items| >= 1 && forall i :: 0 <= i < |items| ==> ItemText(items[i])
    requires |items| == |ps| && forall i :: 0 <= i < |items| ==> Parse(items[i]) == Ok(ps[i])
    ensures Parse(rs + "(" + Join(items, ", ") + ")") == Ok(Function(r, ParamsOf(ps)))
  {
    var s := rs + "(" + Join(items, ", ") + ")";
    SignatureParts(rs, items, s);
    SignatureDispatch(s);
    ParseEachIs(items, |s|, ps);
    ParseSignatureSteps(s, |rs|, r, items, ps);
  }

  /** The pieces `ParseSignature` finds in the text of a signature. */
  lemma {:induction false} SignatureParts(rs: string, items: seq<string>, s: string)
    requires ItemText(rs) && |items| >= 1 && forall i :: 0 <= i < |items| ==> ItemText(items[i])
    requires s == rs + "(" + Join(items, ", ") + ")"
    ensures ItemText(s) && s[|s| - 1] == ')' && |rs| < |s| - 1 && s[..|rs|] == rs
    ensures FindParen(s) == Ok(|rs|)
    ensures CommaSplit(s[|rs| + 1..|s| - 1]) == Ok(items)
    ensures forall k :: 0 <= k < |items| ==> |items[k]| < |s|
  {
    var args := Join(items, ", ");
    JoinBalanced(items);
    SignatureText(rs, args);
    FindParenOfSignature(rs, args);
    CommaSplitOfJoin(items);
    assert s[|rs| + 1..|s| - 1] == args;
  }

  /** Parsing the text of a well-formed value gives the value back. */
  lemma {:induction false} RoundTrip(t: Type)
    requires WellFormed(t)
    ensures Parse(ToString(t)) == Ok(t)
    decreases t, 2
  {
    match t
    case Void => ParseVoidText();
    case Atomic(n) => ParsePlainName(n);
    case Pointer(x) =>
      TextShape(x);
      RoundTrip(x);
      ParsePointerText(ToString(x), x);
    case Struct(fs) =>
      ItemsShape(fs);
      RoundTripEach(fs);
      ParseStructText(ToStrings(fs), fs);
    case Function(r, ps) =>
      RoundTripFunction(t);
  }

  lemma ParseVoidText()
    ensures Parse("void") == Ok(Void)
  {
    assert Lower("void") == "void";
    ParseVoidName("void");
  }

  lemma {:induction false} ParseVoidName(v: string)
    requires Trimmed(v) && IsVoidName(v)
    ensures Parse(v) == Ok(Void)
  {
    TrimOfTrimmed(v);
  }

  lemma {:induction false} ParsePlainName(n: string)
    requires PlainName(n)
    ensures Parse(n) == Ok(Atomic(n))
  {
    TrimOfTrimmed(n);
  }

  lemma {:induction false} RoundTripFunction(t: Type)
    requires t.Function? && WellFormed(t)
    ensures Parse(ToString(t)) == Ok(t)
    decreases t, 1
  {
    var r, ps := t.result, t.params;
    assert ToString(t) == ToString(r) + "(" + ParamsText(ps) + ")";
    TextShape(r);
    RoundTrip(r);
    if ps == [] {
      ParseNoArgumentText(ToString(r), r);
    } else {
      ItemsShape(ps);
      RoundTripEach(ps);
      ParseSignatureText(ToString(r), r, ToStrings(ps), ps);
    }
  }

  /** `R(void)` parses to a function of no arguments. */
  lemma {:induction false} ParseNoArgumentText(rs: string, r: Type)
    requires ItemText(rs) && Parse(rs) == Ok(r)
    ensures Parse(rs + "(" + "void" + ")") == Ok(Function(r, []))
  {
    VoidText();
    ParseVoidText();
    ParseSingleArgumentText(rs, r, "void", Void);
  }

  lemma VoidText()
    ensures ItemText("void")
  {
    PlainTextIsFlat(Level0, "void");
  }

  lemma {:induction false} ParseSingleArgumentText(rs: string, r: Type, a: string, p: Type)
    requires ItemText(rs) && Parse(rs) == Ok(r)
    requires ItemText(a) && Parse(a) == Ok(p)
    ensures Parse(rs + "(" + a + ")") == Ok(Function(r, ParamsOf([p])))
  {
    assert Join([a], ", ") == a;
    ParseSignatureText(rs, r, [a], [p]);
  }

  lemma {:induction false} RoundTripEach(ts: seq<Type>)
    requires forall i :: 0 <= i < |ts| ==> WellFormed(ts[i])
    ensures forall i :: 0 <= i < |ts| ==> Parse(ToStrings(ts)[i]) == Ok(ts[i])
    decreases ts, 0
  {
    forall i | 0 <= i < |ts| ensures Parse(ToStrings(ts)[i]) == Ok(ts[i]) {
      RoundTrip(ts[i]);
    }
  }
}
