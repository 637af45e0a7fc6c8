/** `Type.fromstring`: the classification of a type string by its top-level
    shape, recursing through the bracket scanner. */
module Parser {
  import opened Results
  import opened Text
  import opened TypeValues
  import opened Names
  import opened Brackets

  /** A trimmed string that stands for no type: empty, or "void" or "none"
      in any letter case. */
  predicate IsVoidName(t: string) {
    t == [] || Lower(t) == "void" || Lower(t) == "none"
  }

  /** A parsed argument list that is exactly `void` is a function of no arguments. */
  function ParamsOf(ps: seq<Type>): seq<Type> {
    if ps == [Void] then [] else ps
  }

  /** The type a string describes. After trimming, the checks run in this order:
      a void name; a trailing `*` (a pointer to what precedes it); a trailing
      `}` (a struct); a trailing `)` (a function); otherwise a bare name,
      normalized. */
  function Parse(s: string): (r: Result<Type, TypeError>)
    decreases |s|, 2
  {
    var t := Trim(s);
    if IsVoidName(t) then Ok(Void)
    else if t[|t| - 1] == '*' then
      match Parse(t[..|t| - 1])
      case Ok(x) => Ok(Pointer(x))
      case Err(e) => Err(e)
    else if t[|t| - 1] == '}' then ParseStruct(t)
    else if t[|t| - 1] == ')' then ParseSignature(t)
    else Ok(Atomic(Normalize(t)))
  }

  /** `{f1, ..., fn}`: the fields are the top-level pieces between the braces.
      Text that ends with `}` but does not start with `{` is refused. */
  function ParseStruct(t: string): (r: Result<Type, TypeError>)
    requires |t| >= 1 && t[|t| - 1] == '}'
    decreases |t|, 1
  {
    if t[0] != '{' then Err(MismatchingCurly(t))
    else
      match CommaSplit(t[1..|t| - 1])
      case Err(e) => Err(e)
      case Ok(pieces) =>
        match ParseEach(pieces, |t|)
        case Ok(fields) => Ok(Struct(fields))
        case Err(e) => Err(e)
  }

  /** `R(P)`: the argument group is the one `FindParen` locates; the text
      before it is the result type and its top-level pieces are the parameters. */
  function ParseSignature(t: string): (r: Result<Type, TypeError>)
    requires |t| >= 1 && t[|t| - 1] == ')'
    decreases |t|, 1
  {
    match FindParen(t)
    case Err(e) => Err(e)
    case Ok(i) =>
      match Parse(t[..i])
      case Err(e) => Err(e)
      case Ok(res) =>
        match CommaSplit(t[i + 1..|t| - 1])
        case Err(e) => Err(e)
        case Ok(pieces) =>
          match ParseEach(pieces, |t|)
          case Ok(params) => Ok(Function(res, ParamsOf(params)))
          case Err(e) => Err(e)
  }

  /** Each piece parsed in turn; the first failure is the result. */
  function ParseEach(pieces: seq<string>, bound: nat): (r: Result<seq<Type>, TypeError>)
    requires forall i :: 0 <= i < |pieces| ==> |pieces[i]| < bound
    decreases bound, 0
  {
    Collect(seq(|pieces|, i requires 0 <= i < |pieces| => Parse(pieces[i])))
  }

  // ---- how Parse reads each shape of text -----------------------------------

  /** The characters that give a type string its structure. */
  predicate IsStructural(c: char) {
    c == '(' || c == ')' || c == '{' || c == '}' || c == ',' || c == '*'
  }

  /** Text that ends in `*`, `}` or `)` is not a void name. */
  lemma {:induction false} NotVoidName(s: string)
    requires |s| > 0 && IsStructural(s[|s| - 1])
    ensures !IsVoidName(s)
  {
    assert Lower(s)[|s| - 1] == s[|s| - 1];
  }

  /** How `Parse` reads trimmed text that ends in `*`: a pointer to what precedes it. */
  lemma {:induction false} PointerDispatch(t: string)
    requires Trimmed(t) && |t| > 0 && t[|t| - 1] == '*'
    ensures Parse(t) == match Parse(t[..|t| - 1]) case Ok(x) => Ok(Pointer(x)) case Err(e) => Err(e)
  {
    TrimOfTrimmed(t);
    NotVoidName(t);
  }

  /** How `Parse` reads trimmed text that ends in `}`: as a struct. */
  lemma {:induction false} StructDispatch(t: string)
    requires Trimmed(t) && |t| > 0 && t[|t| - 1] == '}'
    ensures Parse(t) == ParseStruct(t)
  {
    TrimOfTrimmed(t);
    NotVoidName(t);
  }

  /** How `Parse` reads trimmed text that ends in `)`: as a signature. */
  lemma {:induction false} SignatureDispatch(t: string)
    requires Trimmed(t) && |t| > 0 && t[|t| - 1] == ')'
    ensures Parse(t) == ParseSignature(t)
  {
    TrimOfTrimmed(t);
    NotVoidName(t);
  }

  /** One step of `ParseSignature`, once each of its parts is known. */
  lemma {:induction false} ParseSignatureSteps(s: string, i: nat, r: Type, items: seq<string>, ps: seq<Type>)
    requires |s| >= 1 && s[|s| - 1] == ')' && i < |s| - 1
    requires FindParen(s) == Ok(i) && Parse(s[..i]) == Ok(r)
    requires CommaSplit(s[i + 1..|s| - 1]) == Ok(items)
    requires forall k :: 0 <= k < |items| ==> |items[k]| < |s|
    requires ParseEach(items, |s|) == Ok(ps)
    ensures ParseSignature(s) == Ok(Function(r, ParamsOf(ps)))
  {
  }

  /** Surrounding whitespace does not change what text describes. */
  lemma {:induction false} ParseOfTrim(s: string)
    ensures Parse(s) == Parse(Trim(s))
  {
    TrimOfTrimmed(Trim(s));
  }


  /** Empty text, `void` and `none` in any letter case, padded or not, are void. */
  lemma {:induction false} ParseOfVoidName(s: string)
    requires IsVoidName(Trim(s))
    ensures Parse(s) == Ok(Void)
  {
  }

  /** Text that is not a void name and does not end in `*`, `}` or `)` is a
      single atomic name, normalized; commas in it are kept. */
  lemma {:induction false} ParseOfName(s: string)
    requires !IsVoidName(Trim(s))
    requires var t := Trim(s); t[|t| - 1] != '*' && t[|t| - 1] != '}' && t[|t| - 1] != ')'
    ensures Parse(s) == Ok(Atomic(Normalize(Trim(s))))
  {
  }

  /** Text ending in `*` is a pointer to what the text before the `*` describes. */
  lemma {:induction false} ParseOfPointer(s: string, inner: string, x: Type)
    requires Trim(s) == inner + "*" && Parse(inner) == Ok(x)
    ensures Parse(s) == Ok(Pointer(x))
  {
    var t := Trim(s);
    ParseOfTrim(s);
    PointerDispatch(t);
    assert t[..|t| - 1] == inner;
  }

  /** `{…}`: the fields are the parsed top-level pieces between the braces. */
  lemma {:induction false} ParseOfStruct(s: string, body: string, pieces: seq<string>, fs: seq<Type>)
    requires Trim(s) == "{" + body + "}"
    requires CommaSplit(body) == Ok(pieces)
    requires |pieces| == |fs| && forall i :: 0 <= i < |pieces| ==> Parse(pieces[i]) == Ok(fs[i])
    ensures Parse(s) == Ok(Struct(fs))
  {
    var t := Trim(s);
    ParseOfTrim(s);
    StructDispatch(t);
    assert ParseStruct(t) == Ok(Struct(fs)) by {
      assert t[1..|t| - 1] == body;
      ParseEachIs(pieces, |t|, fs);
    }
  }

  /** Text that ends in `}` but does not start with `{` is refused. */
  lemma {:induction false} ParseOfMismatchedCurly(s: string)
    requires var t := Trim(s); |t| > 0 && t[|t| - 1] == '}' && t[0] != '{'
    ensures Parse(s) == Err(MismatchingCurly(Trim(s)))
  {
    var t := Trim(s);
    ParseOfTrim(s);
    StructDispatch(t);
  }

  /** `R(P)`, where the `(` after `R` opens the last top-level group: the
      result is what `R` describes and the parameters are the parsed pieces
      of `P`, a lone `void` meaning none. */
  lemma {:induction false} ParseOfSignature(s: string, res: string, args: string, r: Type, pieces: seq<string>, ps: seq<Type>)
    requires Trim(s) == res + "(" + args + ")"
    requires Run(Level0, res) == Level0 && Nested(Level0, args)
    requires Parse(res) == Ok(r) && CommaSplit(args) == Ok(pieces)
    requires |pieces| == |ps| && forall i :: 0 <= i < |pieces| ==> Parse(pieces[i]) == Ok(ps[i])
    ensures Parse(s) == Ok(Function(r, ParamsOf(ps)))
  {
    ParseOfTrim(s);
    ParseOfTrimmedSignature(Trim(s), res, args, r, pieces, ps);
  }

  lemma {:induction false} ParseOfTrimmedSignature(t: string, res: string, args: string, r: Type, pieces: seq<string>, ps: seq<Type>)
    requires Trimmed(t) && t == res + "(" + args + ")"
    requires Run(Level0, res) == Level0 && Nested(Level0, args)
    requires Parse(res) == Ok(r) && CommaSplit(args) == Ok(pieces)
    requires |pieces| == |ps| && forall i :: 0 <= i < |pieces| ==> Parse(pieces[i]) == Ok(ps[i])
    ensures Parse(t) == Ok(Function(r, ParamsOf(ps)))
  {
    SignatureShape(t, res, args);
    assert forall k :: 0 <= k < |pieces| ==> |pieces[k]| <= |args| < |t|;
    ParseEachIs(pieces, |t|, ps);
    assert t[..|res|] == res && t[|res| + 1..|t| - 1] == args;
    ParseOfSignatureParts(t, |res|, r, pieces, ps);
  }

  /** A trimmed signature whose parts are known parses to a function. */
  lemma {:induction false} ParseOfSignatureParts(t: string, i: nat, r: Type, items: seq<string>, ps: seq<Type>)
    requires Trimmed(t) && |t| >= 1 && t[|t| - 1] == ')' && i < |t| - 1
    requires FindParen(t) == Ok(i) && Parse(t[..i]) == Ok(r)
    requires CommaSplit(t[i + 1..|t| - 1]) == Ok(items)
    requires forall k :: 0 <= k < |items| ==> |items[k]| < |t|
    requires ParseEach(items, |t|) == Ok(ps)
    ensures Parse(t) == Ok(Function(r, ParamsOf(ps)))
  {
    SignatureDispatch(t);
    ParseSignatureSteps(t, i, r, items, ps);
  }

  /** Where `ParseSignature` cuts the text `R(P)`. */
  lemma {:induction false} SignatureShape(t: string, res: string, args: string)
    requires t == res + "(" + args + ")"
    requires Run(Level0, res) == Level0 && Nested(Level0, args)
    ensures |t| > 0 && t[|t| - 1] == ')' && |res| < |t| - 1
    ensures FindParen(t) == Ok(|res|) && t[..|res|] == res && t[|res| + 1..|t| - 1] == args
  {
    FindParenOfSignature(res, args);
    assert t[..|res|] == res;
    assert t[|res| + 1..|t| - 1] == args;
  }

  /** Text ending in `)` with no `(` at depth zero is refused. */
  lemma {:induction false} ParseOfSignatureWithoutParen(s: string)
    requires var t := Trim(s); |t| > 0 && t[|t| - 1] == ')' && FindParen(t).Err?
    ensures Parse(s) == Err(LparenNotFound(Trim(s)))
  {
    var t := Trim(s);
    ParseOfTrim(s);
    SignatureDispatch(t);
  }

  /** A signature whose argument text leaves a bracket open is refused by the
      comma split, once the result text has parsed. */
  lemma {:induction false} ParseOfUnbalancedArguments(s: string, res: string, args: string, r: Type)
    requires Trim(s) == res + "(" + args + ")"
    requires FindParen(Trim(s)) == Ok(|res|) && Parse(res) == Ok(r)
    requires Run(Level0, args) != Level0
    ensures Parse(s) == Err(CommaSplitFailed(args))
  {
    var t := Trim(s);
    ParseOfTrim(s);
    SignatureDispatch(t);
    assert t[..|res|] == res;
    assert t[|res| + 1..|t| - 1] == args;
    assert CommaSplit(args) == Err(CommaSplitFailed(args));
  }

  lemma {:induction false} ParseEachIs(pieces: seq<string>, bound: nat, ts: seq<Type>)
    requires forall i :: 0 <= i < |pieces| ==> |pieces[i]| < bound
    requires |pieces| == |ts| && forall i :: 0 <= i < |pieces| ==> Parse(pieces[i]) == Ok(ts[i])
    ensures ParseEach(pieces, bound) == Ok(ts)
  {
    var r := ParseEach(pieces, bound);
    assert r.Ok? && |r.value| == |ts|;
    assert r.value == ts;
  }
}
