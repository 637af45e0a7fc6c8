/** The canonical type value of the type-description engine: a closed,
    recursive, immutable variant with five forms, plus the positional
    constructor `Type(*args)` that the tests use to build expected values. */
module TypeValues {
  import opened Results

  datatype Type =
    | Void
    | Atomic(name: string)                       // a scalar name, possibly a comma-joined placeholder label
    | Pointer(target: Type)
    | Struct(fields: seq<Type>)                  // field order is significant
    | Function(result: Type, params: seq<Type>)  // params may be empty
  {
    predicate IsVoid() { Void? }
    predicate IsAtomic() { Atomic? }
    predicate IsPointer() { Pointer? }
    predicate IsStruct() { Struct? }
    predicate IsFunction() { Function? }
  }

  /** The errors the engine reports to its caller, each with the text that caused it. */
  datatype TypeError =
    | LparenNotFound(text: string)          // "failed to find lparen index in ..."
    | CommaSplitFailed(text: string)        // "failed to comma-split ..."
    | MismatchingCurly(text: string)        // "mismatching curly parenthesis in ..."
    | InvalidConstruction                   // "attempt to create an invalid Type object from ..."
    | UnsupportedConversion(text: string)   // no counterpart in the requested foreign representation

  /** One positional argument of the constructor: a string, a type, or a tuple of types. */
  datatype CtorArg = Str(s: string) | Ty(t: Type) | Tuple(ts: seq<Type>)

  predicate AllTypeArgs(args: seq<CtorArg>) {
    forall i :: 0 <= i < |args| ==> args[i].Ty?
  }

  /** `Type(*args)`: no argument is void, one string is an atomic name, a type
      followed by "*" is a pointer, a type followed by a tuple of types is a
      function, and one or more types are a struct. Every other shape is refused. */
  function Make(args: seq<CtorArg>): (r: Result<Type, TypeError>)
    ensures r.Err? ==> r.error == InvalidConstruction
    ensures r.Ok? && r.value.Struct? ==> |r.value.fields| == |args| >= 1
    ensures r.Ok? && r.value.Function? ==> |args| == 2
  {
    if |args| == 0 then Ok(Void)
    else if |args| == 1 && args[0].Str? then Ok(Atomic(args[0].s))
    else if |args| == 2 && args[0].Ty? && args[1] == Str("*") then Ok(Pointer(args[0].t))
    else if |args| == 2 && args[0].Ty? && args[1].Tuple? then Ok(Function(args[0].t, args[1].ts))
    else if AllTypeArgs(args) then Ok(Struct(seq(|args|, i requires 0 <= i < |args| => args[i].t)))
    else Err(InvalidConstruction)
  }

  /** The arguments from which `Make` rebuilds a value. A struct needs at least
      one field, because `Type()` with no argument is void. */
  function ArgsOf(t: Type): (args: seq<CtorArg>)
    requires t.Struct? ==> |t.fields| >= 1
  {
    match t
    case Void => []
    case Atomic(n) => [Str(n)]
    case Pointer(x) => [Ty(x), Str("*")]
    case Struct(fs) => seq(|fs|, i requires 0 <= i < |fs| => Ty(fs[i]))
    case Function(r, ps) => [Ty(r), Tuple(ps)]
  }

  /** Every value except the empty struct has exactly one constructor spelling:
      `Make` rebuilds it from `ArgsOf`, and any arguments `Make` accepts are
      that spelling. */
  lemma {:induction false} MakeInvertsArgsOf(t: Type)
    requires t.Struct? ==> |t.fields| >= 1
    ensures Make(ArgsOf(t)) == Ok(t)
  {
    if t.Struct? {
      var args := ArgsOf(t);
      assert !(|args| == 2 && args[1] == Str("*"));
      assert Struct(seq(|args|, i requires 0 <= i < |args| => args[i].t)).fields == t.fields;
    }
  }

  lemma {:induction false} MakeOnlyAcceptsArgsOf(args: seq<CtorArg>)
    requires Make(args).Ok?
    ensures var t := Make(args).value; (t.Struct? ==> |t.fields| >= 1) && ArgsOf(t) == args
  {
    var t := Make(args).value;
    if t.Struct? {
      assert |args| >= 1 && AllTypeArgs(args);
      assert forall i :: 0 <= i < |args| ==> args[i] == Ty(t.fields[i]);
    }
  }

  /** `Type('a', 'b')` is refused. */
  lemma TwoStringsAreInvalid()
    ensures Make([Str("a"), Str("b")]) == Err(InvalidConstruction)
  {
  }
}
