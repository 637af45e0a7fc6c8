/** The binary-layout bridge `toctypes` / `fromctypes`: a type value and the
    ctypes descriptor that lays it out in memory. The descriptors are an
    enumerated datatype standing for the ctypes classes. */
module CTypesBridge {
  import opened Results
  import opened Text
  import opened TypeValues

  /** The bit widths of ctypes' fixed-width integers. */
  datatype IntWidth = W8 | W16 | W32 | W64

  /** A ctypes descriptor: `None`, a primitive class, a string pointer,
      `c_void_p`, the typed pointer to `T`, a `Structure` subclass or a `CFUNCTYPE`. */
  datatype CType =
    | CNone                                        // Python's None: no value
    | CBool                                        // c_bool
    | CInt(w: IntWidth)                            // c_int8 .. c_int64
    | CUInt(w: IntWidth)                           // c_uint8 .. c_uint64
    | CFloat                                       // c_float
    | CDouble                                      // c_double
    | CChar                                        // c_char
    | CWChar                                       // c_wchar
    | CCharP                                       // c_char_p
    | CWCharP                                      // c_wchar_p
    | CVoidP                                       // c_void_p
    | CPointer(target: CType)                      // the typed pointer to target
    | CStructure(fields: seq<CField>)              // a Structure with these _fields_
    | CFuncType(restype: CType, argtypes: seq<CType>)  // CFUNCTYPE(restype, *argtypes)

  /** One entry of a Structure's `_fields_`: a name and a descriptor. */
  datatype CField = CField(name: string, ctype: CType)

  function WidthDigits(w: IntWidth): string {
    match w
    case W8 => "8"
    case W16 => "16"
    case W32 => "32"
    case W64 => "64"
  }

  /** The primitive descriptor of a normalized scalar name; `char` and `char8`
      are both `c_char`. */
  function ScalarCType(n: string): Option<CType> {
    match n
    case "bool" => Some(CBool)
    case "int8" => Some(CInt(W8))
    case "int16" => Some(CInt(W16))
    case "int32" => Some(CInt(W32))
    case "int64" => Some(CInt(W64))
    case "uint8" => Some(CUInt(W8))
    case "uint16" => Some(CUInt(W16))
    case "uint32" => Some(CUInt(W32))
    case "uint64" => Some(CUInt(W64))
    case "float32" => Some(CFloat)
    case "float64" => Some(CDouble)
    case "char" | "char8" => Some(CChar)
    case "wchar" => Some(CWChar)
    case _ => None
  }

  predicate IsScalar(c: CType) {
    c.CBool? || c.CInt? || c.CUInt? || c.CFloat? || c.CDouble? || c.CChar? || c.CWChar?
  }

  /** The canonical name of a primitive descriptor. */
  function ScalarName(c: CType): string
    requires IsScalar(c)
  {
    match c
    case CBool => "bool"
    case CInt(w) => "int" + WidthDigits(w)
    case CUInt(w) => "uint" + WidthDigits(w)
    case CFloat => "float32"
    case CDouble => "float64"
    case CChar => "char"
    case CWChar => "wchar"
  }

  /** Every primitive descriptor is the one its canonical name maps to. */
  lemma {:induction false} ScalarNameInverse(c: CType)
    requires IsScalar(c)
    ensures ScalarCType(ScalarName(c)) == Some(c)
  {
    match c
    case CInt(w) =>
      match w {
        case W8 => assert ScalarName(c) == "int8";
        case W16 => assert ScalarName(c) == "int16";
        case W32 => assert ScalarName(c) == "int32";
        case W64 => assert ScalarName(c) == "int64";
      }
    case CUInt(w) =>
      match w {
        case W8 => assert ScalarName(c) == "uint8";
        case W16 => assert ScalarName(c) == "uint16";
        case W32 => assert ScalarName(c) == "uint32";
        case W64 => assert ScalarName(c) == "uint64";
      }
    case _ =>
  }

  /** Every scalar name other than `char8` is the canonical name of its descriptor. */
  lemma {:induction false} ScalarCTypeInverse(n: string)
    requires ScalarCType(n).Some? && n != "char8"
    ensures IsScalar(ScalarCType(n).value) && ScalarName(ScalarCType(n).value) == n
  {
  }

  /** The positional name of the `i`-th struct field. */
  function FieldName(i: nat): (s: string)
    ensures |s| >= 2 && s[0] == 'f' && AllDigits(s[1..]) && DigitsValue(s[1..]) == i
    ensures |s| == 2 || s[1] != '0'
  {
    var s := "f" + NatToString(i);
    assert s[1..] == NatToString(i);
    s
  }

  /** The `_fields_` of a structure whose members are `cs`, named `f0`, `f1`, … in order. */
  function Fields(cs: seq<CType>): (fs: seq<CField>)
    ensures |fs| == |cs|
    ensures forall i :: 0 <= i < |cs| ==> fs[i] == CField(FieldName(i), cs[i])
    ensures forall i, j :: 0 <= i < j < |fs| ==> fs[i].name != fs[j].name
  {
    seq(|cs|, i requires 0 <= i < |cs| => CField(FieldName(i), cs[i]))
  }

  /** The values `toctypes` can lay out: known scalar names, and no void
      struct field or parameter (ctypes has no `None` member or argument). */
  predicate Convertible(t: Type)
    decreases t
  {
    match t
    case Void => true
    case Atomic(n) => ScalarCType(n).Some?
    case Pointer(x) => x == Void || Convertible(x)
    case Struct(fs) => forall i :: 0 <= i < |fs| ==> fs[i] != Void && Convertible(fs[i])
    case Function(r, ps) => Convertible(r) && forall i :: 0 <= i < |ps| ==> ps[i] != Void && Convertible(ps[i])
  }

  /** `toctypes`. A pointer to void, to `char` or to `wchar` has a dedicated
      descriptor; every other pointer is the typed pointer to its target. */
  function ToCTypes(t: Type): (r: Result<CType, TypeError>)
    ensures r.Ok? <==> Convertible(t)
    ensures r.Err? ==> r.error.UnsupportedConversion?
    decreases t, 1
  {
    match t
    case Void => Ok(CNone)
    case Atomic(n) =>
      (match ScalarCType(n)
       case Some(c) => Ok(c)
       case None => Err(UnsupportedConversion(n)))
    case Pointer(x) =>
      if x == Void then Ok(CVoidP)
      else if x == Atomic("char") then Ok(CCharP)
      else if x == Atomic("wchar") then Ok(CWCharP)
      else
        (match ToCTypes(x)
         case Ok(c) => Ok(CPointer(c))
         case Err(e) => Err(e))
    case Struct(fs) =>
      (match ToCEach(fs)
       case Ok(cs) => Ok(CStructure(Fields(cs)))
       case Err(e) => Err(e))
    case Function(res, ps) =>
      (match ToCTypes(res)
       case Err(e) => Err(e)
       case Ok(rc) =>
         match ToCEach(ps)
         case Ok(cs) => Ok(CFuncType(rc, cs))
         case Err(e) => Err(e))
  }

  /** The descriptors of struct members or parameters, in order; `void` is refused. */
  function ToCEach(ts: seq<Type>): (r: Result<seq<CType>, TypeError>)
    ensures r.Ok? <==> forall i :: 0 <= i < |ts| ==> ts[i] != Void && Convertible(ts[i])
    ensures r.Err? ==> r.error.UnsupportedConversion?
    ensures r.Ok? ==> |r.value| == |ts| && forall i :: 0 <= i < |ts| ==> ToCTypes(ts[i]) == Ok(r.value[i])
    decreases ts, 0
  {
    var rs := seq(|ts|, i requires 0 <= i < |ts| => if ts[i] == Void then Err(UnsupportedConversion("void")) else ToCTypes(ts[i]));
    assert forall i :: 0 <= i < |ts| ==> (rs[i].Ok? <==> ts[i] != Void && Convertible(ts[i]));
    Collect(rs)
  }

  /** `fromctypes`: the type value a descriptor lays out. */
  function FromCTypes(c: CType): (t: Type)
    ensures t == Void <==> c == CNone
    ensures t.Atomic? ==> IsScalar(c) && t.name == ScalarName(c)
    ensures IsScalar(c) ==> t == Atomic(ScalarName(c))
    decreases c
  {
    match c
    case CNone => Void
    case CCharP => Pointer(Atomic("char"))
    case CWCharP => Pointer(Atomic("wchar"))
    case CVoidP => Pointer(Void)
    case CPointer(x) => Pointer(FromCTypes(x))
    case CStructure(fs) => Struct(seq(|fs|, i requires 0 <= i < |fs| => FromCTypes(fs[i].ctype)))
    case CFuncType(r, args) => Function(FromCTypes(r), seq(|args|, i requires 0 <= i < |args| => FromCTypes(args[i])))
    case _ => Atomic(ScalarName(c))
  }

  /** No atomic name inside `t` is `char8`, the one scalar spelling that is
      not the canonical name of its descriptor. */
  predicate Char8Free(t: Type)
    decreases t
  {
    match t
    case Void => true
    case Atomic(n) => n != "char8"
    case Pointer(x) => Char8Free(x)
    case Struct(fs) => forall i :: 0 <= i < |fs| ==> Char8Free(fs[i])
    case Function(r, ps) => Char8Free(r) && forall i :: 0 <= i < |ps| ==> Char8Free(ps[i])
  }

  /** The descriptors `fromctypes` reads back: a string or void pointer is
      never spelled as the typed pointer to `c_char`, `c_wchar` or `None`, no member
      or argument is `None`, and struct fields carry their positional names. */
  predicate ValidCType(c: CType)
    decreases c
  {
    match c
    case CPointer(x) => x != CNone && x != CChar && x != CWChar && ValidCType(x)
    case CStructure(fs) =>
      forall i :: 0 <= i < |fs| ==> fs[i].name == FieldName(i) && fs[i].ctype != CNone && ValidCType(fs[i].ctype)
    case CFuncType(r, args) =>
      ValidCType(r) && forall i :: 0 <= i < |args| ==> args[i] != CNone && ValidCType(args[i])
    case _ => true
  }

  /** `fromctypes` inverts `toctypes` on every value it can lay out. */
  lemma {:induction false} LayoutRoundTrip(t: Type)
    requires Convertible(t) && Char8Free(t)
    ensures ToCTypes(t).Ok? && FromCTypes(ToCTypes(t).value) == t
    decreases t, 2
  {
    match t
    case Void =>
    case Atomic(n) => ScalarCTypeInverse(n);
    case Pointer(x) =>
      if x != Void && x != Atomic("char") && x != Atomic("wchar") {
        LayoutRoundTrip(x);
      }
    case Struct(fs) => LayoutRoundTripStruct(t);
    case Function(r, ps) => LayoutRoundTripFunction(t);
  }

  lemma {:induction false} LayoutRoundTripStruct(t: Type)
    requires t.Struct? && Convertible(t) && Char8Free(t)
    ensures ToCTypes(t).Ok? && FromCTypes(ToCTypes(t).value) == t
    decreases t, 1
  {
    var fs := t.fields;
    LayoutRoundTripEach(fs);
    var cs := ToCEach(fs).value;
    assert ToCTypes(t) == Ok(CStructure(Fields(cs)));
    assert FromCTypes(CStructure(Fields(cs))).fields == fs;
  }

  lemma {:induction false} LayoutRoundTripFunction(t: Type)
    requires t.Function? && Convertible(t) && Char8Free(t)
    ensures ToCTypes(t).Ok? && FromCTypes(ToCTypes(t).value) == t
    decreases t, 1
  {
    var r, ps := t.result, t.params;
    LayoutRoundTrip(r);
    LayoutRoundTripEach(ps);
    var cs := ToCEach(ps).value;
    assert ToCTypes(t) == Ok(CFuncType(ToCTypes(r).value, cs));
    assert FromCTypes(CFuncType(ToCTypes(r).value, cs)).params == ps;
  }

  lemma {:induction false} LayoutRoundTripEach(ts: seq<Type>)
    requires forall i :: 0 <= i < |ts| ==> ts[i] != Void && Convertible(ts[i]) && Char8Free(ts[i])
    ensures ToCEach(ts).Ok?
    ensures forall i :: 0 <= i < |ts| ==> FromCTypes(ToCEach(ts).value[i]) == ts[i]
    decreases ts, 0
  {
    forall i | 0 <= i < |ts| ensures FromCTypes(ToCEach(ts).value[i]) == ts[i] {
      LayoutRoundTrip(ts[i]);
    }
  }

  /** What `toctypes` lays out, from a value without `char8`, is a descriptor
      in canonical form, so the two round trips cover the same descriptors. */
  lemma {:induction false} LayoutIsValid(t: Type)
    requires Convertible(t) && Char8Free(t)
    ensures ToCTypes(t).Ok? && ValidCType(ToCTypes(t).value)
    decreases t, 1
  {
    match t
    case Void =>
    case Atomic(n) =>
    case Pointer(x) =>
      if x != Void && x != Atomic("char") && x != Atomic("wchar") {
        LayoutRoundTrip(x);
        LayoutIsValid(x);
      }
    case Struct(fs) =>
      LayoutIsValidEach(fs);
      LayoutRoundTripEach(fs);
      var cs := ToCEach(fs).value;
      assert ToCTypes(t) == Ok(CStructure(Fields(cs)));
    case Function(r, ps) =>
      LayoutIsValid(r);
      LayoutIsValidEach(ps);
      LayoutRoundTripEach(ps);
  }

  lemma {:induction false} LayoutIsValidEach(ts: seq<Type>)
    requires forall i :: 0 <= i < |ts| ==> ts[i] != Void && Convertible(ts[i]) && Char8Free(ts[i])
    ensures ToCEach(ts).Ok?
    ensures forall i :: 0 <= i < |ts| ==> ValidCType(ToCEach(ts).value[i])
    decreases ts, 0
  {
    forall i | 0 <= i < |ts| ensures ValidCType(ToCEach(ts).value[i]) {
      LayoutIsValid(ts[i]);
    }
  }

  /** `toctypes` inverts `fromctypes` on every descriptor in canonical form. */
  lemma {:induction false} CTypeRoundTrip(c: CType)
    requires ValidCType(c)
    ensures ToCTypes(FromCTypes(c)) == Ok(c)
    decreases c, 2
  {
    match c
    case CPointer(x) =>
      CTypeRoundTrip(x);
      var t := FromCTypes(x);
      if t == Atomic("char") || t == Atomic("wchar") {
        ScalarNameInverse(x);
        assert false;
      }
    case CStructure(fs) => CTypeRoundTripStruct(c);
    case CFuncType(r, args) => CTypeRoundTripFunction(c);
    case _ =>
      if IsScalar(c) {
        ScalarNameInverse(c);
      }
  }

  lemma {:induction false} CTypeRoundTripStruct(c: CType)
    requires c.CStructure? && ValidCType(c)
    ensures ToCTypes(FromCTypes(c)) == Ok(c)
    decreases c, 1
  {
    var fs := c.fields;
    var cs := seq(|fs|, i requires 0 <= i < |fs| => fs[i].ctype);
    CFieldsRoundTrip(fs);
    var ts := FromCTypes(c).fields;
    assert |ts| == |cs|;
    assert forall i :: 0 <= i < |ts| ==> ts[i] != Void && ToCTypes(ts[i]) == Ok(cs[i]);
    assert ToCEach(ts).value == cs;
    assert Fields(cs) == fs;
  }

  lemma {:induction false} CTypeRoundTripFunction(c: CType)
    requires c.CFuncType? && ValidCType(c)
    ensures ToCTypes(FromCTypes(c)) == Ok(c)
    decreases c, 1
  {
    var args := c.argtypes;
    CTypeRoundTrip(c.restype);
    CTypeRoundTripEach(args);
    var ts := FromCTypes(c).params;
    assert ToCEach(ts).value == args;
  }

  lemma {:induction false} CFieldsRoundTrip(fs: seq<CField>)
    requires forall i :: 0 <= i < |fs| ==> fs[i].ctype != CNone && ValidCType(fs[i].ctype)
    ensures forall i :: 0 <= i < |fs| ==> ToCTypes(FromCTypes(fs[i].ctype)) == Ok(fs[i].ctype)
    decreases fs, 0
  {
    forall i | 0 <= i < |fs| ensures ToCTypes(FromCTypes(fs[i].ctype)) == Ok(fs[i].ctype) {
      CTypeRoundTrip(fs[i].ctype);
    }
  }

  lemma {:induction false} CTypeRoundTripEach(cs: seq<CType>)
    requires forall i :: 0 <= i < |cs| ==> cs[i] != CNone && ValidCType(cs[i])
    ensures forall i :: 0 <= i < |cs| ==> ToCTypes(FromCTypes(cs[i])) == Ok(cs[i])
    decreases cs, 0
  {
    forall i | 0 <= i < |cs| ensures ToCTypes(FromCTypes(cs[i])) == Ok(cs[i]) {
      CTypeRoundTrip(cs[i]);
    }
  }
}
