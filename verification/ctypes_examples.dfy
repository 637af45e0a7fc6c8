/** The documented layouts of `Type.fromstring(s).toctypes()` and the
    documented readings of `Type.fromctypes(c)`. `ctypes.c_int` is taken to
    be `c_int32`. */
module CTypesExamples {
  import opened Results
  import opened Text
  import opened TypeValues
  import opened Names
  import opened Parser
  import opened CTypesBridge
  import opened ParseExamples
  import opened PrintExamples

  /** `s` reads as a value that `toctypes` lays out as `c`. */
  predicate LaysOut(s: string, c: CType) {
    Parse(s).Ok? && ToCTypes(Parse(s).value) == Ok(c)
  }

  lemma {:induction false} ReadsAndLaysOut(s: string, v: Type, c: CType)
    requires Parse(s) == Ok(v) && ToCTypes(v) == Ok(c)
    ensures LaysOut(s, c)
  {
  }

  /** A word that reads as `v` is laid out as the descriptor of `v`. */
  lemma {:induction false} WordLaysOut(s: string, v: Type, c: CType)
    requires Word(s, v) && ToCTypes(v) == Ok(c)
    ensures LaysOut(s, c)
  {
    WordReads(s, v);
  }

  // ---- names ------------------------------------------------------------------

  lemma CharWords()
    ensures Word("char", Atomic("char")) && Word("wchar", Atomic("wchar"))
  {
    assert "char"[1] == 'h' && "wchar"[1] == 'c';
    KeptName("char");
    KeptName("wchar");
  }

  lemma Char8Word()
    ensures Word("char8", Atomic("char8"))
  {
    assert "char8"[1] == 'h';
    KeptName("char8");
  }

  lemma CharPointerWords()
    ensures Word("char*", Pointer(Atomic("char"))) && Word("wchar*", Pointer(Atomic("wchar")))
  {
    CharWords();
    assert "char*"[..4] == "char" && "wchar*"[..5] == "wchar";
  }

  lemma EightBitWords()
    ensures Word("i8", Atomic("int8")) && Word("u8", Atomic("uint8"))
  {
    NormalizeWidth("8");
    assert "i" + "8" == "i8" && "u" + "8" == "u8";
  }

  lemma WideWords()
    ensures Word("i32", Atomic("int32")) && Word("u32", Atomic("uint32"))
  {
    NormalizeWidth("32");
    assert "i" + "32" == "i32" && "u" + "32" == "u32";
  }

  lemma Wide64Word()
    ensures Word("u64", Atomic("uint64"))
  {
    NormalizeWidth("64");
    assert "u" + "64" == "u64";
  }

  lemma FloatPointerWord()
    ensures Word("float*", Pointer(Atomic("float32")))
  {
    FloatAliasWords();
    assert "float*"[..5] == "float";
  }

  lemma IntegerDescriptors()
    ensures ToCTypes(Atomic("bool")) == Ok(CBool) && ToCTypes(Atomic("int8")) == Ok(CInt(W8))
    ensures ToCTypes(Atomic("int32")) == Ok(CInt(W32)) && ToCTypes(Atomic("uint32")) == Ok(CUInt(W32))
  {
  }

  lemma FloatDescriptors()
    ensures ToCTypes(Atomic("float64")) == Ok(CDouble) && ToCTypes(Atomic("float32")) == Ok(CFloat)
  {
  }

  lemma CharDescriptors()
    ensures ToCTypes(Atomic("char")) == Ok(CChar) && ToCTypes(Atomic("char8")) == Ok(CChar)
    ensures ToCTypes(Atomic("wchar")) == Ok(CWChar)
    ensures ToCTypes(Pointer(Atomic("char"))) == Ok(CCharP) && ToCTypes(Pointer(Atomic("wchar"))) == Ok(CWCharP)
  {
  }

  // ---- toctypes ---------------------------------------------------------------

  lemma ScalarLayouts(s1: string, s2: string, s3: string, s4: string, s5: string, s6: string)
    requires s1 == "bool" && s2 == "i8" && s3 == "i32" && s4 == "u32" && s5 == "double" && s6 == "float"
    ensures LaysOut(s1, CBool) && LaysOut(s2, CInt(W8)) && LaysOut(s3, CInt(W32))
    ensures LaysOut(s4, CUInt(W32)) && LaysOut(s5, CDouble) && LaysOut(s6, CFloat)
  {
    CanonicalOtherWords();
    EightBitWords();
    WideWords();
    FloatAliasWords();
    IntegerDescriptors();
    FloatDescriptors();
    WordLaysOut(s1, Atomic("bool"), CBool);
    WordLaysOut(s2, Atomic("int8"), CInt(W8));
    WordLaysOut(s3, Atomic("int32"), CInt(W32));
    WordLaysOut(s4, Atomic("uint32"), CUInt(W32));
    WordLaysOut(s5, Atomic("float64"), CDouble);
    WordLaysOut(s6, Atomic("float32"), CFloat);
  }

  /** `char` and `char8` are both `c_char`; a pointer to `char` or `wchar` is
      the matching string pointer. */
  lemma CharLayouts(s1: string, s2: string, s3: string, s4: string, s5: string)
    requires s1 == "char" && s2 == "char8" && s3 == "char*" && s4 == "wchar" && s5 == "wchar*"
    ensures LaysOut(s1, CChar) && LaysOut(s2, CChar) && LaysOut(s3, CCharP)
    ensures LaysOut(s4, CWChar) && LaysOut(s5, CWCharP)
  {
    CharWords();
    Char8Word();
    CharPointerWords();
    CharDescriptors();
    WordLaysOut(s1, Atomic("char"), CChar);
    WordLaysOut(s2, Atomic("char8"), CChar);
    WordLaysOut(s3, Pointer(Atomic("char")), CCharP);
    WordLaysOut(s4, Atomic("wchar"), CWChar);
    WordLaysOut(s5, Pointer(Atomic("wchar")), CWCharP);
  }

  /** A pointer to void is `c_void_p`, and void itself is `None`. */
  lemma VoidLayouts(s1: string, s2: string, s3: string)
    requires s1 == "*" && s2 == "void*" && s3 == "void"
    ensures LaysOut(s1, CVoidP) && LaysOut(s2, CVoidP) && LaysOut(s3, CNone)
  {
    VoidPointerWords();
    VoidWords();
    WordLaysOut(s1, Pointer(Void), CVoidP);
    WordLaysOut(s2, Pointer(Void), CVoidP);
    WordLaysOut(s3, Void, CNone);
  }

  lemma DoubleParameters()
    ensures Words(["i", "double"], [Atomic("int32"), Atomic("float64")])
    ensures Padded(["i", " double"], ["", " "], ["i", "double"], ["", ""]) && Join(["i", " double"], ",") == "i, double"
  {
    ShortWords();
    FloatAliasWords();
    SpaceFacts();
    assert " double" == " " + "double" + "";
  }

  lemma DoubleFunctionText(s: string, args: string)
    requires s == "i(i, double)" && args == "i, double"
    ensures s == "" + (("i" + "") + "(" + args + ")") + ""
  {
  }

  lemma {:induction false} DoubleFunctionParts(s: string, args: string, ts: seq<Type>)
    requires s == "i(i, double)" && args == "i, double" && ts == [Atomic("int32"), Atomic("float64")]
    ensures Parse(s) == Ok(Function(Atomic("int32"), ts))
  {
    ShortWords();
    SpaceFacts();
    DoubleParameters();
    WordsArePieces(["i", "double"], ts);
    DoubleFunctionText(s, args);
    CallOfPieces(s, "", "i", "", args, ["i", " double"], ["", " "], ["i", "double"], ["", ""], "", Atomic("int32"), ts);
  }

  lemma {:induction false} DoubleFunctionDescriptor(v: Type, ts: seq<Type>)
    requires ts == [Atomic("int32"), Atomic("float64")] && v == Function(Atomic("int32"), ts)
    ensures ToCTypes(v) == Ok(CFuncType(CInt(W32), [CInt(W32), CDouble]))
  {
    IntegerDescriptors();
    FloatDescriptors();
    assert ToCTypes(ts[0]) == Ok(CInt(W32)) && ToCTypes(ts[1]) == Ok(CDouble);
    assert ToCEach(ts).Ok?;
    var cs := ToCEach(ts).value;
    assert cs == [CInt(W32), CDouble];
  }

  /** A function is laid out as a `CFUNCTYPE` of its result and parameters. */
  lemma FunctionLayout(s: string)
    requires s == "i(i, double)"
    ensures LaysOut(s, CFuncType(CInt(W32), [CInt(W32), CDouble]))
  {
    var ts := [Atomic("int32"), Atomic("float64")];
    DoubleFunctionParts(s, "i, double", ts);
    DoubleFunctionDescriptor(Function(Atomic("int32"), ts), ts);
    ReadsAndLaysOut(s, Function(Atomic("int32"), ts), CFuncType(CInt(W32), [CInt(W32), CDouble]));
  }

  lemma DoubleStructText(s: string, body: string)
    requires s == "{i, double}" && body == "i, double"
    ensures s == "{" + body + "}"
  {
  }

  lemma {:induction false} DoubleStructParts(s: string, body: string, ts: seq<Type>)
    requires s == "{i, double}" && body == "i, double" && ts == [Atomic("int32"), Atomic("float64")]
    ensures Parse(s) == Ok(Struct(ts))
  {
    DoubleParameters();
    WordsArePieces(["i", "double"], ts);
    DoubleStructText(s, body);
    StructOfPieces(s, body, ["i", " double"], ["", " "], ["i", "double"], ["", ""], ts);
  }

  lemma FirstFieldNames()
    ensures FieldName(0) == "f0" && FieldName(1) == "f1"
  {
  }

  lemma {:induction false} DoubleStructDescriptor(v: Type, ts: seq<Type>)
    requires ts == [Atomic("int32"), Atomic("float64")] && v == Struct(ts)
    ensures ToCTypes(v) == Ok(CStructure([CField("f0", CInt(W32)), CField("f1", CDouble)]))
  {
    IntegerDescriptors();
    FloatDescriptors();
    FirstFieldNames();
    assert ToCTypes(ts[0]) == Ok(CInt(W32)) && ToCTypes(ts[1]) == Ok(CDouble);
    assert ToCEach(ts).Ok?;
    var cs := ToCEach(ts).value;
    assert cs == [CInt(W32), CDouble];
    assert Fields([CInt(W32), CDouble]) == [CField("f0", CInt(W32)), CField("f1", CDouble)];
  }

  /** A struct is laid out as a `Structure` whose fields are named `f0`,
      `f1`, … in order. */
  lemma StructLayout(s: string)
    requires s == "{i, double}"
    ensures LaysOut(s, CStructure([CField("f0", CInt(W32)), CField("f1", CDouble)]))
  {
    var ts := [Atomic("int32"), Atomic("float64")];
    DoubleStructParts(s, "i, double", ts);
    DoubleStructDescriptor(Struct(ts), ts);
    ReadsAndLaysOut(s, Struct(ts), CStructure([CField("f0", CInt(W32)), CField("f1", CDouble)]));
  }

  // ---- fromctypes ---------------------------------------------------------------

  lemma ScalarReadings()
    ensures FromCTypes(CInt(W8)) == Atomic("int8") && FromCTypes(CUInt(W8)) == Atomic("uint8")
    ensures FromCTypes(CUInt(W64)) == Atomic("uint64") && FromCTypes(CFloat) == Atomic("float32")
    ensures FromCTypes(CDouble) == Atomic("float64")
  {
  }

  lemma ScalarsReadBack(s1: string, s2: string, s3: string, s4: string, s5: string)
    requires s1 == "i8" && s2 == "u8" && s3 == "u64" && s4 == "f32" && s5 == "double"
    ensures Parse(s1) == Ok(FromCTypes(CInt(W8))) && Parse(s2) == Ok(FromCTypes(CUInt(W8)))
    ensures Parse(s3) == Ok(FromCTypes(CUInt(W64))) && Parse(s4) == Ok(FromCTypes(CFloat))
    ensures Parse(s5) == Ok(FromCTypes(CDouble))
  {
    ScalarReadings();
    EightBitWords();
    Wide64Word();
    FloatWidthWords();
    FloatAliasWords();
    WordReads(s1, Atomic("int8"));
    WordReads(s2, Atomic("uint8"));
    WordReads(s3, Atomic("uint64"));
    WordReads(s4, Atomic("float32"));
    WordReads(s5, Atomic("float64"));
  }

  /** A word reads back as the value `fromctypes` gives for `c`. */
  lemma WordReadsBack(s: string, c: CType, t: Type)
    requires Word(s, t) && FromCTypes(c) == t
    ensures Parse(s) == Ok(FromCTypes(c))
  {
    WordReads(s, t);
  }

  lemma PointerReadings()
    ensures FromCTypes(CCharP) == Pointer(Atomic("char")) && FromCTypes(CWCharP) == Pointer(Atomic("wchar"))
    ensures FromCTypes(CPointer(CFloat)) == Pointer(Atomic("float32"))
  {
  }

  /** The string pointers `c_char_p` and `c_wchar_p`, and the typed pointer to `c_float`. */
  lemma PointersReadBack(s1: string, s2: string, s3: string)
    requires s1 == "char*" && s2 == "wchar*" && s3 == "float*"
    ensures Parse(s1) == Ok(FromCTypes(CCharP)) && Parse(s2) == Ok(FromCTypes(CWCharP))
    ensures Parse(s3) == Ok(FromCTypes(CPointer(CFloat)))
  {
    CharPointerWords();
    FloatPointerWord();
    PointerReadings();
    WordReadsBack(s1, CCharP, Pointer(Atomic("char")));
    WordReadsBack(s2, CWCharP, Pointer(Atomic("wchar")));
    WordReadsBack(s3, CPointer(CFloat), Pointer(Atomic("float32")));
  }

  /** `c_void_p` reads as `*` and `None` as `void`. */
  lemma VoidsReadBack(s1: string, s2: string)
    requires s1 == "*" && s2 == "void"
    ensures Parse(s1) == Ok(FromCTypes(CVoidP)) && Parse(s2) == Ok(FromCTypes(CNone))
  {
    VoidPointerWords();
    VoidWords();
    WordReads(s1, Pointer(Void));
    WordReads(s2, Void);
  }

  lemma StructFieldLists()
    ensures Words(["i32", "double"], [Atomic("int32"), Atomic("float64")])
    ensures Padded(["i32", " double"], ["", " "], ["i32", "double"], ["", ""]) && Join(["i32", " double"], ",") == "i32, double"
  {
    WideWords();
    FloatAliasWords();
    SpaceFacts();
    assert " double" == " " + "double" + "";
  }

  lemma WideStructText(s: string, body: string)
    requires s == "{i32, double}" && body == "i32, double"
    ensures s == "{" + body + "}"
  {
  }

  lemma {:induction false} WideStructParts(s: string, body: string, ts: seq<Type>)
    requires s == "{i32, double}" && body == "i32, double" && ts == [Atomic("int32"), Atomic("float64")]
    ensures Parse(s) == Ok(Struct(ts))
  {
    StructFieldLists();
    WordsArePieces(["i32", "double"], ts);
    WideStructText(s, body);
    StructOfPieces(s, body, ["i32", " double"], ["", " "], ["i32", "double"], ["", ""], ts);
  }

  lemma {:induction false} StructReading(c: CType, ts: seq<Type>)
    requires c == CStructure([CField("f0", CInt(W32)), CField("f1", CDouble)])
    requires ts == [Atomic("int32"), Atomic("float64")]
    ensures FromCTypes(c) == Struct(ts)
  {
    assert FromCTypes(CInt(W32)) == Atomic("int32") && FromCTypes(CDouble) == Atomic("float64");
  }

  /** A `Structure` with fields `f0: c_int32` and `f1: c_double` reads as
      `{i32, double}`. */
  lemma StructReadsBack(s: string)
    requires s == "{i32, double}"
    ensures Parse(s) == Ok(FromCTypes(CStructure([CField("f0", CInt(W32)), CField("f1", CDouble)])))
  {
    var ts := [Atomic("int32"), Atomic("float64")];
    WideStructParts(s, "i32, double", ts);
    StructReading(CStructure([CField("f0", CInt(W32)), CField("f1", CDouble)]), ts);
  }

  lemma {:induction false} FunctionReading(c: CType, ts: seq<Type>)
    requires c == CFuncType(CFloat, [CInt(W32)]) && ts == [Atomic("int32")]
    ensures FromCTypes(c) == Function(Atomic("float32"), ts)
  {
    assert FromCTypes(CInt(W32)) == Atomic("int32") && FromCTypes(CFloat) == Atomic("float32");
  }

  lemma FloatFunctionText(s: string)
    requires s == "f(i)"
    ensures s == "" + (("f" + "") + "(" + "i" + ")") + ""
  {
  }

  lemma {:induction false} FloatFunctionParts(s: string, ts: seq<Type>)
    requires s == "f(i)" && ts == [Atomic("int32")]
    ensures Parse(s) == Ok(Function(Atomic("float32"), ts))
  {
    NamedWords();
    ShortWords();
    SpaceFacts();
    assert Words(["i"], ts) && Padded(["i"], [""], ["i"], [""]) && Join(["i"], ",") == "i";
    WordsArePieces(["i"], ts);
    FloatFunctionText(s);
    CallOfPieces(s, "", "f", "", "i", ["i"], [""], ["i"], [""], "", Atomic("float32"), ts);
  }

  /** `CFUNCTYPE(c_float, c_int)` reads as `f(i)`. */
  lemma FunctionReadsBack(s: string)
    requires s == "f(i)"
    ensures Parse(s) == Ok(FromCTypes(CFuncType(CFloat, [CInt(W32)])))
  {
    FloatFunctionParts(s, [Atomic("int32")]);
    FunctionReading(CFuncType(CFloat, [CInt(W32)]), [Atomic("int32")]);
  }
}
