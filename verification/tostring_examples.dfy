/** The documented printed forms of `Type.fromstring(s).tostring()`: the
    text is read, its names normalized, and the value printed back in
    canonical spelling. */
module PrintExamples {
  import opened Results
  import opened Text
  import opened TypeValues
  import opened Names
  import opened Parser
  import opened Printer
  import opened ParseExamples

  /** `s` reads as a value whose canonical text is `printed`. */
  predicate Prints(s: string, printed: string) {
    Parse(s).Ok? && ToString(Parse(s).value) == printed
  }

  lemma {:induction false} ReadsAndPrints(s: string, v: Type, printed: string)
    requires Parse(s) == Ok(v) && ToString(v) == printed
    ensures Prints(s, printed)
  {
  }

  /** A word that reads as an atomic name prints as that name. */
  lemma {:induction false} WordPrints(s: string, n: string)
    requires Word(s, Atomic(n))
    ensures Prints(s, n)
  {
    WordReads(s, Atomic(n));
  }

  // ---- tostring ----------------------------------------------------------------

  lemma NamedWords()
    ensures Word("a", Atomic("a")) && Word("a *", Pointer(Atomic("a"))) && Word("f", Atomic("float32"))
  {
    assert Normalize("a") == "a" && Normalize("f") == "float32";
    assert "a *"[..1] == "a";
  }

  /** Result texts with brackets other than parentheses and braces, or with
      a comma, are names too. */
  lemma BracketedWord()
    ensures Word("f[a,c]", Atomic("f[a,c]"))
  {
    assert "f[a,c]"[1] == '[';
    KeptName("f[a,c]");
  }

  lemma CommaJoinedWord()
    ensures Word("f,g", Atomic("f,g"))
  {
    assert "f,g"[1] == ',';
    KeptName("f,g");
  }

  lemma PrintedPointers()
    ensures ToString(Pointer(Atomic("a"))) == "a*" && ToString(Pointer(Void)) == "void*"
  {
  }

  lemma PrintedFunctionsOfNothing()
    ensures ToString(Function(Void, [])) == "void(void)"
    ensures ToString(Function(Atomic("float32"), [])) == "float32(void)"
    ensures ToString(Function(Atomic("f[a,c]"), [])) == "f[a,c](void)"
    ensures ToString(Function(Atomic("f,g"), [])) == "f,g(void)"
  {
  }

  lemma PrintsName(s: string)
    requires s == "a"
    ensures Prints(s, "a")
  {
    NamedWords();
    WordPrints(s, "a");
  }

  lemma PrintsPointerToName(s: string)
    requires s == "a * "
    ensures Prints(s, "a*")
  {
    NamedWords();
    SpaceFacts();
    assert s == "" + "a *" + " ";
    WordShape(s, "", "a *", " ", Pointer(Atomic("a")));
    PrintedPointers();
    ReadsAndPrints(s, Pointer(Atomic("a")), "a*");
  }

  lemma PrintsPointersToVoid(s: string, t: string)
    requires s == "*" && t == "void *"
    ensures Prints(s, "void*") && Prints(t, "void*")
  {
    VoidPointerWords();
    WordReads(s, Pointer(Void));
    WordReads(t, Pointer(Void));
    PrintedPointers();
    ReadsAndPrints(s, Pointer(Void), "void*");
    ReadsAndPrints(t, Pointer(Void), "void*");
  }

  /** An empty or blank parameter list prints as `void`. */
  lemma PrintsFunctionOfNothing(s: string)
    requires s == "()"
    ensures Prints(s, "void(void)")
  {
    VoidWords();
    SpaceFacts();
    assert s == "" + (("" + "") + "(" + "" + ")") + "";
    CallOfNothing(s, "", "", "", "", "", Void);
    PrintedFunctionsOfNothing();
    ReadsAndPrints(s, Function(Void, []), "void(void)");
  }

  lemma PrintsBlankParameters(s: string)
    requires s == "f  (   )"
    ensures Prints(s, "float32(void)")
  {
    NamedWords();
    SpaceFacts();
    assert AllSpace("   ");
    assert s == "" + (("f" + "  ") + "(" + "   " + ")") + "";
    CallOfNothing(s, "", "f", "  ", "   ", "", Atomic("float32"));
    PrintedFunctionsOfNothing();
    ReadsAndPrints(s, Function(Atomic("float32"), []), "float32(void)");
  }

  lemma PrintsBracketedResult(s: string)
    requires s == "f[a,c]  (   )"
    ensures Prints(s, "f[a,c](void)")
  {
    BracketedWord();
    SpaceFacts();
    assert AllSpace("   ");
    assert s == "" + (("f[a,c]" + "  ") + "(" + "   " + ")") + "";
    CallOfNothing(s, "", "f[a,c]", "  ", "   ", "", Atomic("f[a,c]"));
    PrintedFunctionsOfNothing();
    ReadsAndPrints(s, Function(Atomic("f[a,c]"), []), "f[a,c](void)");
  }

  lemma PrintsCommaJoinedResult(s: string)
    requires s == " f,g ()"
    ensures Prints(s, "f,g(void)")
  {
    CommaJoinedWord();
    SpaceFacts();
    assert s == " " + (("f,g" + " ") + "(" + "" + ")") + "";
    CallOfNothing(s, " ", "f,g", " ", "", "", Atomic("f,g"));
    PrintedFunctionsOfNothing();
    ReadsAndPrints(s, Function(Atomic("f,g"), []), "f,g(void)");
  }

  // ---- lists of parameters and fields ------------------------------------------

  /** Two pieces, each reading as the type beside it. */
  lemma {:induction false} PiecePair(x: string, tx: Type, y: string, ty: Type)
    requires Piece(x, tx) && Piece(y, ty)
    ensures Pieces([x, y], [tx, ty])
  {
  }

  /** The texts of two or three values, joined the way lists are printed. */
  lemma {:induction false} PrintedPair(x: Type, y: Type)
    ensures Join(ToStrings([x, y]), ", ") == ToString(x) + ", " + ToString(y)
  {
    var ss := ToStrings([x, y]);
    assert ss == [ToString(x), ToString(y)] && ss[1..] == [ToString(y)];
  }

  lemma {:induction false} PrintedTriple(x: Type, y: Type, z: Type)
    ensures Join(ToStrings([x, y, z]), ", ") == ToString(x) + ", " + ToString(y) + ", " + ToString(z)
  {
    var ss := ToStrings([x, y, z]);
    assert ss == [ToString(x), ToString(y), ToString(z)];
    assert ss[1..] == [ToString(y), ToString(z)] && ss[1..][1..] == [ToString(z)];
    assert Join(ss[1..], ", ") == ToString(y) + ", " + ToString(z);
  }

  lemma LetterWords()
    ensures Word("b", Atomic("bool")) && Word("c", Atomic("complex64"))
  {
    assert Normalize("b") == "bool" && Normalize("c") == "complex64";
  }

  lemma PointerLetterWords()
    ensures Word("b *", Pointer(Atomic("bool"))) && Word("c *", Pointer(Atomic("complex64")))
  {
    LetterWords();
    assert "b *"[..1] == "b" && "c *"[..1] == "c";
  }

  lemma ThreeLetters()
    ensures Words(["a", "b", "c"], [Atomic("a"), Atomic("bool"), Atomic("complex64")])
    ensures Padded(["a", "b", "c"], ["", "", ""], ["a", "b", "c"], ["", "", ""])
    ensures Join(["a", "b", "c"], ",") == "a,b,c"
  {
    NamedWords();
    LetterWords();
    SpaceFacts();
  }

  lemma PrintedThreeLetters()
    ensures ToString(Function(Void, [Atomic("a"), Atomic("bool"), Atomic("complex64")])) == "void(a, bool, complex64)"
  {
    PrintedTriple(Atomic("a"), Atomic("bool"), Atomic("complex64"));
    assert "void" + "(" + ("a" + ", " + "bool" + ", " + "complex64") + ")" == "void(a, bool, complex64)";
  }

  lemma PrintsFunctionOfThree(s: string)
    requires s == "(a,b,c)"
    ensures Prints(s, "void(a, bool, complex64)")
  {
    var ts := [Atomic("a"), Atomic("bool"), Atomic("complex64")];
    VoidWords();
    SpaceFacts();
    ThreeLetters();
    WordsArePieces(["a", "b", "c"], ts);
    assert s == "" + (("" + "") + "(" + "a,b,c" + ")") + "";
    CallOfPieces(s, "", "", "", "a,b,c", ["a", "b", "c"], ["", "", ""], ["a", "b", "c"], ["", "", ""], "", Void, ts);
    PrintedThreeLetters();
    ReadsAndPrints(s, Function(Void, ts), "void(a, bool, complex64)");
  }

  lemma PointerParameterWords()
    ensures Word("a  *", Pointer(Atomic("a")))
    ensures Words(["b *", "c *"], [Pointer(Atomic("bool")), Pointer(Atomic("complex64"))])
  {
    NamedWords();
    PointerLetterWords();
    assert "a  *"[..1] == "a";
  }

  lemma PointerParameterText()
    ensures Padded([" b * ", " c * "], [" ", " "], ["b *", "c *"], [" ", " "])
    ensures Join([" b * ", " c * "], ",") == " b * , c * "
  {
    SpaceFacts();
    assert " b * " == " " + "b *" + " " && " c * " == " " + "c *" + " ";
  }

  lemma PrintedPointerFunction()
    ensures ToString(Function(Pointer(Atomic("a")), [Pointer(Atomic("bool")), Pointer(Atomic("complex64"))]))
         == "a*(bool*, complex64*)"
  {
    PrintedPair(Pointer(Atomic("bool")), Pointer(Atomic("complex64")));
    assert "a" + "*" + "(" + ("bool" + "*" + ", " + ("complex64" + "*")) + ")" == "a*(bool*, complex64*)";
  }

  lemma PointerFunctionText(s: string, r: string, args: string)
    requires s == " a  * ( b * , c * )  " && r == "a  *" && args == " b * , c * "
    ensures s == " " + ((r + " ") + "(" + args + ")") + "  "
  {
  }

  lemma {:induction false} PointerFunctionParts(s: string, r: string, args: string, xs: seq<string>, ls: seq<string>, ys: seq<string>, rs: seq<string>, ts: seq<Type>)
    requires s == " a  * ( b * , c * )  " && r == "a  *" && args == " b * , c * "
    requires xs == [" b * ", " c * "] && ls == [" ", " "] && ys == ["b *", "c *"] && rs == [" ", " "]
    requires ts == [Pointer(Atomic("bool")), Pointer(Atomic("complex64"))]
    ensures Parse(s) == Ok(Function(Pointer(Atomic("a")), ts))
  {
    SpaceFacts();
    PointerParameterWords();
    PointerParameterText();
    WordsArePieces(ys, ts);
    PointerFunctionText(s, r, args);
    CallOfPieces(s, " ", r, " ", args, xs, ls, ys, rs, "  ", Pointer(Atomic("a")), ts);
  }

  /** Whitespace around the result, around each `*` and around each
      parameter is dropped. */
  lemma PrintsPointerFunction(s: string)
    requires s == " a  * ( b * , c * )  "
    ensures Prints(s, "a*(bool*, complex64*)")
  {
    var ts := [Pointer(Atomic("bool")), Pointer(Atomic("complex64"))];
    PointerFunctionParts(s, "a  *", " b * , c * ", [" b * ", " c * "], [" ", " "], ["b *", "c *"], [" ", " "], ts);
    PrintedPointerFunction();
    ReadsAndPrints(s, Function(Pointer(Atomic("a")), ts), "a*(bool*, complex64*)");
  }

  lemma FieldLists()
    ensures Words(["a"], [Atomic("a")]) && Padded(["a"], [""], ["a"], [""]) && Join(["a"], ",") == "a"
    ensures Words(["a", "b"], [Atomic("a"), Atomic("bool")])
    ensures Padded(["a  ", "b"], ["", ""], ["a", "b"], ["  ", ""]) && Join(["a  ", "b"], ",") == "a  ,b"
  {
    NamedWords();
    LetterWords();
    SpaceFacts();
    assert "a  " == "" + "a" + "  ";
  }

  lemma PrintedStructs()
    ensures ToString(Struct([Atomic("a")])) == "{a}"
    ensures ToString(Struct([Atomic("a"), Atomic("bool")])) == "{a, bool}"
  {
    assert ToStrings([Atomic("a")]) == ["a"];
    PrintedPair(Atomic("a"), Atomic("bool"));
  }

  lemma PrintsStructOfOne(s: string)
    requires s == "{a}"
    ensures Prints(s, "{a}")
  {
    FieldLists();
    WordsArePieces(["a"], [Atomic("a")]);
    assert s == "{" + "a" + "}";
    StructOfPieces(s, "a", ["a"], [""], ["a"], [""], [Atomic("a")]);
    PrintedStructs();
    ReadsAndPrints(s, Struct([Atomic("a")]), "{a}");
  }

  lemma PrintsStructOfTwo(s: string)
    requires s == "{a  ,b}"
    ensures Prints(s, "{a, bool}")
  {
    FieldLists();
    WordsArePieces(["a", "b"], [Atomic("a"), Atomic("bool")]);
    assert s == "{" + "a  ,b" + "}";
    StructOfPieces(s, "a  ,b", ["a  ", "b"], ["", ""], ["a", "b"], ["  ", ""], [Atomic("a"), Atomic("bool")]);
    PrintedStructs();
    ReadsAndPrints(s, Struct([Atomic("a"), Atomic("bool")]), "{a, bool}");
  }

  // ---- nested structs ----------------------------------------------------------

  lemma InnerFieldLists()
    ensures Words(["a", "c"], [Atomic("a"), Atomic("complex64")])
    ensures Padded(["a", "c"], ["", ""], ["a", "c"], ["", ""]) && Join(["a", "c"], ",") == "a,c"
  {
    NamedWords();
    LetterWords();
    SpaceFacts();
  }

  lemma InnerPointerLists()
    ensures Words(["*", "*"], [Pointer(Void), Pointer(Void)])
    ensures Padded(["*", "*"], ["", ""], ["*", "*"], ["", ""]) && Join(["*", "*"], ",") == "*,*"
  {
    VoidPointerWords();
    SpaceFacts();
  }

  lemma NestedStructText(s: string, g: string, body: string)
    requires s == "{{a,c} ,b}" && g == "{a,c}" && body == "{a,c} ,b"
    ensures g == "{" + "a,c" + "}" && s == "{" + body + "}"
    ensures body == Join([g + " ", "b"], ",") && g + " " == "" + g + " "
  {
  }

  lemma {:induction false} InnerStructPiece(g: string, inner: Type)
    requires g == "{a,c}" && inner == Struct([Atomic("a"), Atomic("complex64")])
    ensures Piece(g, inner)
  {
    InnerFieldLists();
    assert g == "{" + "a,c" + "}";
    WordsArePieces(["a", "c"], [Atomic("a"), Atomic("complex64")]);
    StructOfPieces(g, "a,c", ["a", "c"], ["", ""], ["a", "c"], ["", ""], [Atomic("a"), Atomic("complex64")]);
  }

  lemma {:induction false} NestedStructParts(s: string, g: string, body: string, inner: Type)
    requires s == "{{a,c} ,b}" && g == "{a,c}" && body == "{a,c} ,b"
    requires inner == Struct([Atomic("a"), Atomic("complex64")])
    ensures Parse(s) == Ok(Struct([inner, Atomic("bool")]))
  {
    LetterWords();
    SpaceFacts();
    NestedStructText(s, g, body);
    InnerStructPiece(g, inner);
    WordPiece("b", Atomic("bool"));
    PiecePair(g, inner, "b", Atomic("bool"));
    StructOfPieces(s, body, [g + " ", "b"], ["", ""], [g, "b"], [" ", ""], [inner, Atomic("bool")]);
  }

  lemma PrintedNestedStruct()
    ensures ToString(Struct([Struct([Atomic("a"), Atomic("complex64")]), Atomic("bool")])) == "{{a, complex64}, bool}"
  {
    PrintedPair(Atomic("a"), Atomic("complex64"));
    PrintedPair(Struct([Atomic("a"), Atomic("complex64")]), Atomic("bool"));
    assert "{" + ("{" + ("a" + ", " + "complex64") + "}" + ", " + "bool") + "}" == "{{a, complex64}, bool}";
  }

  /** A struct field may itself be a struct. */
  lemma PrintsNestedStruct(s: string)
    requires s == "{{a,c} ,b}"
    ensures Prints(s, "{{a, complex64}, bool}")
  {
    NestedStructParts(s, "{a,c}", "{a,c} ,b", Struct([Atomic("a"), Atomic("complex64")]));
    PrintedNestedStruct();
    ReadsAndPrints(s, Struct([Struct([Atomic("a"), Atomic("complex64")]), Atomic("bool")]), "{{a, complex64}, bool}");
  }

  lemma StructArgumentText(s: string, g: string, args: string)
    requires s == "*(*,{*,*})" && g == "{*,*}" && args == "*,{*,*}"
    ensures g == "{" + "*,*" + "}" && s == "" + (("*" + "") + "(" + args + ")") + ""
    ensures args == Join(["*", g], ",")
  {
  }

  lemma {:induction false} StructArgumentParts(s: string, g: string, args: string)
    requires s == "*(*,{*,*})" && g == "{*,*}" && args == "*,{*,*}"
    ensures Parse(s) == Ok(Function(Pointer(Void), [Pointer(Void), Struct([Pointer(Void), Pointer(Void)])]))
  {
    var inner := Struct([Pointer(Void), Pointer(Void)]);
    InnerPointerLists();
    VoidPointerWords();
    SpaceFacts();
    StructArgumentText(s, g, args);
    WordsArePieces(["*", "*"], [Pointer(Void), Pointer(Void)]);
    StructOfPieces(g, "*,*", ["*", "*"], ["", ""], ["*", "*"], ["", ""], [Pointer(Void), Pointer(Void)]);
    WordPiece("*", Pointer(Void));
    PiecePair("*", Pointer(Void), g, inner);
    CallOfPieces(s, "", "*", "", args, ["*", g], ["", ""], ["*", g], ["", ""], "", Pointer(Void), [Pointer(Void), inner]);
  }

  lemma PrintedPointerStruct()
    ensures ToString(Pointer(Void)) == "void*"
    ensures ToString(Struct([Pointer(Void), Pointer(Void)])) == "{void*, void*}"
  {
    PrintedPair(Pointer(Void), Pointer(Void));
    assert "{" + ("void*" + ", " + "void*") + "}" == "{void*, void*}";
  }

  lemma {:induction false} PrintedStructArgument(v: Type, inner: Type)
    requires inner == Struct([Pointer(Void), Pointer(Void)])
    requires v == Function(Pointer(Void), [Pointer(Void), inner])
    ensures ToString(v) == "void*(void*, {void*, void*})"
  {
    PrintedPointerStruct();
    PrintedPair(Pointer(Void), inner);
    assert ToString(v) == "void*" + "(" + ("void*" + ", " + "{void*, void*}") + ")";
  }

  /** A parameter may be a struct, and `*` alone is a pointer to void. */
  lemma PrintsStructArgument(s: string)
    requires s == "*(*,{*,*})"
    ensures Prints(s, "void*(void*, {void*, void*})")
  {
    StructArgumentParts(s, "{*,*}", "*,{*,*}");
    PrintedStructArgument(Function(Pointer(Void), [Pointer(Void), Struct([Pointer(Void), Pointer(Void)])]), Struct([Pointer(Void), Pointer(Void)]));
    ReadsAndPrints(s, Function(Pointer(Void), [Pointer(Void), Struct([Pointer(Void), Pointer(Void)])]), "void*(void*, {void*, void*})");
  }

  // ---- normalize -----------------------------------------------------------------

  lemma CanonicalIntegerWords()
    ensures Word("int32", Atomic("int32")) && Word("uint32", Atomic("uint32"))
  {
    assert "int32"[1] == 'n' && "uint32"[1] == 'i';
    KeptName("int32");
    KeptName("uint32");
  }

  lemma Float32Word()
    ensures Word("float32", Atomic("float32"))
  {
    assert "float32"[1] == 'l';
    KeptName("float32");
  }

  lemma Float64Word()
    ensures Word("float64", Atomic("float64"))
  {
    assert "float64"[1] == 'l';
    KeptName("float64");
  }

  lemma CanonicalFloatWords()
    ensures Word("float32", Atomic("float32")) && Word("float64", Atomic("float64"))
  {
    Float32Word();
    Float64Word();
  }

  lemma CanonicalComplexWord()
    ensures Word("complex32", Atomic("complex32"))
  {
    assert "complex32"[1] == 'o';
    KeptName("complex32");
  }

  lemma CanonicalOtherWords()
    ensures Word("bool", Atomic("bool")) && Word("string", Atomic("string"))
  {
    assert "bool"[1] == 'o' && "string"[1] == 't';
    KeptName("bool");
    KeptName("string");
  }

  lemma IntegerAliasWords()
    ensures Word("int", Atomic("int32")) && Word("byte", Atomic("int8")) && Word("ubyte", Atomic("uint8"))
  {
    assert Normalize("int") == "int32" && Normalize("byte") == "int8" && Normalize("ubyte") == "uint8";
  }

  lemma UnsignedAliasWords()
    ensures Word("uint", Atomic("uint32")) && Word("u", Atomic("uint32")) && Word("unsigned int", Atomic("uint32"))
  {
    assert Normalize("uint") == "uint32" && Normalize("u") == "uint32";
    assert Normalize("unsigned int") == "uint32";
  }

  lemma FloatAliasWord()
    ensures Word("float", Atomic("float32"))
  {
    assert Normalize("float") == "float32";
  }

  lemma DoubleAliasWords()
    ensures Word("double", Atomic("float64")) && Word("d", Atomic("float64"))
  {
    assert Normalize("double") == "float64" && Normalize("d") == "float64";
  }

  lemma FloatAliasWords()
    ensures Word("float", Atomic("float32")) && Word("double", Atomic("float64")) && Word("d", Atomic("float64"))
  {
    FloatAliasWord();
    DoubleAliasWords();
  }

  lemma OtherAliasWords()
    ensures Word("complex", Atomic("complex64")) && Word("str", Atomic("string"))
  {
    assert Normalize("complex") == "complex64" && Normalize("str") == "string";
  }

  /** A width-prefix letter followed by digits spells out the prefix and
      keeps the digits. */
  lemma IntegerWidthWords()
    ensures Word("i35", Atomic("int35")) && Word("u35", Atomic("uint35"))
  {
    NormalizeWidth("35");
    assert "i" + "35" == "i35" && "u" + "35" == "u35";
  }

  lemma FloatWidthWords()
    ensures Word("f32", Atomic("float32")) && Word("c32", Atomic("complex32"))
  {
    NormalizeWidth("32");
    assert "f" + "32" == "f32" && "c" + "32" == "c32";
  }

  lemma WidthWord15()
    ensures Word("i15", Atomic("int15"))
  {
    NormalizeWidth("15");
    assert "i" + "15" == "i15";
  }

  lemma NormalizesIntegerNames(s1: string, s2: string, s3: string, s4: string, s5: string, s6: string, s7: string)
    requires s1 == "a" && s2 == "int32" && s3 == "int" && s4 == "i"
    requires s5 == "i35" && s6 == "byte" && s7 == "ubyte"
    ensures Prints(s1, "a") && Prints(s2, "int32") && Prints(s3, "int32") && Prints(s4, "int32")
    ensures Prints(s5, "int35") && Prints(s6, "int8") && Prints(s7, "uint8")
  {
    NamedWords();
    CanonicalIntegerWords();
    IntegerAliasWords();
    ShortWords();
    IntegerWidthWords();
    WordPrints(s1, "a");
    WordPrints(s2, "int32");
    WordPrints(s3, "int32");
    WordPrints(s4, "int32");
    WordPrints(s5, "int35");
    WordPrints(s6, "int8");
    WordPrints(s7, "uint8");
  }

  lemma NormalizesUnsignedNames(s1: string, s2: string, s3: string, s4: string, s5: string)
    requires s1 == "uint32" && s2 == "uint" && s3 == "u" && s4 == "u35" && s5 == "unsigned int"
    ensures Prints(s1, "uint32") && Prints(s2, "uint32") && Prints(s3, "uint32")
    ensures Prints(s4, "uint35") && Prints(s5, "uint32")
  {
    CanonicalIntegerWords();
    UnsignedAliasWords();
    IntegerWidthWords();
    WordPrints(s1, "uint32");
    WordPrints(s2, "uint32");
    WordPrints(s3, "uint32");
    WordPrints(s4, "uint35");
    WordPrints(s5, "uint32");
  }

  lemma NormalizesFloatNames(s1: string, s2: string, s3: string, s4: string, s5: string, s6: string, s7: string)
    requires s1 == "float32" && s2 == "f32" && s3 == "f" && s4 == "float"
    requires s5 == "float64" && s6 == "double" && s7 == "d"
    ensures Prints(s1, "float32") && Prints(s2, "float32") && Prints(s3, "float32") && Prints(s4, "float32")
    ensures Prints(s5, "float64") && Prints(s6, "float64") && Prints(s7, "float64")
  {
    NamedWords();
    CanonicalFloatWords();
    FloatAliasWords();
    FloatWidthWords();
    WordPrints(s1, "float32");
    WordPrints(s2, "float32");
    WordPrints(s3, "float32");
    WordPrints(s4, "float32");
    WordPrints(s5, "float64");
    WordPrints(s6, "float64");
    WordPrints(s7, "float64");
  }

  lemma NormalizesComplexNames(s1: string, s2: string, s3: string, s4: string)
    requires s1 == "complex32" && s2 == "c32" && s3 == "c" && s4 == "complex"
    ensures Prints(s1, "complex32") && Prints(s2, "complex32") && Prints(s3, "complex64") && Prints(s4, "complex64")
  {
    CanonicalComplexWord();
    FloatWidthWords();
    LetterWords();
    OtherAliasWords();
    WordPrints(s1, "complex32");
    WordPrints(s2, "complex32");
    WordPrints(s3, "complex64");
    WordPrints(s4, "complex64");
  }

  /** The empty text prints as `void`. */
  lemma NormalizesOtherNames(s1: string, s2: string, s3: string, s4: string, s5: string)
    requires s1 == "" && s2 == "bool" && s3 == "b" && s4 == "str" && s5 == "string"
    ensures Prints(s1, "void") && Prints(s2, "bool") && Prints(s3, "bool")
    ensures Prints(s4, "string") && Prints(s5, "string")
  {
    VoidWords();
    CanonicalOtherWords();
    LetterWords();
    OtherAliasWords();
    WordReads(s1, Void);
    ReadsAndPrints(s1, Void, "void");
    WordPrints(s2, "bool");
    WordPrints(s3, "bool");
    WordPrints(s4, "string");
    WordPrints(s5, "string");
  }

  lemma WidthParameterLists()
    ensures Words(["i*", "i15"], [Pointer(Atomic("int32")), Atomic("int15")])
    ensures Padded(["i*", " i15"], ["", " "], ["i*", "i15"], ["", ""]) && Join(["i*", " i15"], ",") == "i*, i15"
  {
    PointerWords();
    WidthWord15();
    SpaceFacts();
    assert " i15" == " " + "i15" + "";
  }

  lemma WidthFunctionText(s: string, args: string)
    requires s == "i(i*, i15)" && args == "i*, i15"
    ensures s == "" + (("i" + "") + "(" + args + ")") + ""
  {
  }

  lemma {:induction false} WidthFunctionParts(s: string, args: string, ts: seq<Type>)
    requires s == "i(i*, i15)" && args == "i*, i15" && ts == [Pointer(Atomic("int32")), Atomic("int15")]
    ensures Parse(s) == Ok(Function(Atomic("int32"), ts))
  {
    ShortWords();
    SpaceFacts();
    WidthParameterLists();
    WordsArePieces(["i*", "i15"], ts);
    WidthFunctionText(s, args);
    CallOfPieces(s, "", "i", "", args, ["i*", " i15"], ["", " "], ["i*", "i15"], ["", ""], "", Atomic("int32"), ts);
  }

  lemma {:induction false} PrintedWidthFunction(v: Type, ts: seq<Type>)
    requires ts == [Pointer(Atomic("int32")), Atomic("int15")] && v == Function(Atomic("int32"), ts)
    ensures ToString(v) == "int32(int32*, int15)"
  {
    PrintedPair(Pointer(Atomic("int32")), Atomic("int15"));
    assert ToString(v) == "int32" + "(" + ("int32" + "*" + ", " + "int15") + ")";
  }

  /** Names are normalized at every depth: in the result, under a pointer and
      in a parameter list. */
  lemma NormalizesFunction(s: string)
    requires s == "i(i*, i15)"
    ensures Prints(s, "int32(int32*, int15)")
  {
    var ts := [Pointer(Atomic("int32")), Atomic("int15")];
    WidthFunctionParts(s, "i*, i15", ts);
    PrintedWidthFunction(Function(Atomic("int32"), ts), ts);
    ReadsAndPrints(s, Function(Atomic("int32"), ts), "int32(int32*, int15)");
  }

  lemma StringPointerWord()
    ensures Word("str*", Pointer(Atomic("string")))
  {
    OtherAliasWords();
    assert "str*"[..3] == "str";
  }

  lemma {:induction false} SixFieldWords(ys: seq<string>, ts: seq<Type>)
    requires ys == ["i", "d", "c", "bool", "f", "str*"]
    requires ts == [Atomic("int32"), Atomic("float64"), Atomic("complex64"), Atomic("bool"), Atomic("float32"), Pointer(Atomic("string"))]
    ensures Words(ys, ts)
  {
    ShortWords();
    FloatAliasWords();
    LetterWords();
    CanonicalOtherWords();
    NamedWords();
    StringPointerWord();
  }

  lemma {:induction false} SixFieldPadding(xs: seq<string>, ls: seq<string>, ys: seq<string>, rs: seq<string>)
    requires xs == ["i", "d", "c", " bool", "f", "str*"]
    requires ls == ["", "", "", " ", "", ""] && ys == ["i", "d", "c", "bool", "f", "str*"] && rs == ["", "", "", "", "", ""]
    ensures Padded(xs, ls, ys, rs)
  {
    SpaceFacts();
    assert " bool" == " " + "bool" + "";
  }

  lemma {:induction false} SixFieldJoin(body: string, xs: seq<string>)
    requires body == "i,d,c, bool,f,str*" && xs == ["i", "d", "c", " bool", "f", "str*"]
    ensures Join(xs, ",") == body
  {
    assert Join(xs[4..], ",") == "f,str*";
    assert Join(xs[2..], ",") == "c, bool,f,str*";
  }

  lemma SixFieldStructText(s: string, body: string)
    requires s == "{i,d,c, bool,f,str*}" && body == "i,d,c, bool,f,str*"
    ensures s == "{" + body + "}"
  {
  }

  lemma {:induction false} SixFieldParts(s: string, body: string, xs: seq<string>, ls: seq<string>, ys: seq<string>, rs: seq<string>, ts: seq<Type>)
    requires s == "{i,d,c, bool,f,str*}" && body == "i,d,c, bool,f,str*" && xs == ["i", "d", "c", " bool", "f", "str*"]
    requires ls == ["", "", "", " ", "", ""] && ys == ["i", "d", "c", "bool", "f", "str*"] && rs == ["", "", "", "", "", ""]
    requires ts == [Atomic("int32"), Atomic("float64"), Atomic("complex64"), Atomic("bool"), Atomic("float32"), Pointer(Atomic("string"))]
    ensures Parse(s) == Ok(Struct(ts))
  {
    SixFieldWords(ys, ts);
    SixFieldPadding(xs, ls, ys, rs);
    SixFieldJoin(body, xs);
    SixFieldStructText(s, body);
    WordsArePieces(ys, ts);
    StructOfPieces(s, body, xs, ls, ys, rs, ts);
  }

  lemma {:induction false} PrintedSixTexts(ts: seq<Type>, ss: seq<string>)
    requires ts == [Atomic("int32"), Atomic("float64"), Atomic("complex64"), Atomic("bool"), Atomic("float32"), Pointer(Atomic("string"))]
    requires ss == ["int32", "float64", "complex64", "bool", "float32", "string*"]
    ensures ToStrings(ts) == ss
  {
    assert ToString(Pointer(Atomic("string"))) == "string*";
  }

  /** Joining a list is joining its two halves. */
  lemma {:induction false} JoinSplit(xs: seq<string>, k: nat, sep: string)
    requires 1 <= k < |xs|
    ensures Join(xs, sep) == Join(xs[..k], sep) + sep + Join(xs[k..], sep)
    decreases k
  {
    if k > 1 {
      JoinSplit(xs[1..], k - 1, sep);
      assert xs[1..][..k - 1] == xs[..k][1..];
      assert xs[1..][k - 1..] == xs[k..];
    } else {
      assert xs[..1] == [xs[0]];
    }
  }

  lemma {:induction false} JoinThree(x: string, y: string, z: string, sep: string)
    ensures Join([x, y, z], sep) == x + sep + y + sep + z
  {
    assert [x, y, z][1..] == [y, z] && [y, z][1..] == [z];
    assert Join([y, z], sep) == y + sep + z;
  }

  lemma SixFieldHalves()
    ensures "int32" + ", " + "float64" + ", " + "complex64" == "int32, float64, complex64"
    ensures "bool" + ", " + "float32" + ", " + "string*" == "bool, float32, string*"
  {
  }

  lemma {:induction false} SixFieldBraces(a: string, b: string)
    requires a == "int32, float64, complex64" && b == "bool, float32, string*"
    ensures "{" + (a + ", " + b) + "}" == "{int32, float64, complex64, " + "bool, float32, string*}"
  {
    assert "{" + a + ", " == "{int32, float64, complex64, ";
    assert b + "}" == "bool, float32, string*}";
  }

  lemma {:induction false} SixFieldsJoined(ss: seq<string>)
    requires ss == ["int32", "float64", "complex64", "bool", "float32", "string*"]
    ensures Join(ss, ", ") == "int32, float64, complex64" + ", " + "bool, float32, string*"
  {
    JoinSplit(ss, 3, ", ");
    assert ss[..3] == ["int32", "float64", "complex64"] && ss[3..] == ["bool", "float32", "string*"];
    JoinThree("int32", "float64", "complex64", ", ");
    JoinThree("bool", "float32", "string*", ", ");
    SixFieldHalves();
  }

  lemma {:induction false} PrintedSixFields(ts: seq<Type>, ss: seq<string>)
    requires ts == [Atomic("int32"), Atomic("float64"), Atomic("complex64"), Atomic("bool"), Atomic("float32"), Pointer(Atomic("string"))]
    requires ss == ["int32", "float64", "complex64", "bool", "float32", "string*"]
    ensures ToString(Struct(ts)) == "{int32, float64, complex64, " + "bool, float32, string*}"
  {
    PrintedSixTexts(ts, ss);
    SixFieldsJoined(ss);
    SixFieldBraces("int32, float64, complex64", "bool, float32, string*");
  }

  /** The expected text is written in two parts joined by `+`. */
  lemma NormalizesStructFields(s: string)
    requires s == "{i,d,c, bool,f,str*}"
    ensures Prints(s, "{int32, float64, complex64, " + "bool, float32, string*}")
  {
    var ts := [Atomic("int32"), Atomic("float64"), Atomic("complex64"), Atomic("bool"), Atomic("float32"), Pointer(Atomic("string"))];
    SixFieldParts(s, "i,d,c, bool,f,str*", ["i", "d", "c", " bool", "f", "str*"], ["", "", "", " ", "", ""],
      ["i", "d", "c", "bool", "f", "str*"], ["", "", "", "", "", ""], ts);
    PrintedSixFields(ts, ["int32", "float64", "complex64", "bool", "float32", "string*"]);
    ReadsAndPrints(s, Struct(ts), "{int32, float64, complex64, " + "bool, float32, string*}");
  }
}
