# rbc type descriptions and heavydb overload binding, in Dafny

This project models two pieces of rbc, the Remote Backend Compiler that
builds user-defined functions for the HeavyDB (formerly OmniSciDB) database.

1. **The type-description engine of `rbc.typesystem`.** It has five parts:
   - a closed five-form value type: `Void`, `Atomic(name)`, `Pointer(t)`,
     `Struct(fields)` and `Function(result, params)`;
   - the bracket scanner `_findparen`, which finds the `(` that opens the
     final top-level argument group;
   - the bracket scanner `_commasplit`, which splits on commas at depth zero,
     counting both `()` and `{}`;
   - the parser `Type.fromstring`, with its name normalizer (`i` → `int32`,
     `i35` → `int35`, `d` → `float64`, …), and the printer `Type.tostring`;
   - the ctypes layout bridge `toctypes`/`fromctypes`, over an enumerated
     descriptor datatype.

   The implementation file `rbc/typesystem.py` is not part of this model. The
   engine's behaviour is pinned by the assertions of
   `rbc/tests/test_typesystem.py`. The model states that behaviour as total
   functions with general lemmas, and every pair the tests assert is an
   instance lemma (`FromStruct`, `PrintsStructArgument`, `StructLayout`, …).
   The general lemmas include:
   - print-then-parse round trips;
   - `CommaSplit(Join(xs, ", ")) == Ok(xs)`;
   - the top-level paren that `FindParen` finds;
   - idempotence of normalization;
   - both ctypes round trips.
2. **The overload-binding predictors of the heavydb binding test.** There are
   three version-dependent `get_result` rules, for release 5.9 and later, for
   5.8, and for 5.7 and older. Each predicts which scalar overload (`i8`,
   `i64`, `f32`, `f64`, …) of a UDF the server binds a literal or column
   argument to. Each rule is a first-match search over a list that may be
   reversed, followed by a fallback.

Modules, one per file:

| file | module | contents |
|---|---|---|
| results.dfy | `Results` | `Option`, `Result`, `Collect` |
| text.dfy | `Text` | whitespace trimming (`str.strip`), lower-casing, `Join`, decimal digits |
| type_values.dfy | `TypeValues` | the value type, its `is_*` predicates, errors, `Type(*args)` |
| names.dfy | `Names` | the alias table and width-prefix normalizer |
| brackets.dfy | `Brackets` | paren/brace depth counting, `FindParen`, `CommaSplit` |
| parser.dfy | `Parser` | `Parse` (`fromstring`) and its shape lemmas |
| printer.dfy | `Printer` | `ToString` (`tostring`) and the print/parse round trip |
| ctypes_bridge.dfy | `CTypesBridge` | ctypes descriptors, `ToCTypes`, `FromCTypes`, both round trips |
| overload_binding.dfy | `OverloadBinding` | `Bind59`, `Bind58`, `BindOld` and their properties |
| bracket_examples.dfy | `BracketExamples` | the `_findparen` and `_commasplit` assertions |
| fromstring_examples.dfy | `ParseExamples` | the `fromstring` and `is_*` assertions |
| tostring_examples.dfy | `PrintExamples` | the `tostring` and normalization assertions |
| ctypes_examples.dfy | `CTypesExamples` | the `toctypes` and `fromctypes` assertions |

Errors are values: `Parse`, `CommaSplit`, `FindParen`, `Make` and
`ToCTypes` return a `Result` whose error constructor stands for the
`ValueError` the source raises. That constructor carries the offending text:
- `LparenNotFound` ("failed to find lparen index in");
- `CommaSplitFailed` ("failed to comma-split");
- `MismatchingCurly` ("mismatching curly parenthesis in");
- `InvalidConstruction` ("attempt to create an invalid Type object from");
- `UnsupportedConversion`.

## Model

| member | source | states |
|---|---|---|
| Text.TrimStrips | rbc/tests/test_typesystem.py:22-30 | the trimmed text is a slice of the input with only whitespace cut from either end |
| Text.TrimPadded | rbc/tests/test_typesystem.py:45 | whitespace around a trimmed non-empty text is removed exactly |
| Text.TrimOfSpace | rbc/tests/test_typesystem.py:35 | text made only of whitespace trims to the empty string |
| Text.NatToString | rbc/tests/test_typesystem.py:183 | the decimal spelling of `n` is a non-empty digit string whose value is `n`, with no leading zero unless it is `0` itself |
| TypeValues.Make | rbc/tests/test_typesystem.py:63-91 | `Type(*args)` fails only with the invalid-construction error; a struct has one field per argument and at least one; a function is built from two arguments |
| TypeValues.MakeInvertsArgsOf | rbc/tests/test_typesystem.py:34-48 | every value (a struct having at least one field) is rebuilt by the constructor from its canonical arguments |
| TypeValues.MakeOnlyAcceptsArgsOf | rbc/tests/test_typesystem.py:89-91 | the constructor accepts exactly the canonical argument lists of values: whatever it accepts is the argument list of the value it builds |
| TypeValues.TwoStringsAreInvalid | rbc/tests/test_typesystem.py:89-91 | `Type('a', 'b')` is refused as an invalid construction |
| Names.AliasShape | rbc/tests/test_typesystem.py:115-152 | no alias is a width letter followed by a digit or a canonical prefix followed by more text, so aliases and width names never overlap |
| Names.AliasTargetShape | rbc/tests/test_typesystem.py:115-152 | every alias stands for a canonical name that is itself no alias and no width name |
| Names.NormalizeWidth | rbc/tests/test_typesystem.py:124-143 | `iN`, `uN`, `fN` and `cN` become `intN`, `uintN`, `floatN` and `complexN` for every digit string `N` |
| Names.NormalizeIdempotent | rbc/tests/test_typesystem.py:120-121 | normalizing a normalized name changes nothing, so canonical names are kept |
| Names.KeptName | rbc/tests/test_typesystem.py:99-120 | a name of two or more characters that is no alias and whose second character is not a digit normalizes to itself |
| Brackets.JoinBalanced | rbc/tests/test_typesystem.py:107-112 | joining balanced texts with `", "` gives a balanced text |
| Brackets.WrappedBalanced | rbc/tests/test_typesystem.py:28-29 | a balanced text wrapped in `()` or `{}` is balanced and has no top-level comma |
| Brackets.LastTopParen | rbc/tests/test_typesystem.py:10-17 | the found index holds a `(` at depth zero, and no later `(` is at depth zero; none found means no `(` is at depth zero |
| Brackets.FindParen | rbc/tests/test_typesystem.py:10-17 | the result is the last `(` whose prefix is at paren and brace depth zero; failing that, the lparen-not-found error |
| Brackets.FindParenOfSignature | rbc/tests/test_typesystem.py:12-17 | in `res(args)` with `res` balanced and `args` nested, the found paren is the one right after `res`, whatever calls `args` contains |
| Brackets.InsideArgumentGroup | rbc/tests/test_typesystem.py:13-15 | every `(` inside the argument group is at paren depth one or more, so it is never the top-level paren |
| Brackets.CommaSplit | rbc/tests/test_typesystem.py:20-30 | the split fails, with the comma-split error, iff the text's final paren or brace count is not zero; otherwise at least one piece, each trimmed and no longer than the text |
| Brackets.SplitPiecesRejoin | rbc/tests/test_typesystem.py:22-30 | the cut pieces joined with `,` are exactly the text: the splitter drops nothing but the commas it cuts at |
| Brackets.CommaSplitIsCut | rbc/tests/test_typesystem.py:20-30 | a successful split is the trimmed form of top-level pieces that join with `,` into the text |
| Brackets.SplitPiecesAreTopLevel | rbc/tests/test_typesystem.py:25-30 | no piece the splitter cuts has a comma at depth zero, and every piece but the last closes the brackets it opens |
| Brackets.CommaSplitOfCut | rbc/tests/test_typesystem.py:22-30 | any pieces that each close their brackets and hold no top-level comma, joined by `,`, split back into those pieces trimmed, so the cut is unique |
| Brackets.CommaSplitOfJoin | rbc/tests/test_typesystem.py:22-30 | splitting trimmed balanced pieces joined by `", "` gives exactly those pieces |
| Brackets.CommaSplitOfPiece | rbc/tests/test_typesystem.py:28-29 | a balanced text with no top-level comma is one piece, trimmed |
| Brackets.CommaSplitCons | rbc/tests/test_typesystem.py:22-30 | a leading top-level piece is split off ahead of the split of the rest |
| Parser.ParseOfTrim | rbc/tests/test_typesystem.py:45 | surrounding whitespace never changes what a string parses to |
| Parser.ParseOfVoidName | rbc/tests/test_typesystem.py:34-36 | a string that trims to empty, `void` or `none` parses as void |
| Parser.ParseOfName | rbc/tests/test_typesystem.py:37-73 | a string with no void name and no structural last character is one atomic, normalized name, commas included |
| Parser.PointerDispatch | rbc/tests/test_typesystem.py:38-40 | a trimmed text ending in `*` parses as a pointer to what precedes the star, or fails as that does |
| Parser.ParseOfPointer | rbc/tests/test_typesystem.py:38-79 | text whose trimmed form ends in `*` is a pointer to what the text before the star parses to |
| Parser.ParseOfStruct | rbc/tests/test_typesystem.py:41-87 | `{body}` is a struct whose fields are what the comma-split pieces of `body` parse to, in order |
| Parser.ParseOfMismatchedCurly | rbc/tests/test_typesystem.py:59-60 | text ending in `}` but not starting with `{` fails with the mismatching-curly error |
| Parser.ParseOfSignature | rbc/tests/test_typesystem.py:42-48 | `res(args)` is a function of what `res` parses to and what the pieces of `args` parse to; a lone `void` argument means no arguments |
| Parser.ParseOfSignatureWithoutParen | rbc/tests/test_typesystem.py:50-51 | text ending in `)` with no top-level `(` fails with the lparen-not-found error |
| Parser.ParseOfUnbalancedArguments | rbc/tests/test_typesystem.py:53-57 | when the argument text does not close its brackets, parsing fails with the comma-split error |
| Printer.TextShape | rbc/tests/test_typesystem.py:94-112 | the printed text of a well-formed value is trimmed, balanced and has no top-level comma |
| Printer.ParseStructText | rbc/tests/test_typesystem.py:107-109 | `{` + printed fields joined by `", "` + `}` parses back to the struct |
| Printer.ParseSignatureText | rbc/tests/test_typesystem.py:100-106 | printed result + `(` + printed parameters + `)` parses back to the function |
| Printer.SignatureParts | rbc/tests/test_typesystem.py:100-112 | in a printed signature the found paren follows the result text and the argument text splits into the printed parameters |
| Printer.RoundTrip | rbc/tests/test_typesystem.py:94-112 | parsing the printed text of any well-formed value gives that value back |
| Printer.RoundTripFunction | rbc/tests/test_typesystem.py:100 | a printed function parses back to itself, including a function of no arguments printed as `(void)` |
| Printer.RoundTripEach | rbc/tests/test_typesystem.py:101-112 | each printed parameter or field parses back to itself |
| Printer.ParseNoArgumentText | rbc/tests/test_typesystem.py:100-104 | `res(void)` parses as a function of no arguments |
| CTypesBridge.ScalarNameInverse | rbc/tests/test_typesystem.py:195-201 | the name `fromctypes` gives a scalar descriptor lays out as that descriptor again |
| CTypesBridge.ScalarCTypeInverse | rbc/tests/test_typesystem.py:165-177 | every scalar name other than `char8` is the name of its own descriptor |
| CTypesBridge.FieldName | rbc/tests/test_typesystem.py:183 | field `i` is named `f` followed by the decimal digits of `i`, with no leading zero after the `f` unless `i` is 0 |
| CTypesBridge.Fields | rbc/tests/test_typesystem.py:181-183 | one field per member, field `i` carrying the `i`-th member's descriptor; no two fields share a name |
| CTypesBridge.ToCTypes | rbc/tests/test_typesystem.py:159-183 | a layout exists iff the value is convertible (known scalar names, no void field or parameter); otherwise an unsupported-conversion error |
| CTypesBridge.ToCEach | rbc/tests/test_typesystem.py:179-183 | members lay out iff none is void and all convert, and then each descriptor is that member's layout, in order |
| CTypesBridge.FromCTypes | rbc/tests/test_typesystem.py:186-211 | a descriptor reads as void iff it is `None`, a scalar descriptor reads as exactly its scalar name, and only a scalar descriptor reads as a name |
| CTypesBridge.LayoutRoundTrip | rbc/tests/test_typesystem.py:186-211 | every convertible value without `char8` reads back from its layout unchanged |
| CTypesBridge.LayoutRoundTripEach | rbc/tests/test_typesystem.py:179-183 | each struct member or parameter reads back from its layout unchanged |
| CTypesBridge.CTypeRoundTrip | rbc/tests/test_typesystem.py:186-211 | every well-formed descriptor is laid out again from what it reads as |
| CTypesBridge.LayoutIsValid | rbc/tests/test_typesystem.py:186-211 | every convertible value without `char8` lays out as a descriptor in canonical form, the domain of `CTypeRoundTrip` |
| CTypesBridge.CFieldsRoundTrip | rbc/tests/test_typesystem.py:205-208 | each well-formed field descriptor is laid out again from what it reads as |
| CTypesBridge.CTypeRoundTripEach | rbc/tests/test_typesystem.py:210-211 | each well-formed parameter descriptor is laid out again from what it reads as |
| BracketExamples.FindParenOfSimpleCall | rbc/tests/test_typesystem.py:12 | `_findparen('a(b)')` is 1 |
| BracketExamples.FindParenBeforeInnerCalls | rbc/tests/test_typesystem.py:13-14 | `_findparen` of `'a(b, c())'` and `'a(b, c(d))'` is 1 |
| BracketExamples.FindParenOfNestedCalls | rbc/tests/test_typesystem.py:15 | `_findparen('a(b(a), c(f(), d))')` is 1 |
| BracketExamples.FindParenAfterEmptyGroup | rbc/tests/test_typesystem.py:16 | `_findparen('a()(b)')` is 3 |
| BracketExamples.FindParenAfterBracedResult | rbc/tests/test_typesystem.py:17 | `_findparen('{a(),c()}(b)')` is 9: parens inside braces are skipped |
| BracketExamples.FindParenOfCallShape | rbc/tests/test_typesystem.py:12-14 | for bracket-free names the paren after the callee is found, with or without one inner call |
| BracketExamples.FindParenAfterGroupShape | rbc/tests/test_typesystem.py:16-17 | after a closed group, or a braced group of calls, the final group's paren is found |
| BracketExamples.CommaSplitOfNames | rbc/tests/test_typesystem.py:22-24 | `'a'`, `'a, b'` and `'a, b  , c'` split into their trimmed names |
| BracketExamples.CommaSplitKeepsGroup | rbc/tests/test_typesystem.py:25 | a parenthesized group stays one piece |
| BracketExamples.CommaSplitKeepsNestedGroups | rbc/tests/test_typesystem.py:26-27 | nested paren and brace groups stay one piece, verbatim |
| BracketExamples.CommaSplitOfOneGroup | rbc/tests/test_typesystem.py:28-29 | `'(a, b)'` and `'{a, b}'` are one piece each |
| BracketExamples.CommaSplitOfTwoGroups | rbc/tests/test_typesystem.py:30 | `'(a, b) , {d, e}'` splits into its two groups |
| BracketExamples.TwoPieces | rbc/tests/test_typesystem.py:23 | two clean pieces around a comma split into those pieces, whatever whitespace pads them |
| BracketExamples.ThreePieces | rbc/tests/test_typesystem.py:24 | three clean pieces split into those pieces |
| ParseExamples.WordReads | rbc/tests/test_typesystem.py:34-40 | a bracket-free word (a name followed by stars) parses to the value it describes |
| ParseExamples.StructOfPieces | rbc/tests/test_typesystem.py:41-86 | braces around padded pieces parse to the struct of what the pieces parse to |
| ParseExamples.CallOfPieces | rbc/tests/test_typesystem.py:42-48 | a word followed by a parenthesized list of padded pieces parses to a function of their values |
| ParseExamples.CallOfNothing | rbc/tests/test_typesystem.py:84-85 | a word followed by parens holding only whitespace parses to a function of no arguments |
| ParseExamples.UnclosedShape | rbc/tests/test_typesystem.py:53-57 | `r((y)` fails with the comma-split error on `(y` |
| ParseExamples.FromVoidNames | rbc/tests/test_typesystem.py:34-36 | `'void'`, `''` and `'none'` read as void |
| ParseExamples.FromShortName | rbc/tests/test_typesystem.py:37 | `'i'` reads as `int32` |
| ParseExamples.FromPointerToName | rbc/tests/test_typesystem.py:38 | `'i*'` reads as a pointer to `int32` |
| ParseExamples.FromPointersToVoid | rbc/tests/test_typesystem.py:39-40 | `'*'` and `'void*'` read as a pointer to void |
| ParseExamples.FromStruct | rbc/tests/test_typesystem.py:41 | `'{i,j}'` reads as the struct of `int32` and `j` |
| ParseExamples.FromFunctionOfOne | rbc/tests/test_typesystem.py:42 | `'i(j)'` reads as a function of `j` returning `int32` |
| ParseExamples.FromFunctionOfTwo | rbc/tests/test_typesystem.py:43-44 | `'i(j , k)'` reads as a function of `j`, `k` returning `int32` |
| ParseExamples.FromEmptyResult | rbc/tests/test_typesystem.py:45-46 | `'  (j , k) '` reads as a function returning void |
| ParseExamples.FromVoidResult | rbc/tests/test_typesystem.py:47-48 | `'void(j,k)'` reads as a function returning void |
| ParseExamples.FromUnopenedParen | rbc/tests/test_typesystem.py:50-51 | `'a)'` fails with the lparen-not-found error |
| ParseExamples.FromUnclosedArguments | rbc/tests/test_typesystem.py:53-57 | `'a((b)'` fails with the comma-split error |
| ParseExamples.FromUnopenedCurly | rbc/tests/test_typesystem.py:59-60 | `'ab}'` fails with the mismatching-curly error |
| ParseExamples.ConstructedShapes | rbc/tests/test_typesystem.py:64-69 | `Type()` is void; `Type('i')` and `Type('ij')` are atomic |
| ParseExamples.AtomicTexts | rbc/tests/test_typesystem.py:70-73 | `'ij'` and `'i,j'` read as atomic names; the comma does not split |
| ParseExamples.PointerTexts | rbc/tests/test_typesystem.py:74-79 | `'i  *'`, `'*'` and `'i* * '` read as pointers |
| ParseExamples.FunctionTexts | rbc/tests/test_typesystem.py:82-85 | `'(j)'` and `'()'` read as functions returning void; `'()'` has no parameters |
| ParseExamples.StructText | rbc/tests/test_typesystem.py:86-87 | `'{i, j}'` reads as a struct |
| PrintExamples.PrintsName | rbc/tests/test_typesystem.py:99 | `'a'` prints as `a` |
| PrintExamples.PrintsFunctionOfNothing | rbc/tests/test_typesystem.py:100 | `'()'` prints as `void(void)` |
| PrintExamples.PrintsFunctionOfThree | rbc/tests/test_typesystem.py:101 | `'(a,b,c)'` prints as `void(a, bool, complex64)` |
| PrintExamples.PrintsBlankParameters | rbc/tests/test_typesystem.py:102 | `'f  (   )'` prints as `float32(void)` |
| PrintExamples.PrintsBracketedResult | rbc/tests/test_typesystem.py:103 | `'f[a,c]  (   )'` prints as `f[a,c](void)` |
| PrintExamples.PrintsCommaJoinedResult | rbc/tests/test_typesystem.py:104 | `' f,g ()'` prints as `f,g(void)` |
| PrintExamples.PrintsPointerToName | rbc/tests/test_typesystem.py:105 | `'a * '` prints as `a*` |
| PrintExamples.PrintsPointerFunction | rbc/tests/test_typesystem.py:106 | `' a  * ( b * , c * )  '` prints as `a*(bool*, complex64*)` |
| PrintExamples.PrintsStructOfOne | rbc/tests/test_typesystem.py:107 | `'{a}'` prints as `{a}` |
| PrintExamples.PrintsStructOfTwo | rbc/tests/test_typesystem.py:108 | `'{a  ,b}'` prints as `{a, bool}` |
| PrintExamples.PrintsNestedStruct | rbc/tests/test_typesystem.py:109 | `'{{a,c} ,b}'` prints as `{{a, complex64}, bool}` |
| PrintExamples.PrintsPointersToVoid | rbc/tests/test_typesystem.py:110-111 | `'*'` and `'void *'` print as `void*` |
| PrintExamples.PrintsStructArgument | rbc/tests/test_typesystem.py:112 | `'*(*,{*,*})'` prints as `void*(void*, {void*, void*})` |
| PrintExamples.NormalizesIntegerNames | rbc/tests/test_typesystem.py:120-126 | `a`, `int32`, `int`, `i`, `i35`, `byte`, `ubyte` print as `a`, `int32`, `int32`, `int32`, `int35`, `int8`, `uint8` |
| PrintExamples.NormalizesUnsignedNames | rbc/tests/test_typesystem.py:128-132 | `uint32`, `uint`, `u`, `u35`, `unsigned int` print as `uint32`, `uint32`, `uint32`, `uint35`, `uint32` |
| PrintExamples.NormalizesFloatNames | rbc/tests/test_typesystem.py:134-140 | `float32`, `f32`, `f`, `float` print as `float32`; `float64`, `double`, `d` print as `float64` |
| PrintExamples.NormalizesComplexNames | rbc/tests/test_typesystem.py:142-145 | `complex32`, `c32` print as `complex32`; `c`, `complex` print as `complex64` |
| PrintExamples.NormalizesOtherNames | rbc/tests/test_typesystem.py:147-152 | `''` prints as `void`; `bool`, `b` as `bool`; `str`, `string` as `string` |
| PrintExamples.NormalizesFunction | rbc/tests/test_typesystem.py:154 | `'i(i*, i15)'` prints as `int32(int32*, int15)`: parameters are normalized too |
| PrintExamples.NormalizesStructFields | rbc/tests/test_typesystem.py:155-156 | `'{i,d,c, bool,f,str*}'` prints as `{int32, float64, complex64, bool, float32, string*}` |
| CTypesExamples.ScalarLayouts | rbc/tests/test_typesystem.py:165-170 | `bool`, `i8`, `i32`, `u32`, `double`, `float` lay out as `c_bool`, `c_int8`, `c_int32`, `c_uint32`, `c_double`, `c_float` |
| CTypesExamples.CharLayouts | rbc/tests/test_typesystem.py:171-175 | `char` and `char8` lay out as `c_char`, `char*` as `c_char_p`, `wchar` as `c_wchar`, `wchar*` as `c_wchar_p` |
| CTypesExamples.VoidLayouts | rbc/tests/test_typesystem.py:176-178 | `*` and `void*` lay out as `c_void_p`; `void` as `None` |
| CTypesExamples.FunctionLayout | rbc/tests/test_typesystem.py:179-180 | `i(i, double)` lays out as `CFUNCTYPE(c_int32, c_int32, c_double)` |
| CTypesExamples.StructLayout | rbc/tests/test_typesystem.py:181-183 | `{i, double}` lays out as a structure with fields `f0: c_int32`, `f1: c_double` |
| CTypesExamples.PointersReadBack | rbc/tests/test_typesystem.py:195-209 | `c_char_p`, `c_wchar_p` and the typed pointer to `c_float` read as `char*`, `wchar*` and `float*` |
| CTypesExamples.ScalarsReadBack | rbc/tests/test_typesystem.py:197-201 | `c_int8`, `c_uint8`, `c_uint64`, `c_float`, `c_double` read as `i8`, `u8`, `u64`, `f32`, `double` |
| CTypesExamples.VoidsReadBack | rbc/tests/test_typesystem.py:202-203 | `c_void_p` reads as `*` and `None` as `void` |
| CTypesExamples.StructReadsBack | rbc/tests/test_typesystem.py:205-208 | the structure with fields `f0: c_int32`, `f1: c_double` reads as `{i32, double}` |
| CTypesExamples.FunctionReadsBack | rbc/tests/test_typesystem.py:210-211 | `CFUNCTYPE(c_float, c_int)` reads as `f(i)` |
| OverloadBinding.ReverseReverse | rbc/tests/heavydb/test_heavydb.py:278 | reversing twice gives the list back |
| OverloadBinding.ReverseSameElements | rbc/tests/heavydb/test_heavydb.py:284 | a reversed list has the same elements |
| OverloadBinding.ScanOrderSameElements | rbc/tests/heavydb/test_heavydb.py:278-292 | either scan order meets the same overloads, so neither finds a match the other misses |
| OverloadBinding.FirstIndex | rbc/tests/heavydb/test_heavydb.py:279-282 | the found index satisfies the test and none before it does; none found means none satisfies it |
| OverloadBinding.FirstOrNoBinding | rbc/tests/heavydb/test_heavydb.py:279-287 | `'NO BINDING FOUND'` iff nothing satisfies the test; otherwise the first element that does |
| OverloadBinding.NotACode | rbc/tests/heavydb/test_heavydb.py:287 | the no-binding marker is not a type code, so it never names an overload |
| OverloadBinding.Bind59 | rbc/tests/heavydb/test_heavydb.py:277-287 | the 5.9 rule returns an overload or the marker; a same-kind result fits the argument's width; a cross-kind result is a float taken by an integer argument that fits nothing; no binding iff nothing fits and no float fallback applies |
| OverloadBinding.Bind58 | rbc/tests/heavydb/test_heavydb.py:291-301 | the 5.8 rule returns an overload or the marker; a cross-kind result is a float at least as wide as the integer argument; no binding iff nothing fits and no wide-enough float exists |
| OverloadBinding.BindOld | rbc/tests/heavydb/test_heavydb.py:308-315 | the 5.7 rule returns an overload or the marker; the result fits the argument or is `f64` for a non-float argument; no binding iff no overload is accepted |
| OverloadBinding.FirstIndexIs | rbc/tests/heavydb/test_heavydb.py:279-282 | the first element satisfying the test is the one the scan returns |
| OverloadBinding.ColumnBindsFirstFit | rbc/tests/heavydb/test_heavydb.py:278-296 | a column argument binds to the first fitting overload of the list |
| OverloadBinding.LiteralBindsLastFit | rbc/tests/heavydb/test_heavydb.py:278-296 | a literal argument binds to the last fitting overload of the list |
| OverloadBinding.IntFallback59 | rbc/tests/heavydb/test_heavydb.py:283-286 | 5.9: an integer argument fitting nothing binds to the last float overload, literal or not, whatever its width |
| OverloadBinding.ColumnIntFallback58 | rbc/tests/heavydb/test_heavydb.py:297-300 | 5.8: a column integer argument fitting nothing binds to the first float overload at least as wide |
| OverloadBinding.LiteralIntFallback58 | rbc/tests/heavydb/test_heavydb.py:297-300 | 5.8: a literal integer argument fitting nothing binds to the last float overload at least as wide |
| OverloadBinding.OldBindsFirstTaken | rbc/tests/heavydb/test_heavydb.py:308-315 | 5.7: the first accepted overload in list order wins, literal or not |
| OverloadBinding.RulesAgreeOnFit | rbc/tests/heavydb/test_heavydb.py:277-301 | when some overload fits, the 5.9 and 5.8 rules bind the same overload |
| OverloadBinding.FloatNeverBindsInt | rbc/tests/heavydb/test_heavydb.py:283-313 | a float argument never binds to an integer overload under any rule |
| OverloadBinding.SingleOverload59 | rbc/tests/heavydb/test_heavydb.py:365-375 | 5.9, one overload: binding succeeds iff the overload fits or it is a float and the argument an integer |
| OverloadBinding.SingleOverload58 | rbc/tests/heavydb/test_heavydb.py:377-387 | 5.8, one overload: binding succeeds iff the overload fits or it is a float at least as wide as the integer argument |
| OverloadBinding.BigintToFloat | rbc/tests/heavydb/test_heavydb.py:373-385 | a bigint argument binds to a lone `f32` overload under 5.9 but not under 5.8 |

## Left out

- `rbc/typesystem.py` is not part of this model. The engine is modelled from the behaviour its tests assert. The bracket scanners work as those tests require: `_findparen` picks the last `(` at paren and brace depth zero, and `_commasplit` fails iff the text's final paren or brace count is not zero.
- The `ValueError` message wording is not modelled. An error is a constructor carrying the offending text, and the tests match only a fixed prefix of the message.
- The numba bridge, `tonumba`/`fromnumba` (rbc/tests/test_typesystem.py:214-264), is left out: it lives in an optional external library.
- `fromcallable` and `fromobject` (rbc/tests/test_typesystem.py:267-303) are left out: they inspect Python callables, annotations and classes at run time.
- ctypes descriptors are an enumerated datatype, not ctypes classes. `issubclass(s, ctypes.Structure)` is modelled as the structure constructor. `ctypes.c_int` is identified with `c_int32`, which it is on the platforms the tests run on.
- `char8` lays out as `c_char` but reads back as `char`, so `CTypesBridge.LayoutRoundTrip` excludes `char8`. Both directions for the tested names are stated by `CTypesExamples.CharLayouts`.
- Normalization is case-sensitive, with exactly the aliases the tests name. Spellings that the tests do not cover are kept unchanged.
- `OverloadBinding.Bind59`, `OverloadBinding.Bind58` and `OverloadBinding.BindOld` require every overload and the argument type to be a kind letter followed by decimal digits. That is the form of every `argument_types` and `literals_types` entry. Python's `int()` would also accept signs, underscores and surrounding whitespace, and raises on anything else; the model does not cover those spellings.
- Only the `get_result` predictors of `test_binding` are modelled: UDF registration, the SQL queries and the combinations over `argument_types` (rbc/tests/heavydb/test_heavydb.py:317-354) need a live server.
- The 5.7 table in the `test_casting` docstring (rbc/tests/heavydb/test_heavydb.py:389-399) marks `f64` as FAIL for integer arguments. The 5.7 `get_result` binds an integer argument to `f64` (line 313). The model follows `get_result`, so `OverloadBinding.BindOld` does not claim that table.
- `Printer.RoundTrip` is stated only for well-formed values. It leaves out some values that do print and parse back: a name holding a comma, such as `f,g` or `f[a,c]` (the tests print functions with such result names; `PrintExamples` states those printed texts, not their read-back), and a name with a `*` before its end, such as `a*b`. It also leaves out the empty struct (`{}` reads as a struct of one void field) and an argument list that is exactly `void` (it reads as no arguments).
- Python's `str.strip()` also strips non-ASCII Unicode whitespace. `Text.IsSpace` covers the six ASCII whitespace characters only.
