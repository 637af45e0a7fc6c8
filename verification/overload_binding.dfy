/** The overload-binding rules of the heavydb binding test: given the scalar
    overloads of a UDF, spelled as kind letter plus bit width (`i8`, `i64`,
    `f32`, `f64`), and the type of an argument, which overload the database
    binds the argument to. There is one rule per server release: 5.9 and
    later, 5.8, and 5.7 and older. */
module OverloadBinding {
  import opened Results
  import opened Text

  /** The outcome when no overload accepts the argument. */
  const NoBinding: string := "NO BINDING FOUND"

  /** A type code: a kind letter followed by the decimal digits of a width. */
  predicate IsCode(s: string) {
    |s| >= 2 && AllDigits(s[1..])
  }

  predicate AllCodes(os: seq<string>) {
    forall k :: 0 <= k < |os| ==> IsCode(os[k])
  }

  /** `int(s[1:])`: the width a code spells. */
  function Width(s: string): nat
    requires IsCode(s)
  {
    DigitsValue(s[1..])
  }

  predicate HasKind(s: string, kind: char) {
    |s| > 0 && s[0] == kind
  }

  /** A same-kind overload at least as wide as the argument. */
  predicate Fits(input: string, o: string) {
    IsCode(input) && IsCode(o) && o[0] == input[0] && Width(input) <= Width(o)
  }

  /** A floating-point overload at least `w` bits wide. */
  predicate FloatAtLeast(o: string, w: nat) {
    IsCode(o) && o[0] == 'f' && w <= Width(o)
  }

  /** `xs[::-1]`. */
  function Reverse(xs: seq<string>): (r: seq<string>)
    ensures |r| == |xs| && forall i :: 0 <= i < |xs| ==> r[i] == xs[|xs| - 1 - i]
  {
    seq(|xs|, i requires 0 <= i < |xs| => xs[|xs| - 1 - i])
  }

  lemma {:induction false} ReverseReverse(xs: seq<string>)
    ensures Reverse(Reverse(xs)) == xs
  {
    var r := Reverse(Reverse(xs));
    forall i | 0 <= i < |xs| ensures r[i] == xs[i] {
      assert r[i] == Reverse(xs)[|xs| - 1 - i];
    }
  }

  lemma {:induction false} ReverseSameElements(xs: seq<string>)
    ensures forall x :: x in Reverse(xs) <==> x in xs
  {
    var r := Reverse(xs);
    forall x | x in xs ensures x in r {
      var i :| 0 <= i < |xs| && xs[i] == x;
      assert r[|xs| - 1 - i] == x;
    }
  }

  /** The scan order of the 5.8 and later rules: a literal argument meets the
      overloads last to first, a column argument first to last. */
  function ScanOrder(os: seq<string>, isLiteral: bool): seq<string> {
    if isLiteral then Reverse(os) else os
  }

  /** The index of the first element that satisfies `p`: a `for` loop with an
      early `return`. */
  function FirstIndex(xs: seq<string>, p: string -> bool): (r: Option<nat>)
    ensures r.Some? ==> r.value < |xs| && p(xs[r.value]) && forall k :: 0 <= k < r.value ==> !p(xs[k])
    ensures r.None? ==> forall k :: 0 <= k < |xs| ==> !p(xs[k])
  {
    if xs == [] then None
    else if p(xs[0]) then Some(0)
    else
      match FirstIndex(xs[1..], p)
      case None => None
      case Some(j) => Some(j + 1)
  }

  /** The element `FirstIndex` finds, or `NoBinding`. */
  function FirstOrNoBinding(xs: seq<string>, p: string -> bool): (r: string)
    requires forall k :: 0 <= k < |xs| ==> xs[k] != NoBinding
    ensures r == NoBinding <==> forall k :: 0 <= k < |xs| ==> !p(xs[k])
    ensures r != NoBinding ==> exists j :: 0 <= j < |xs| && xs[j] == r && p(r) && forall k :: 0 <= k < j ==> !p(xs[k])
  {
    match FirstIndex(xs, p)
    case Some(j) => xs[j]
    case None => NoBinding
  }

  /** Nothing in `xs` satisfies `p`. */
  predicate NoneSatisfy(xs: seq<string>, p: string -> bool) {
    forall k :: 0 <= k < |xs| ==> !p(xs[k])
  }

  /** Either scan order meets the same overloads. */
  lemma {:induction false} ScanOrderSameElements(os: seq<string>, isLiteral: bool, p: string -> bool)
    ensures |ScanOrder(os, isLiteral)| == |os|
    ensures forall x :: x in ScanOrder(os, isLiteral) <==> x in os
    ensures NoneSatisfy(ScanOrder(os, isLiteral), p) <==> NoneSatisfy(os, p)
  {
    ReverseSameElements(os);
    var r := Reverse(os);
    if isLiteral {
      if NoneSatisfy(os, p) {
        forall k | 0 <= k < |r| ensures !p(r[k]) {
          assert r[k] == os[|os| - 1 - k];
        }
      }
      if NoneSatisfy(r, p) {
        forall k | 0 <= k < |os| ensures !p(os[k]) {
          assert r[|os| - 1 - k] == os[k];
        }
      }
    }
  }

  /** The rule for release 5.9 and later: the first fitting overload in scan
      order; failing that, an integer argument takes the last floating-point
      overload of the list, whatever its width. */
  function Bind59(os: seq<string>, input: string, isLiteral: bool): (r: string)
    requires IsCode(input) && AllCodes(os)
    ensures r == NoBinding || r in os
    ensures r != NoBinding && r[0] == input[0] ==> Fits(input, r)
    ensures r != NoBinding && r[0] != input[0] ==>
      input[0] == 'i' && r[0] == 'f' && forall k :: 0 <= k < |os| ==> !Fits(input, os[k])
    ensures r == NoBinding <==>
      (forall k :: 0 <= k < |os| ==> !Fits(input, os[k])) &&
      (input[0] != 'i' || forall k :: 0 <= k < |os| ==> !HasKind(os[k], 'f'))
  {
    var scan := ScanOrder(os, isLiteral);
    NotACode();
    ScanOrderSameElements(os, isLiteral, o => Fits(input, o));
    ScanOrderSameElements(os, true, o => HasKind(o, 'f'));
    var fit := FirstOrNoBinding(scan, o => Fits(input, o));
    if fit != NoBinding then fit
    else if input[0] == 'i' then
      FirstOrNoBinding(Reverse(os), o => HasKind(o, 'f'))
    else NoBinding
  }

  /** The rule for release 5.8: as for 5.9, but an integer argument falls back
      only to a floating-point overload at least as wide, met in scan order. */
  function Bind58(os: seq<string>, input: string, isLiteral: bool): (r: string)
    requires IsCode(input) && AllCodes(os)
    ensures r == NoBinding || r in os
    ensures r != NoBinding && r[0] == input[0] ==> Fits(input, r)
    ensures r != NoBinding && r[0] != input[0] ==>
      input[0] == 'i' && FloatAtLeast(r, Width(input)) && forall k :: 0 <= k < |os| ==> !Fits(input, os[k])
    ensures r == NoBinding <==>
      (forall k :: 0 <= k < |os| ==> !Fits(input, os[k])) &&
      (input[0] != 'i' || forall k :: 0 <= k < |os| ==> !FloatAtLeast(os[k], Width(input)))
  {
    var scan := ScanOrder(os, isLiteral);
    NotACode();
    ScanOrderSameElements(os, isLiteral, o => Fits(input, o));
    ScanOrderSameElements(os, isLiteral, o => FloatAtLeast(o, Width(input)));
    var fit := FirstOrNoBinding(scan, o => Fits(input, o));
    if fit != NoBinding then fit
    else if input[0] == 'i' then
      FirstOrNoBinding(scan, o => FloatAtLeast(o, Width(input)))
    else NoBinding
  }

  /** What the rule for 5.7 and older accepts: a same-kind overload at least
      as wide, or `f64` when the kinds differ. */
  predicate TakesOld(input: string, o: string)
    requires IsCode(input) && IsCode(o)
  {
    if o[0] == input[0] then Width(input) <= Width(o) else o == "f64"
  }

  /** The rule for release 5.7 and older: literal or not, the overloads are
      met in list order and the first one `TakesOld` accepts wins. */
  function BindOld(os: seq<string>, input: string): (r: string)
    requires IsCode(input) && AllCodes(os)
    ensures r == NoBinding || r in os
    ensures r != NoBinding ==> Fits(input, r) || (input[0] != 'f' && r == "f64")
    ensures r == NoBinding <==> forall k :: 0 <= k < |os| ==> !TakesOld(input, os[k])
  {
    NotACode();
    FirstOrNoBinding(os, o => IsCode(o) && TakesOld(input, o))
  }

  /** The no-binding marker is not a type code, so it never names an overload. */
  lemma NotACode()
    ensures !IsCode(NoBinding)
  {
    assert !IsDigit(NoBinding[1..][0]);
  }

  // ---- scan order and fallbacks --------------------------------------------

  /** `FirstIndex` finds `j` when `j` satisfies `p` and nothing before it does. */
  lemma {:induction false} FirstIndexIs(xs: seq<string>, p: string -> bool, j: nat)
    requires j < |xs| && p(xs[j]) && forall k :: 0 <= k < j ==> !p(xs[k])
    ensures FirstIndex(xs, p) == Some(j)
  {
  }

  /** A column argument binds to the first fitting overload of the list, under
      both the 5.9 and the 5.8 rule. */
  lemma {:induction false} ColumnBindsFirstFit(os: seq<string>, input: string, j: nat)
    requires IsCode(input) && AllCodes(os)
    requires j < |os| && Fits(input, os[j]) && forall k :: 0 <= k < j ==> !Fits(input, os[k])
    ensures Bind59(os, input, false) == os[j]
    ensures Bind58(os, input, false) == os[j]
  {
    NotACode();
    FirstIndexIs(os, o => Fits(input, o), j);
  }

  /** A literal argument binds to the last fitting overload of the list, under
      both the 5.9 and the 5.8 rule. */
  lemma {:induction false} LiteralBindsLastFit(os: seq<string>, input: string, j: nat)
    requires IsCode(input) && AllCodes(os)
    requires j < |os| && Fits(input, os[j]) && forall k :: j < k < |os| ==> !Fits(input, os[k])
    ensures Bind59(os, input, true) == os[j]
    ensures Bind58(os, input, true) == os[j]
  {
    NotACode();
    var r := Reverse(os);
    var i := |os| - 1 - j;
    forall k | 0 <= k < i ensures !Fits(input, r[k]) {
      assert r[k] == os[|os| - 1 - k];
    }
    FirstIndexIs(r, o => Fits(input, o), i);
  }

  /** 5.9: an integer argument that fits no overload binds to the last
      floating-point overload, literal or not. */
  lemma {:induction false} IntFallback59(os: seq<string>, input: string, isLiteral: bool, j: nat)
    requires IsCode(input) && AllCodes(os) && input[0] == 'i'
    requires forall k :: 0 <= k < |os| ==> !Fits(input, os[k])
    requires j < |os| && HasKind(os[j], 'f') && forall k :: j < k < |os| ==> !HasKind(os[k], 'f')
    ensures Bind59(os, input, isLiteral) == os[j]
  {
    NotACode();
    ScanOrderSameElements(os, isLiteral, o => Fits(input, o));
    var r := Reverse(os);
    var i := |os| - 1 - j;
    forall k | 0 <= k < i ensures !HasKind(r[k], 'f') {
      assert r[k] == os[|os| - 1 - k];
    }
    FirstIndexIs(r, o => HasKind(o, 'f'), i);
  }

  /** 5.8: a column integer argument that fits no overload binds to the first
      floating-point overload at least as wide. */
  lemma {:induction false} ColumnIntFallback58(os: seq<string>, input: string, j: nat)
    requires IsCode(input) && AllCodes(os) && input[0] == 'i'
    requires forall k :: 0 <= k < |os| ==> !Fits(input, os[k])
    requires j < |os| && FloatAtLeast(os[j], Width(input))
    requires forall k :: 0 <= k < j ==> !FloatAtLeast(os[k], Width(input))
    ensures Bind58(os, input, false) == os[j]
  {
    NotACode();
    FirstIndexIs(os, o => FloatAtLeast(o, Width(input)), j);
  }

  /** 5.8: a literal integer argument that fits no overload binds to the last
      floating-point overload at least as wide. */
  lemma {:induction false} LiteralIntFallback58(os: seq<string>, input: string, j: nat)
    requires IsCode(input) && AllCodes(os) && input[0] == 'i'
    requires forall k :: 0 <= k < |os| ==> !Fits(input, os[k])
    requires j < |os| && FloatAtLeast(os[j], Width(input))
    requires forall k :: j < k < |os| ==> !FloatAtLeast(os[k], Width(input))
    ensures Bind58(os, input, true) == os[j]
  {
    NotACode();
    ScanOrderSameElements(os, true, o => Fits(input, o));
    var r := Reverse(os);
    var i := |os| - 1 - j;
    forall k | 0 <= k < i ensures !FloatAtLeast(r[k], Width(input)) {
      assert r[k] == os[|os| - 1 - k];
    }
    FirstIndexIs(r, o => FloatAtLeast(o, Width(input)), i);
  }

  /** 5.7 and older: the first overload `TakesOld` accepts, whether or not the
      argument is a literal. */
  lemma {:induction false} OldBindsFirstTaken(os: seq<string>, input: string, j: nat)
    requires IsCode(input) && AllCodes(os)
    requires j < |os| && TakesOld(input, os[j]) && forall k :: 0 <= k < j ==> !TakesOld(input, os[k])
    ensures BindOld(os, input) == os[j]
  {
    NotACode();
    FirstIndexIs(os, o => IsCode(o) && TakesOld(input, o), j);
  }

  /** Where some overload fits, the 5.9 and 5.8 rules agree: they differ only
      in their integer fallback. */
  lemma {:induction false} RulesAgreeOnFit(os: seq<string>, input: string, isLiteral: bool, j: nat)
    requires IsCode(input) && AllCodes(os) && j < |os| && Fits(input, os[j])
    ensures Bind59(os, input, isLiteral) == Bind58(os, input, isLiteral)
  {
    NotACode();
    ScanOrderSameElements(os, isLiteral, o => Fits(input, o));
  }

  /** A floating-point argument never binds to an integer overload, in any release. */
  lemma {:induction false} FloatNeverBindsInt(os: seq<string>, input: string, isLiteral: bool)
    requires IsCode(input) && AllCodes(os) && input[0] == 'f'
    ensures var r := Bind59(os, input, isLiteral); r == NoBinding || r[0] == 'f'
    ensures var r := Bind58(os, input, isLiteral); r == NoBinding || r[0] == 'f'
    ensures var r := BindOld(os, input); r == NoBinding || r[0] == 'f'
  {
  }

  // ---- the single-overload tables of test_casting ---------------------------

  /** 5.9 and later, one overload: an integer argument is accepted by every
      floating-point overload and by every integer overload at least as wide;
      a floating-point argument only by a floating-point overload at least as wide. */
  lemma {:induction false} SingleOverload59(o: string, input: string, isLiteral: bool)
    requires IsCode(input) && IsCode(o)
    ensures Bind59([o], input, isLiteral) != NoBinding <==> Fits(input, o) || (input[0] == 'i' && o[0] == 'f')
  {
  }

  /** 5.8, one overload: as for 5.9, except that an integer argument needs a
      floating-point overload at least as wide. */
  lemma {:induction false} SingleOverload58(o: string, input: string, isLiteral: bool)
    requires IsCode(input) && IsCode(o)
    ensures Bind58([o], input, isLiteral) != NoBinding <==> Fits(input, o) || (input[0] == 'i' && FloatAtLeast(o, Width(input)))
  {
  }

  /** The cell where the 5.9 and 5.8 tables differ: a bigint argument and a
      lone `f32` overload. */
  lemma BigintToFloat()
    ensures Bind59(["f32"], "i64", false) == "f32"
    ensures Bind58(["f32"], "i64", false) == NoBinding
  {
    var os := ["f32"];
    assert IsCode("i64") && Width("i64") == 64 by {
      assert "i64"[1..] == "64" && "64"[..1] == "6" && "6"[..0] == "";
    }
    assert IsCode("f32") && Width("f32") == 32 by {
      assert "f32"[1..] == "32" && "32"[..1] == "3" && "3"[..0] == "";
    }
    IntFallback59(os, "i64", false, 0);
    SingleOverload58("f32", "i64", false);
  }
}
