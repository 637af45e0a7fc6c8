/** The name normalizer: shorthand and alias spellings of scalar type names
    are rewritten to their canonical spelling; every other name is kept. */
module Names {
  import opened Results
  import opened Text

  /** The fixed aliases, looked up case-sensitively, and the canonical name
      each stands for. */
  function Alias(n: string): Option<string> {
    match n
    case "i" | "int" => Some("int32")
    case "byte" => Some("int8")
    case "u" | "uint" | "unsigned int" => Some("uint32")
    case "ubyte" => Some("uint8")
    case "f" | "float" => Some("float32")
    case "d" | "double" => Some("float64")
    case "c" | "complex" => Some("complex64")
    case "b" => Some("bool")
    case "str" => Some("string")
    case _ => None
  }

  /** The one-letter prefixes that take a bit width (`i35`, `u8`, `f64`, `c32`)
      and the canonical prefix each is rewritten to. */
  function WidthPrefix(c: char): Option<string> {
    match c
    case 'i' => Some("int")
    case 'u' => Some("uint")
    case 'f' => Some("float")
    case 'c' => Some("complex")
    case _ => None
  }

  /** `n` is a width-prefix letter followed by one or more decimal digits. */
  predicate IsShortWidthName(n: string) {
    |n| >= 2 && WidthPrefix(n[0]).Some? && AllDigits(n[1..])
  }

  function Normalize(n: string): (r: string)
  {
    if Alias(n).Some? then Alias(n).value
    else if IsShortWidthName(n) then WidthPrefix(n[0]).value + n[1..]
    else n
  }

  /** No alias is a width-prefix letter followed by a digit, and none is a
      canonical width prefix followed by anything more. */
  lemma AliasShape(n: string)
    requires Alias(n).Some?
    ensures |n| < 2 || !IsDigit(n[1])
    ensures |n| > 3 ==> n[..3] != "int"
    ensures |n| > 4 ==> n[..4] != "uint"
    ensures |n| > 5 ==> n[..5] != "float"
    ensures |n| > 7 ==> n[..7] != "complex"
  {
    if |n| > 3 {
      assert n[..3][1] == n[1] && n[..3][2] == n[2];
    }
  }

  /** Every alias target is already canonical: it is neither an alias nor a
      short width name. */
  lemma AliasTargetShape(n: string)
    requires Alias(n).Some?
    ensures var v := Alias(n).value; Alias(v).None? && |v| >= 2 && !IsDigit(v[1])
  {
  }

  /** Widths are carried over verbatim, for any width: `iN` is `intN`, `uN`
      is `uintN`, `fN` is `floatN` and `cN` is `complexN`. */
  lemma {:induction false} NormalizeWidth(digits: string)
    requires |digits| >= 1 && AllDigits(digits)
    ensures Normalize("i" + digits) == "int" + digits
    ensures Normalize("u" + digits) == "uint" + digits
    ensures Normalize("f" + digits) == "float" + digits
    ensures Normalize("c" + digits) == "complex" + digits
  {
    forall p | WidthPrefix(p).Some?
      ensures Alias([p] + digits).None? && IsShortWidthName([p] + digits)
    {
      var n := [p] + digits;
      assert n[1..] == digits && IsDigit(n[1]);
      if Alias(n).Some? { AliasShape(n); }
    }
  }

  /** A name that is not an alias and whose second character is not a digit
      is kept as it is. */
  lemma {:induction false} KeptName(n: string)
    requires Alias(n).None? && |n| >= 2 && !IsDigit(n[1])
    ensures Normalize(n) == n
  {
    assert !AllDigits(n[1..]) by {
      assert n[1..][0] == n[1];
    }
  }

  /** A normalized name is its own normal form. */
  lemma {:induction false} NormalizeIdempotent(n: string)
    ensures Normalize(Normalize(n)) == Normalize(n)
  {
    var r := Normalize(n);
    if Alias(n).Some? {
      AliasTargetShape(n);
    } else if IsShortWidthName(n) {
      var p := WidthPrefix(n[0]).value;
      assert r == p + n[1..] && r[..|p|] == p && |r| > |p|;
      assert |p| >= 3 && !IsDigit(p[1]) && r[1] == p[1];
      if Alias(r).Some? { AliasShape(r); }
    }
  }
}
