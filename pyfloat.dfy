/** Python's `float(s)` on a string: the accepted syntax and the value it
    denotes. Values are exact reals: the rounding to the nearest double, the
    overflow of huge literals to infinity and the underflow of tiny ones to
    zero are not modelled. */
module PyFloat {
  import opened Text
  import opened Wrappers

  /** A parsed float: a finite real, a signed infinity, or NaN. */
  datatype Float = Finite(value: real) | Infinity(negative: bool) | NaN

  /** `digitpart: digit (["_"] digit)*` of Python's float grammar. */
  predicate IsDigitPart(s: string) {
    && s != []
    && IsDigit(s[0])
    && (|s| == 1 || if s[1] == '_' then IsDigitPart(s[2..]) else IsDigitPart(s[1..]))
  }

  /** The number the decimal digits of `s` spell, underscores skipped. */
  function DigitsValue(s: string): nat {
    if s == [] then 0
    else if IsDigit(s[|s| - 1]) then DigitsValue(s[..|s| - 1]) * 10 + DigitValue(s[|s| - 1])
    else DigitsValue(s[..|s| - 1])
  }

  /** How many decimal digits `s` holds. */
  function DigitCount(s: string): nat {
    if s == [] then 0
    else (if IsDigit(s[|s| - 1]) then 1 else 0) + DigitCount(s[..|s| - 1])
  }

  function Pow10(n: nat): (p: nat)
    ensures p >= 1
  {
    if n == 0 then 1 else 10 * Pow10(n - 1)
  }

  /** Index of the first occurrence of `a` or `b`, or `|s|` when neither occurs. */
  function IndexOfEither(s: string, a: char, b: char): (i: nat)
    ensures i <= |s|
    ensures i < |s| ==> s[i] == a || s[i] == b
    ensures forall j :: 0 <= j < i ==> s[j] != a && s[j] != b
  {
    if s == [] then 0
    else if s[0] == a || s[0] == b then 0
    else 1 + IndexOfEither(s[1..], a, b)
  }

  /** `number: [digitpart] "." digitpart | digitpart ["."]` and its value. */
  function ParseNumber(m: string): Option<real> {
    var d := IndexOfEither(m, '.', '.');
    if d == |m| then
      if IsDigitPart(m) then Some(DigitsValue(m) as real) else None
    else
      var whole, fraction := m[..d], m[d + 1..];
      if (whole == [] || IsDigitPart(whole)) && (fraction == [] || IsDigitPart(fraction))
         && !(whole == [] && fraction == [])
      then Some(DigitsValue(whole) as real
                + DigitsValue(fraction) as real / Pow10(DigitCount(fraction)) as real)
      else None
  }

  /** `exponent: ("e" | "E") [sign] digitpart`, given the part after the `e`. */
  function ParseExponent(x: string): Option<int> {
    var negative := x != [] && x[0] == '-';
    var digits := if x != [] && (x[0] == '+' || x[0] == '-') then x[1..] else x;
    if IsDigitPart(digits) then
      Some(if negative then -(DigitsValue(digits) as int) else DigitsValue(digits) as int)
    else None
  }

  /** `floatnumber: number [exponent]` and its value. */
  function ParseMagnitude(s: string): Option<real> {
    var e := IndexOfEither(s, 'e', 'E');
    if e == |s| then ParseNumber(s)
    else
      match (ParseNumber(s[..e]), ParseExponent(s[e + 1..]))
      case (Some(v), Some(x)) =>
        Some(if x >= 0 then v * Pow10(x) as real else v / Pow10(-x) as real)
      case _ => None
  }

  /** `floatvalue: [sign] (floatnumber | "inf" | "infinity" | "nan")`, the
      words compared without regard to ASCII case. */
  function ParseStripped(s: string): Option<Float> {
    var negative := s != [] && s[0] == '-';
    var body := if s != [] && (s[0] == '+' || s[0] == '-') then s[1..] else s;
    var word := Lower(body);
    if word == "inf" || word == "infinity" then Some(Infinity(negative))
    else if word == "nan" then Some(NaN)
    else
      match ParseMagnitude(body)
      case Some(v) => Some(Finite(if negative then -v else v))
      case None => None
  }

  /** Python's `float(s)`: `None` where Python raises `ValueError`. Leading
      and trailing whitespace is ignored. */
  function Parse(s: string): (r: Option<Float>)
    ensures IsBlank(s) ==> r == None
  {
    var t := Strip(s);
    if t == [] then None else ParseStripped(t)
  }

  /** Python's `str(n)` for a natural number. */
  function ShowNat(n: nat): (s: string)
    ensures s != []
    ensures forall i :: 0 <= i < |s| ==> IsDigit(s[i])
  {
    if n < 10 then [('0' as int + n) as char]
    else ShowNat(n / 10) + [('0' as int + n % 10) as char]
  }

  lemma {:induction false} ShowNatValue(n: nat)
    ensures DigitsValue(ShowNat(n)) == n
  {
    var s := ShowNat(n);
    if n >= 10 {
      assert s[..|s| - 1] == ShowNat(n / 10);
      ShowNatValue(n / 10);
    } else {
      assert s[..0] == [];
    }
  }

  lemma {:induction false} AllDigitsIsDigitPart(s: string)
    requires s != [] && forall i :: 0 <= i < |s| ==> IsDigit(s[i])
    ensures IsDigitPart(s)
  {
    if |s| > 1 {
      assert s[1..][0] == s[1];
      AllDigitsIsDigitPart(s[1..]);
    }
  }

  /** Stripping leaves a word without whitespace unchanged. */
  lemma StripToken(s: string)
    requires IsToken(s)
    ensures Strip(s) == s
  {
    var i, j :| 0 <= i <= j <= |s| && Strip(s) == s[i..j] && IsBlank(s[..i]) && IsBlank(s[j..]);
    if i > 0 { assert s[..i][0] == s[0]; }
    if j < |s| { assert s[j..][0] == s[j]; }
  }

  /** On a word, `float` is decided by the grammar alone. */
  lemma ParseToken(s: string)
    requires IsToken(s)
    ensures Parse(s) == ParseStripped(s)
  {
    StripToken(s);
  }

  /** A word that starts with neither sign nor spells a special value is
      read as a magnitude. */
  lemma ParseUnsigned(s: string)
    requires IsToken(s) && s[0] != '+' && s[0] != '-'
    requires Lower(s) != "inf" && Lower(s) != "infinity" && Lower(s) != "nan"
    ensures Parse(s) == match ParseMagnitude(s)
                        case Some(v) => Some(Finite(v))
                        case None => None
  {
    ParseToken(s);
  }

  lemma NumeralMagnitude(s: string)
    requires s != [] && forall i :: 0 <= i < |s| ==> IsDigit(s[i])
    ensures ParseMagnitude(s) == Some(DigitsValue(s) as real)
  {
    assert IndexOfEither(s, 'e', 'E') == |s|;
    assert IndexOfEither(s, '.', '.') == |s|;
    AllDigitsIsDigitPart(s);
  }

  /** A plain decimal numeral is read back as the number it spells: the
      round trip `float(str(n)) == n`. */
  lemma ParseShowNat(n: nat)
    ensures Parse(ShowNat(n)) == Some(Finite(n as real))
  {
    var s := ShowNat(n);
    assert Lower(s)[0] == s[0];
    ParseUnsigned(s);
    NumeralMagnitude(s);
    ShowNatValue(n);
  }

  /** A word with letters other than the special spellings is rejected. */
  lemma ParseRejectsWord()
    ensures Parse("abc") == None
  {
    var s := "abc";
    assert Lower(s)[0] == 'a';
    ParseUnsigned(s);
    assert IndexOfEither(s, 'e', 'E') == 3;
    assert IndexOfEither(s, '.', '.') == 3;
    assert !IsDigitPart(s);
  }
}
