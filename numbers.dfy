/**
  Numbers as the browser reads them from text inputs. JavaScript's
  `parseFloat` yields NaN for text without a leading number; `parseFloat(x) || 0`
  turns NaN (and 0) into 0. Values are exact reals rather than IEEE doubles.
 */
module Numbers {
  import opened Text

  /** The result of `parseFloat`: a number, or NaN. */
  datatype Num = NaN | Finite(value: real)

  /** JavaScript truthiness of a number: NaN and 0 are falsy. */
  predicate Truthy(n: Num) {
    n.Finite? && n.value != 0.0
  }

  /** `n || 0` */
  function OrZero(n: Num): real {
    if Truthy(n) then n.value else 0.0
  }

  /** The length of the longest prefix of `s` made of decimal digits. */
  function LeadingDigits(s: string): (k: nat)
    ensures k <= |s| && AllDigits(s[..k])
    ensures k < |s| ==> !IsDigit(s[k])
  {
    if s != [] && IsDigit(s[0]) then
      var k := 1 + LeadingDigits(s[1..]);
      assert s[..k] == [s[0]] + s[1..][..k - 1];
      k
    else 0
  }

  function Pow10(k: nat): (r: nat)
    ensures r >= 1
  {
    if k == 0 then 1 else 10 * Pow10(k - 1)
  }

  predicate IsSpace(c: char) {
    c == ' ' || c == '\t' || c == '\n' || c == '\r'
  }

  function TrimStart(s: string): string {
    if s != [] && IsSpace(s[0]) then TrimStart(s[1..]) else s
  }

  /** The value of the decimal literal `whole.frac`. */
  function DecimalValue(whole: string, frac: string): real
    requires AllDigits(whole) && AllDigits(frac)
  {
    DigitsValue(whole) as real + DigitsValue(frac) as real / Pow10(|frac|) as real
  }

  /**
    JavaScript `parseFloat`: skip leading white space, read an optional sign,
    then the longest prefix of the form `digits[.digits]` or `.digits`, and
    ignore whatever follows; NaN when that prefix holds no digit.
   */
  function ParseFloat(s: string): Num {
    var t := TrimStart(s);
    var negative := t != [] && t[0] == '-';
    var u := if t != [] && (t[0] == '-' || t[0] == '+') then t[1..] else t;
    var k := LeadingDigits(u);
    var rest := u[k..];
    var frac := if rest != [] && rest[0] == '.' then rest[1..][..LeadingDigits(rest[1..])] else [];
    if k == 0 && frac == [] then NaN
    else
      var m := DecimalValue(u[..k], frac);
      Finite(if negative then -m else m)
  }

  /** Input coercion of the quote calculator: `parseFloat(text) || 0`. */
  function Coerce(text: string): real {
    OrZero(ParseFloat(text))
  }

  lemma {:induction false} LeadingDigitsOfDigits(s: string)
    requires AllDigits(s)
    ensures LeadingDigits(s) == |s|
  {
    if s != [] {
      LeadingDigitsOfDigits(s[1..]);
    }
  }

  /** Reading back the decimal rendering of a whole number yields that number. */
  lemma ParseFloatOfNatToString(n: nat)
    ensures ParseFloat(NatToString(n)) == Finite(n as real)
  {
    var t := NatToString(n);
    assert TrimStart(t) == t;
    LeadingDigitsOfDigits(t);
    assert t[..|t|] == t;
  }

  /** The number with its sign flipped; NaN stays NaN. */
  function Negated(n: Num): Num {
    match n
    case NaN => NaN
    case Finite(v) => Finite(-v)
  }

  /**
    A leading minus sign negates the value read: for any text that does not
    itself start with white space or a sign, `parseFloat("-" + t)` is
    `-parseFloat(t)`, and NaN when `t` has no leading number.
   */
  lemma ParseFloatOfNegative(t: string)
    requires t == [] || (!IsSpace(t[0]) && t[0] != '-' && t[0] != '+')
    ensures ParseFloat("-" + t) == Negated(ParseFloat(t))
  {
    var m := "-" + t;
    assert TrimStart(m) == m;
    assert m[0] == '-' && m[1..] == t;
    assert TrimStart(t) == t;
  }

  /** Text with no leading number is read as NaN, which coercion turns into 0. */
  lemma CoerceNonNumeric(text: string)
    requires text == [] || (!IsDigit(text[0]) && !IsSpace(text[0]) && text[0] != '-' && text[0] != '+' && text[0] != '.')
    ensures ParseFloat(text) == NaN && Coerce(text) == 0.0
  {
  }
}
