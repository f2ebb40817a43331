/**
 * Integer tokens: Python's `int(token, base)` for bases 10 and 16, the
 * integers of a JSON text (section 6 of RFC 8259), and the numerals an
 * acquisition device writes, as their inverse.
 */
module Numerals {
  import opened Wrappers
  import opened Text

  /** The value of a digit character, as Python reads it; 36 for a character that is no digit in any base. */
  function DigitValue(c: char): nat
  {
    if '0' <= c <= '9' then c as nat - '0' as nat
    else if 'a' <= c <= 'z' then c as nat - 'a' as nat + 10
    else if 'A' <= c <= 'Z' then c as nat - 'A' as nat + 10
    else 36
  }

  predicate AllDigits(ds: string, base: nat)
  {
    forall i :: 0 <= i < |ds| ==> DigitValue(ds[i]) < base
  }

  /** The value of a digit string, most significant digit first. */
  function ValueOf(ds: string, base: nat): nat
  {
    if ds == [] then 0 else ValueOf(ds[..|ds| - 1], base) * base + DigitValue(ds[|ds| - 1])
  }

  /** The upper-case digit character for a digit value below 16. */
  function DigitChar(d: nat): (c: char)
    requires d < 16
    ensures DigitValue(c) == d
    ensures c == '0' <==> d == 0
  {
    if d < 10 then ('0' as nat + d) as char else ('A' as nat + d - 10) as char
  }

  /** The characters `Numeral` writes: decimal digits and upper-case hex letters. */
  predicate IsNumeralChar(c: char)
  {
    '0' <= c <= '9' || 'A' <= c <= 'F'
  }

  /** Digits and hex letters are not whitespace, signs or separators. */
  lemma NumeralCharIsPlain(c: char)
    requires IsNumeralChar(c)
    ensures !IsSpace(c) && !IsJsonSpace(c) && c != ',' && c != '\n' && c != ']' && c != '-' && c != '+'
  {
  }

  /** The quotient and remainder by one of the two bases, kept linear for the solver. */
  function DivMod(n: nat, base: nat): (qr: (nat, nat))
    requires base == 10 || base == 16
    ensures n == qr.0 * base + qr.1 && qr.1 < base
    ensures n >= base ==> 0 < qr.0 < n
  {
    if base == 10 then (n / 10, n % 10) else (n / 16, n % 16)
  }

  /** The numeral of `n` in `base`, without leading zeros. */
  function Numeral(n: nat, base: nat): (ds: string)
    requires base == 10 || base == 16
    ensures |ds| > 0 && AllDigits(ds, base)
    ensures ds[0] == '0' ==> n == 0 && |ds| == 1
    ensures forall i :: 0 <= i < |ds| ==> IsNumeralChar(ds[i])
    decreases n
  {
    if n < base then [DigitChar(n)]
    else
      var qr := DivMod(n, base);
      Numeral(qr.0, base) + [DigitChar(qr.1)]
  }

  /** Reading a numeral gives back the number it was written from. */
  lemma {:induction false} ValueOfNumeral(n: nat, base: nat)
    requires base == 10 || base == 16
    ensures ValueOf(Numeral(n, base), base) == n
    decreases n
  {
    if n >= base {
      var qr := DivMod(n, base);
      var ds := Numeral(n, base);
      assert ds[..|ds| - 1] == Numeral(qr.0, base);
      ValueOfNumeral(qr.0, base);
    }
  }

  /**
   * Python's `int(token, base)` for base 10 or 16, restricted to the forms
   * the devices send: surrounding whitespace, an optional sign, for base 16
   * an optional `0x`/`0X` prefix, then at least one digit of the base.
   * `None` stands for the `ValueError` Python raises on anything else.
   */
  function ParseInt(token: string, base: nat): (r: Option<int>)
    requires base == 10 || base == 16
    ensures r.Some? ==> Strip(token) != []
    ensures r.Some? && r.value < 0 ==> Strip(token)[0] == '-'
  {
    ParseSigned(Strip(token), base)
  }

  /** A stripped `int(token, base)` token: an optional sign, then the unsigned part. */
  function ParseSigned(t: string, base: nat): (r: Option<int>)
    requires base == 10 || base == 16
    ensures r.Some? ==> t != [] && (r.value < 0 ==> t[0] == '-')
  {
    if |t| > 0 && t[0] == '-' then
      match ParseUnsigned(t[1..], base)
      case Some(v) => Some(-v)
      case None => None
    else if |t| > 0 && t[0] == '+' then ParseUnsigned(t[1..], base)
    else ParseUnsigned(t, base)
  }

  /** The unsigned part of an `int(token, base)` token: the optional `0x` prefix and the digits. */
  function ParseUnsigned(u: string, base: nat): (r: Option<int>)
    requires base == 10 || base == 16
    ensures r.Some? ==> r.value >= 0 && u != []
  {
    var body :=
      if base == 16 && |u| >= 2 && u[0] == '0' && (u[1] == 'x' || u[1] == 'X') then u[2..] else u;
    if |body| > 0 && AllDigits(body, base) then Some(ValueOf(body, base)) else None
  }

  /** `int(token, base)` reads back any numeral written in that base. */
  lemma ParseIntNumeral(n: nat, base: nat)
    requires base == 10 || base == 16
    ensures ParseInt(Numeral(n, base), base) == Some(n)
  {
    var ds := Numeral(n, base);
    ValueOfNumeral(n, base);
    NumeralCharIsPlain(ds[0]);
    NumeralCharIsPlain(ds[|ds| - 1]);
    assert ds[0] != '-' && ds[0] != '+';
    assert ParseUnsigned(ds, base) == Some(n);
    assert ParseSigned(ds, base) == Some(n);
    StripUnchanged(ds);
  }

  /** `int(token, base)` reads back a numeral written after a minus sign as the negated number. */
  lemma ParseIntNegativeNumeral(n: nat, base: nat)
    requires base == 10 || base == 16
    ensures ParseInt("-" + Numeral(n, base), base) == Some(-(n as int))
  {
    var ds := Numeral(n, base);
    var t := "-" + ds;
    ValueOfNumeral(n, base);
    NumeralCharIsPlain(ds[|ds| - 1]);
    assert t[|t| - 1] == ds[|ds| - 1];
    assert t[0] == '-' && t[1..] == ds;
    assert ParseUnsigned(ds, base) == Some(n);
    assert ParseSigned(t, base) == Some(-(n as int));
    StripUnchanged(t);
  }

  /** Whitespace the JSON grammar allows between tokens (section 2 of RFC 8259). */
  predicate IsJsonSpace(c: char)
  {
    c == ' ' || c == '\t' || c == '\n' || c == '\r'
  }

  /** The JSON text with the JSON whitespace at both ends removed. */
  function TrimJson(s: string): (r: string)
    ensures |r| <= |s|
    ensures r == [] || (!IsJsonSpace(r[0]) && !IsJsonSpace(r[|r| - 1]))
  {
    if s != [] && IsJsonSpace(s[0]) then TrimJson(s[1..])
    else if s != [] && IsJsonSpace(s[|s| - 1]) then TrimJson(s[..|s| - 1])
    else s
  }

  /**
   * A JSON integer (section 6 of RFC 8259): an optional minus sign, then
   * `0` or a non-zero digit followed by digits; no plus sign, no leading zero.
   */
  function ParseJsonInt(token: string): (r: Option<int>)
  {
    var negative := |token| > 0 && token[0] == '-';
    var body := if negative then token[1..] else token;
    if |body| > 0 && AllDigits(body, 10) && (body[0] != '0' || |body| == 1) then
      Some(if negative then -(ValueOf(body, 10) as int) else ValueOf(body, 10) as int)
    else None
  }

  /** The shortest JSON numeral of an integer. */
  function JsonNumeral(n: int): (s: string)
    ensures |s| > 0
    ensures forall i :: 0 <= i < |s| ==> s[i] == '-' || IsNumeralChar(s[i])
    ensures s[0] != '-' ==> n >= 0
  {
    if n < 0 then "-" + Numeral(-n, 10) else Numeral(n, 10)
  }

  /** Every integer survives being written as a JSON numeral and read back. */
  lemma JsonIntRoundTrip(n: int)
    ensures ParseJsonInt(JsonNumeral(n)) == Some(n)
  {
    var m := if n < 0 then -n else n;
    ValueOfNumeral(m, 10);
    if n < 0 {
      assert JsonNumeral(n)[1..] == Numeral(m, 10);
    }
  }

  /** A leading zero makes a JSON integer malformed, although `int` accepts it. */
  lemma JsonRejectsLeadingZero()
    ensures ParseJsonInt("07") == None && ParseInt("07", 10) == Some(7)
  {
    StripUnchanged("07");
    assert "07"[..1] == "0" && "0"[..0] == "";
    assert ValueOf("07", 10) == 7;
    assert ParseUnsigned("07", 10) == Some(7);
  }
}
