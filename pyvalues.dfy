/**
 * Python scalar values as the decoder and the analyzers handle them, and the
 * three built-in conversions the core relies on: `int()`, `str.split` and
 * `binascii.a2b_hex`.
 */
module PyValues {
  import opened Wrappers

  /** A Python scalar: `None`, an `int`, a `float` (kept exact), or a `str`. */
  datatype PyVal = PyNone | PyInt(i: int) | PyFloat(r: real) | PyStr(s: string)

  /** Python truthiness of a scalar. */
  predicate Truthy(v: PyVal) {
    match v
    case PyNone => false
    case PyInt(i) => i != 0
    case PyFloat(r) => r != 0.0
    case PyStr(s) => s != ""
  }

  // ---------------------------------------------------------------------
  // Decimal integers: int(str) and str(int)
  // ---------------------------------------------------------------------

  predicate IsDigit(c: char) { '0' <= c <= '9' }

  predicate AllDigits(s: string) { forall k :: 0 <= k < |s| ==> IsDigit(s[k]) }

  /** The characters Python's `str.strip()` removes by default. */
  predicate IsSpace(c: char) {
    c == ' ' || c == '\t' || c == '\n' || c == '\r' || c == '\U{B}' || c == '\U{C}'
  }

  function DigitValue(c: char): (d: nat)
    requires IsDigit(c)
    ensures d < 10
  {
    (c as int) - ('0' as int)
  }

  function DigitChar(d: nat): (c: char)
    requires d < 10
    ensures IsDigit(c) && DigitValue(c) == d
  {
    ('0' as int + d) as char
  }

  /** The value of a string of decimal digits, most significant first. */
  function DigitsValue(s: string): nat
    requires AllDigits(s)
  {
    if s == [] then 0 else DigitsValue(s[..|s| - 1]) * 10 + DigitValue(s[|s| - 1])
  }

  /** The position of the first non-whitespace character at or after `i`. */
  function SkipSpaces(s: string, i: nat): (j: nat)
    requires i <= |s|
    ensures i <= j <= |s|
    ensures j < |s| ==> !IsSpace(s[j])
    decreases |s| - i
  {
    if i < |s| && IsSpace(s[i]) then SkipSpaces(s, i + 1) else i
  }

  /** The end of `s[..j]` once its trailing whitespace is dropped. */
  function SkipSpacesBack(s: string, j: nat): (i: nat)
    requires j <= |s|
    ensures i <= j
    ensures i > 0 ==> !IsSpace(s[i - 1])
  {
    if j > 0 && IsSpace(s[j - 1]) then SkipSpacesBack(s, j - 1) else j
  }

  /** Python `s.strip()`: surrounding whitespace removed. */
  function Strip(s: string): (r: string)
    ensures r == [] || (!IsSpace(r[0]) && !IsSpace(r[|r| - 1]))
  {
    var i := SkipSpaces(s, 0);
    var j := SkipSpacesBack(s, |s|);
    if j <= i then [] else s[i..j]
  }

  /**
   * An optional sign followed by one or more decimal digits; whitespace may
   * sit between the sign and the digits (CPython's `PyOS_strtol` reads the
   * sign, then `PyOS_strtoul` skips whitespace once more).
   */
  function ParseSigned(t: string): Option<int> {
    if t != [] && (t[0] == '-' || t[0] == '+') then
      var rest := t[1..];
      var d := rest[SkipSpaces(rest, 0)..];
      if d != [] && AllDigits(d) then
        var v: int := DigitsValue(d);
        Some(if t[0] == '-' then -v else v)
      else None
    else if t != [] && AllDigits(t) then Some(DigitsValue(t))
    else None
  }

  /**
   * Python 2 `int(s)` on a string: surrounding whitespace is ignored, then an
   * optional sign, optional whitespace after a sign, and at least one decimal
   * digit; anything else raises ValueError (`None` here).
   */
  function ParseInt(s: string): Option<int> {
    ParseSigned(Strip(s))
  }

  /** Decimal digits of a natural number, without leading zeros. */
  function ShowNat(n: nat): (s: string)
    ensures s != [] && AllDigits(s)
  {
    if n < 10 then [DigitChar(n)] else ShowNat(n / 10) + [DigitChar(n % 10)]
  }

  /** Python `str(i)` for an int. */
  function ShowInt(i: int): (s: string)
    ensures s != []
  {
    if i < 0 then "-" + ShowNat(-i) else ShowNat(i)
  }

  lemma {:induction false} DigitsOfShowNat(n: nat)
    ensures DigitsValue(ShowNat(n)) == n
  {
    if n >= 10 {
      DigitsOfShowNat(n / 10);
      var s := ShowNat(n);
      assert s[..|s| - 1] == ShowNat(n / 10);
    }
  }

  /** Reading back what `str()` printed gives the same integer. */
  lemma ParseShowInt(i: int)
    ensures ParseInt(ShowInt(i)) == Some(i)
  {
    var n: nat := if i < 0 then -i else i;
    var d := ShowNat(n);
    DigitsOfShowNat(n);
    ParseDigits(d);
    var s := ShowInt(i);
    assert s[|s| - 1] == d[|d| - 1];
    assert IsDigit(d[0]) && IsDigit(d[|d| - 1]);
    NoStrip(s);
  }

  /** Digits, with or without a minus sign, parse to their value. */
  lemma ParseDigits(d: string)
    requires d != [] && AllDigits(d)
    ensures ParseSigned(d) == Some(DigitsValue(d))
    ensures ParseSigned("-" + d) == Some(-(DigitsValue(d) as int))
  {
    assert ("-" + d)[1..] == d;
    assert IsDigit(d[0]);
    assert SkipSpaces(d, 0) == 0;
  }

  /** Skipping from the start of `sp + d` stops exactly where the spaces end. */
  lemma {:induction false} SkipLeadingSpaces(sp: string, d: string, i: nat)
    requires i <= |sp|
    requires forall k :: 0 <= k < |sp| ==> IsSpace(sp[k])
    requires d != [] && !IsSpace(d[0])
    ensures SkipSpaces(sp + d, i) == |sp|
    decreases |sp| - i
  {
    var s := sp + d;
    if i < |sp| {
      assert IsSpace(s[i]);
      SkipLeadingSpaces(sp, d, i + 1);
    } else {
      assert s[i] == d[0];
    }
  }

  /** A sign, whitespace, then digits: `ParseSigned` reads the digits' value. */
  lemma SignedAfterSpaces(sign: char, sp: string, d: string)
    requires sign == '-' || sign == '+'
    requires forall k :: 0 <= k < |sp| ==> IsSpace(sp[k])
    requires d != [] && AllDigits(d)
    ensures ParseSigned([sign] + sp + d)
         == Some(if sign == '-' then -(DigitsValue(d) as int) else DigitsValue(d))
  {
    var t := [sign] + sp + d;
    assert t[1..] == sp + d;
    assert IsDigit(d[0]);
    SkipLeadingSpaces(sp, d, 0);
    assert (sp + d)[|sp|..] == d;
  }

  /**
   * Whitespace between the sign and the digits is accepted:
   * `int("- 5") == -5` and `int("+\t3") == 3`.
   */
  lemma SpaceAfterSign(sign: char, sp: string, d: string)
    requires sign == '-' || sign == '+'
    requires forall k :: 0 <= k < |sp| ==> IsSpace(sp[k])
    requires d != [] && AllDigits(d)
    ensures ParseInt([sign] + sp + d)
         == Some(if sign == '-' then -(DigitsValue(d) as int) else DigitsValue(d))
  {
    var s := [sign] + sp + d;
    SignedAfterSpaces(sign, sp, d);
    assert s[|s| - 1] == d[|d| - 1];
    assert IsDigit(d[|d| - 1]);
    NoStrip(s);
  }

  lemma NoStrip(s: string)
    requires s != [] && !IsSpace(s[0]) && !IsSpace(s[|s| - 1])
    ensures Strip(s) == s
  {
    assert SkipSpaces(s, 0) == 0;
    assert SkipSpacesBack(s, |s|) == |s|;
  }

  /**
   * Python `int(v)`: an int is itself, a float is truncated toward zero, a
   * string is parsed, and `None` raises TypeError (`None` here).
   */
  function ToInt(v: PyVal): (r: Option<int>)
    ensures v.PyInt? ==> r == Some(v.i)
    ensures v.PyNone? ==> r == None
    ensures v.PyStr? ==> r == ParseInt(v.s)
  {
    match v
    case PyNone => None
    case PyInt(i) => Some(i)
    case PyFloat(r) => Some(if r >= 0.0 then r.Floor else -((-r).Floor))
    case PyStr(s) => ParseInt(s)
  }

  // ---------------------------------------------------------------------
  // str.split(sep) for a one-character separator
  // ---------------------------------------------------------------------

  /** Python `s.split(sep)`: the pieces between separators, at least one. */
  function Split(s: string, sep: char): (parts: seq<string>)
    ensures |parts| >= 1
    ensures forall k :: 0 <= k < |parts| ==> sep !in parts[k]
  {
    if s == [] then [""]
    else
      var rest := Split(s[1..], sep);
      if s[0] == sep then [""] + rest
      else [[s[0]] + rest[0]] + rest[1..]
  }

  /** Python `sep.join(parts)`. */
  function Join(parts: seq<string>, sep: char): string {
    if parts == [] then ""
    else if |parts| == 1 then parts[0]
    else parts[0] + [sep] + Join(parts[1..], sep)
  }

  /** Splitting and joining again gives back the original string. */
  lemma {:induction false} JoinSplit(s: string, sep: char)
    ensures Join(Split(s, sep), sep) == s
  {
    if s != [] {
      var rest := Split(s[1..], sep);
      JoinSplit(s[1..], sep);
      if s[0] != sep {
        if |rest| > 1 {
          assert rest == [rest[0]] + rest[1..];
        }
      }
    }
  }

  /** `s.split(sep)` has a second piece exactly when the separator occurs in `s`. */
  lemma {:induction false} SplitCount(s: string, sep: char)
    ensures |Split(s, sep)| >= 2 <==> sep in s
  {
    if s != [] {
      SplitCount(s[1..], sep);
      assert s == [s[0]] + s[1..];
    }
  }

  /** Joining pieces free of the separator and splitting again gives the pieces back. */
  lemma {:induction false} SplitJoin(parts: seq<string>, sep: char)
    requires |parts| >= 1
    requires forall k :: 0 <= k < |parts| ==> sep !in parts[k]
    ensures Split(Join(parts, sep), sep) == parts
  {
    if |parts| == 1 {
      SplitPiece(parts[0], sep);
    } else {
      SplitJoin(parts[1..], sep);
      SplitPieceThen(parts[0], Join(parts[1..], sep), sep);
      assert Join(parts, sep) == parts[0] + ([sep] + Join(parts[1..], sep));
      assert [parts[0]] + parts[1..] == parts;
    }
  }

  lemma {:induction false} SplitPiece(p: string, sep: char)
    requires sep !in p
    ensures Split(p, sep) == [p]
  {
    if p != [] {
      SplitPiece(p[1..], sep);
      assert [p[0]] + p[1..] == p;
    }
  }

  lemma {:induction false} SplitPieceThen(p: string, tail: string, sep: char)
    requires sep !in p
    ensures Split(p + ([sep] + tail), sep) == [p] + Split(tail, sep)
  {
    var s := p + ([sep] + tail);
    if p == [] {
      assert s == [sep] + tail;
      assert s[1..] == tail;
    } else {
      assert s[1..] == p[1..] + ([sep] + tail);
      SplitPieceThen(p[1..], tail, sep);
      assert [p[0]] + p[1..] == p;
    }
  }

  // ---------------------------------------------------------------------
  // binascii.a2b_hex
  // ---------------------------------------------------------------------

  predicate IsHexDigit(c: char) {
    IsDigit(c) || 'a' <= c <= 'f' || 'A' <= c <= 'F'
  }

  function HexValue(c: char): (d: nat)
    requires IsHexDigit(c)
    ensures d < 16
  {
    if IsDigit(c) then DigitValue(c)
    else if 'a' <= c <= 'f' then (c as int) - ('a' as int) + 10
    else (c as int) - ('A' as int) + 10
  }

  function HexChar(d: nat): (c: char)
    requires d < 16
    ensures IsHexDigit(c) && HexValue(c) == d
  {
    if d < 10 then DigitChar(d) else ('a' as int + d - 10) as char
  }

  /**
   * `binascii.a2b_hex(s)`: pairs of hexadecimal digits (either case) become
   * bytes; an odd length or a non-hexadecimal character raises TypeError.
   */
  function HexDecode(s: string): Option<seq<bv8>>
    decreases |s|
  {
    if s == [] then Some([])
    else if |s| < 2 || !IsHexDigit(s[0]) || !IsHexDigit(s[1]) then None
    else
      match HexDecode(s[2..])
      case None => None
      case Some(rest) => Some([(HexValue(s[0]) * 16 + HexValue(s[1])) as bv8] + rest)
  }

  /** `binascii.b2a_hex(b)`: two lower-case hexadecimal digits per byte. */
  function HexEncode(b: seq<bv8>): (s: string)
    ensures |s| == 2 * |b|
  {
    if b == [] then ""
    else [HexChar(b[0] as int / 16), HexChar(b[0] as int % 16)] + HexEncode(b[1..])
  }

  /** a2b_hex inverts b2a_hex, byte for byte. */
  lemma {:induction false} HexRoundTrip(b: seq<bv8>)
    ensures HexDecode(HexEncode(b)) == Some(b)
  {
    if b != [] {
      var s := HexEncode(b);
      assert s[2..] == HexEncode(b[1..]);
      HexRoundTrip(b[1..]);
      assert (HexValue(s[0]) * 16 + HexValue(s[1])) == b[0] as int;
      assert [b[0]] + b[1..] == b;
    }
  }

  /** A string of odd length is never valid hexadecimal. */
  lemma {:induction false} HexOddLength(s: string)
    requires |s| % 2 == 1
    ensures HexDecode(s) == None
  {
    if |s| >= 2 && IsHexDigit(s[0]) && IsHexDigit(s[1]) {
      HexOddLength(s[2..]);
    }
  }
}
