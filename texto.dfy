/**
 * The string helpers the works registry relies on: Python's `str.strip`,
 * `str.lower`, `str.replace` and the `int(...)` / `float(...)` conversions,
 * restricted to what the registry's inputs need.
 */
module Texto {
  import opened Wrappers

  // ---------------------------------------------------------------------
  // Whitespace and case
  // ---------------------------------------------------------------------

  /**
   * The characters Python's `str.isspace` accepts, which are the ones
   * `str.strip()` drops: the ASCII controls 9-13 and 28-31, the space, and
   * the Unicode separators (NEL, no-break space, the Ogham space, the
   * spaces 2000-200A, the line and paragraph separators, the narrow and
   * medium mathematical spaces and the ideographic space).
   */
  predicate IsSpace(c: char) {
    || ('\U{0009}' <= c <= '\U{000D}') || ('\U{001C}' <= c <= '\U{001F}') || c == ' '
    || c == '\U{0085}' || c == '\U{00A0}' || c == '\U{1680}'
    || ('\U{2000}' <= c <= '\U{200A}') || c == '\U{2028}' || c == '\U{2029}'
    || c == '\U{202F}' || c == '\U{205F}' || c == '\U{3000}'
  }

  /** How many whitespace characters `s` starts with. */
  function LeadingSpaces(s: string): (k: nat)
    ensures k <= |s|
  {
    if s != [] && IsSpace(s[0]) then 1 + LeadingSpaces(s[1..]) else 0
  }

  /** How many whitespace characters `s` ends with. */
  function TrailingSpaces(s: string): (k: nat)
    ensures k <= |s|
  {
    if s != [] && IsSpace(s[|s| - 1]) then 1 + TrailingSpaces(s[..|s| - 1]) else 0
  }

  /** `s.strip()`: drops the whitespace at both ends. */
  function Strip(s: string): (r: string)
    ensures |r| <= |s|
  {
    var t := s[LeadingSpaces(s)..];
    t[..|t| - TrailingSpaces(t)]
  }

  lemma {:induction false} LeadingSpacesSpec(s: string)
    ensures forall i :: 0 <= i < LeadingSpaces(s) ==> IsSpace(s[i])
    ensures LeadingSpaces(s) < |s| ==> !IsSpace(s[LeadingSpaces(s)])
  {
    if s != [] && IsSpace(s[0]) {
      LeadingSpacesSpec(s[1..]);
    }
  }

  lemma {:induction false} TrailingSpacesSpec(s: string)
    ensures forall i :: |s| - TrailingSpaces(s) <= i < |s| ==> IsSpace(s[i])
    ensures TrailingSpaces(s) < |s| ==> !IsSpace(s[|s| - 1 - TrailingSpaces(s)])
  {
    if s != [] && IsSpace(s[|s| - 1]) {
      TrailingSpacesSpec(s[..|s| - 1]);
    }
  }

  /**
   * What `strip` keeps is the slice of `s` between its leading and its
   * trailing whitespace, and that slice neither starts nor ends with
   * whitespace.
   */
  lemma StripSpec(s: string)
    ensures var k := LeadingSpaces(s);
      && k + |Strip(s)| <= |s|
      && Strip(s) == s[k..k + |Strip(s)|]
      && (forall i :: 0 <= i < k ==> IsSpace(s[i]))
      && (forall i :: k + |Strip(s)| <= i < |s| ==> IsSpace(s[i]))
    ensures Strip(s) == [] || (!IsSpace(Strip(s)[0]) && !IsSpace(Strip(s)[|Strip(s)| - 1]))
  {
    var k := LeadingSpaces(s);
    var t := s[k..];
    var m := TrailingSpaces(t);
    LeadingSpacesSpec(s);
    assert Strip(s) == t[..|t| - m];
    StripTrailing(s);
    if |t| - m > 0 {
      StripEdges(s);
    }
  }

  /** What `strip` drops at the end of `s` is whitespace. */
  lemma StripTrailing(s: string)
    ensures forall i :: LeadingSpaces(s) + |Strip(s)| <= i < |s| ==> IsSpace(s[i])
  {
    var k := LeadingSpaces(s);
    var t := s[k..];
    TrailingSpacesSpec(t);
    forall i | k + |Strip(s)| <= i < |s| ensures IsSpace(s[i]) {
      assert s[i] == t[i - k];
    }
  }

  /** A non-empty strip neither starts nor ends with whitespace. */
  lemma StripEdges(s: string)
    requires Strip(s) != []
    ensures !IsSpace(Strip(s)[0]) && !IsSpace(Strip(s)[|Strip(s)| - 1])
  {
    var k := LeadingSpaces(s);
    var t := s[k..];
    var m := TrailingSpaces(t);
    LeadingSpacesSpec(s);
    TrailingSpacesSpec(t);
    assert Strip(s)[0] == t[0] == s[k];
    assert Strip(s)[|Strip(s)| - 1] == t[|t| - 1 - m];
  }

  /** A string that neither starts nor ends with whitespace is its own strip. */
  lemma StripNoEdges(t: string)
    requires t == [] || (!IsSpace(t[0]) && !IsSpace(t[|t| - 1]))
    ensures Strip(t) == t
  {
    assert LeadingSpaces(t) == 0;
    assert t[0..] == t;
    assert TrailingSpaces(t) == 0;
    assert t[..|t|] == t;
  }

  /** Stripping twice is stripping once. */
  lemma StripIdempotent(s: string)
    ensures Strip(Strip(s)) == Strip(s)
  {
    StripSpec(s);
    StripNoEdges(Strip(s));
  }

  /**
   * `c.lower()` for the characters that can spell a yes/no answer: the
   * ASCII capitals and 'Í'. Every other character is left as it is.
   */
  function LowerChar(c: char): (r: char)
    ensures 'A' <= c <= 'Z' ==> 'a' <= r <= 'z' && r as int == c as int + 32
    ensures c == 'Í' ==> r == 'í'
    ensures !('A' <= c <= 'Z') && c != 'Í' ==> r == c
  {
    if 'A' <= c <= 'Z' then (c as int + 32) as char
    else if c == 'Í' then 'í'
    else c
  }

  /** `s.lower()`, character by character. */
  function Lower(s: string): (r: string)
    ensures |r| == |s|
    ensures forall i :: 0 <= i < |s| ==> r[i] == LowerChar(s[i])
  {
    seq(|s|, i requires 0 <= i < |s| => LowerChar(s[i]))
  }

  // ---------------------------------------------------------------------
  // Counting and `str.replace`
  // ---------------------------------------------------------------------

  /** How many times `c` occurs in `s`. */
  function Count(c: char, s: string): nat {
    if s == [] then 0 else (if s[0] == c then 1 else 0) + Count(c, s[1..])
  }

  lemma {:induction false} CountConcat(c: char, u: string, v: string)
    ensures Count(c, u + v) == Count(c, u) + Count(c, v)
  {
    if u == [] {
      assert u + v == v;
    } else {
      assert (u + v)[1..] == u[1..] + v;
      CountConcat(c, u[1..], v);
    }
  }

  /** A character that does not occur has count zero, and conversely. */
  lemma {:induction false} CountZero(c: char, s: string)
    ensures Count(c, s) == 0 <==> c !in s
  {
    if s != [] {
      CountZero(c, s[1..]);
      assert s == [s[0]] + s[1..];
    }
  }

  /** `s.replace(a, t)` for a one-character pattern `a`. */
  function Replace(s: string, a: char, t: string): (r: string)
  {
    if s == [] then [] else (if s[0] == a then t else [s[0]]) + Replace(s[1..], a, t)
  }

  /** A text without `a` is left as it is. */
  lemma {:induction false} ReplaceAusente(s: string, a: char, t: string)
    requires a !in s
    ensures Replace(s, a, t) == s
  {
    if s != [] {
      ReplaceAusente(s[1..], a, t);
      assert s == [s[0]] + s[1..];
    }
  }

  /** Replacing works piece by piece. */
  lemma {:induction false} ReplaceConcat(u: string, v: string, a: char, t: string)
    ensures Replace(u + v, a, t) == Replace(u, a, t) + Replace(v, a, t)
  {
    if u != [] {
      assert (u + v)[0] == u[0] && (u + v)[1..] == u[1..] + v;
      ReplaceConcat(u[1..], v, a, t);
    } else {
      assert u + v == v;
    }
  }

  /** A lone `a` becomes `t`. */
  lemma ReplaceUno(a: char, t: string)
    ensures Replace([a], a, t) == t
  {
    assert [a][1..] == [];
  }

  /**
   * Replacing `a` by `t` removes every `a` and adds one copy of `t`'s
   * characters per `a`; no other character is touched.
   */
  lemma {:induction false} CountReplace(x: char, s: string, a: char, t: string)
    ensures Count(x, Replace(s, a, t)) + (if x == a then Count(a, s) else 0)
         == Count(x, s) + Count(a, s) * Count(x, t)
  {
    if s != [] {
      var head := if s[0] == a then t else [s[0]];
      CountConcat(x, head, Replace(s[1..], a, t));
      CountReplace(x, s[1..], a, t);
      var n := Count(a, s[1..]);
      var m := Count(x, t);
      if s[0] == a {
        assert Count(a, s) == n + 1;
        assert (n + 1) * m == n * m + m;
      } else {
        assert Count(a, s) == n;
        assert Count(x, head) == if s[0] == x then 1 else 0;
      }
    }
  }

  // ---------------------------------------------------------------------
  // Digits, `int(...)` and `float(...)`
  // ---------------------------------------------------------------------

  predicate IsDigit(c: char) { '0' <= c <= '9' }

  predicate AllDigits(s: string) { forall i :: 0 <= i < |s| ==> IsDigit(s[i]) }

  /** The value of a string of decimal digits, read most significant first. */
  function DigitsValue(s: string): nat
    requires AllDigits(s)
  {
    if s == [] then 0 else DigitsValue(s[..|s| - 1]) * 10 + (s[|s| - 1] as int - '0' as int)
  }

  function Pow10(n: nat): (r: nat)
    ensures r >= 1
  {
    if n == 0 then 1 else 10 * Pow10(n - 1)
  }

  /** The decimal digits of `n`, most significant first, without leading zeros. */
  function ShowNat(n: nat): (r: string)
    ensures |r| > 0 && AllDigits(r)
  {
    var d := ['0' + (n % 10) as char];
    if n < 10 then d else ShowNat(n / 10) + d
  }

  /** The way Python writes an integer: a '-' for negatives, then the digits. */
  function ShowInt(n: int): string {
    if n < 0 then "-" + ShowNat(-n) else ShowNat(n)
  }

  lemma {:induction false} DigitsOfShowNat(n: nat)
    ensures DigitsValue(ShowNat(n)) == n
  {
    var r := ShowNat(n);
    if n >= 10 {
      DigitsOfShowNat(n / 10);
      assert r[..|r| - 1] == ShowNat(n / 10);
    }
  }

  /**
   * `int(s)` on a string: surrounding whitespace, an optional sign, then
   * one or more decimal digits; anything else is a `ValueError` (None).
   */
  function ParseInt(s: string): (r: Option<int>)
  {
    var t := Strip(s);
    if |t| > 0 && (t[0] == '+' || t[0] == '-') then
      var d := t[1..];
      if |d| > 0 && AllDigits(d) then
        var v: int := DigitsValue(d);
        Some(if t[0] == '-' then -v else v)
      else None
    else if |t| > 0 && AllDigits(t) then Some(DigitsValue(t))
    else None
  }

  /** `int(str(n)) == n`: the parser reads back what Python writes. */
  lemma ParseIntShowInt(n: int)
    ensures ParseInt(ShowInt(n)) == Some(n)
  {
    var s := ShowInt(n);
    StripNoEdges(s);
    if n < 0 {
      assert s[1..] == ShowNat(-n);
      DigitsOfShowNat(-n);
    } else {
      DigitsOfShowNat(n);
    }
  }

  /** The index of the first `c` in `s`. */
  function IndexOf(s: string, c: char): (r: Option<nat>)
    ensures r.Some? ==> r.value < |s| && s[r.value] == c && c !in s[..r.value]
    ensures r.None? ==> c !in s
  {
    if s == [] then None
    else if s[0] == c then Some(0)
    else match IndexOf(s[1..], c)
      case None => None
      case Some(k) => assert s[..k + 1] == [s[0]] + s[1..][..k]; Some(k + 1)
  }

  /** The number `ip.fp` written with integer digits `ip` and fraction digits `fp`. */
  function Decimal(ip: string, fp: string): real
    requires AllDigits(ip) && AllDigits(fp)
  {
    DigitsValue(ip) as real + DigitsValue(fp) as real / Pow10(|fp|) as real
  }

  /**
   * An unsigned decimal: digits, optionally one '.' and more digits, with
   * at least one digit overall ("12", "12.5", "12.", ".5").
   */
  function ParseUnsigned(b: string): (r: Option<real>)
    ensures r.Some? ==> r.value >= 0.0
  {
    if AllDigits(b) then
      if |b| > 0 then Some(DigitsValue(b) as real) else None
    else match IndexOf(b, '.')
      case None => None
      case Some(k) =>
        var ip := b[..k];
        var fp := b[k + 1..];
        if AllDigits(ip) && AllDigits(fp) && |ip| + |fp| > 0 then
          Some(Decimal(ip, fp))
        else None
  }

  /**
   * `float(s)` on a string, for plain decimal notation: surrounding
   * whitespace, an optional sign, then an unsigned decimal.
   */
  function ParseFloat(s: string): (r: Option<real>)
  {
    var t := Strip(s);
    if |t| > 0 && (t[0] == '+' || t[0] == '-') then
      match ParseUnsigned(t[1..])
      case None => None
      case Some(v) => Some(if t[0] == '-' then -v else v)
    else ParseUnsigned(t)
  }

  /** Every integer `float` accepts reads as the same number. */
  lemma ParseFloatShowNat(n: nat)
    ensures ParseFloat(ShowNat(n)) == Some(n as real)
  {
    var s := ShowNat(n);
    StripNoEdges(s);
    DigitsOfShowNat(n);
    assert !(s[0] == '+' || s[0] == '-') by { assert IsDigit(s[0]); }
    assert ParseUnsigned(s) == Some(n as real);
  }

  /** A text holding no decimal digit. */
  predicate SinDigitos(s: string) {
    forall i :: 0 <= i < |s| ==> !IsDigit(s[i])
  }

  lemma ParseUnsignedSinDigitos(b: string)
    requires SinDigitos(b)
    ensures ParseUnsigned(b) == None
  {
    if |b| > 0 {
      assert !IsDigit(b[0]);
    }
  }

  /** `float` rejects every text without a digit. */
  lemma ParseFloatSinDigitos(s: string)
    requires SinDigitos(s)
    ensures ParseFloat(s) == None
  {
    StripSpec(s);
    var t := Strip(s);
    var k := LeadingSpaces(s);
    forall i | 0 <= i < |t| ensures !IsDigit(t[i]) {
      assert t[i] == s[k + i];
    }
    if |t| > 0 && (t[0] == '+' || t[0] == '-') {
      ParseUnsignedSinDigitos(t[1..]);
    } else {
      ParseUnsignedSinDigitos(t);
    }
  }

  /** The first occurrence is the one `IndexOf` finds. */
  lemma {:induction false} IndexOfPrimero(s: string, c: char, k: nat)
    requires k < |s| && s[k] == c && c !in s[..k]
    ensures IndexOf(s, c) == Some(k)
  {
    if k > 0 {
      assert s[0] == s[..k][0];
      assert s[1..][..k - 1] == s[1..k];
      assert forall j :: 0 <= j < k - 1 ==> s[1..k][j] == s[..k][j + 1];
      IndexOfPrimero(s[1..], c, k - 1);
    }
  }

  /** Digits, the first '.', and digits: the decimal number they spell. */
  lemma ParseUnsignedDecimal(t: string, k: nat)
    requires k < |t| && IndexOf(t, '.') == Some(k) && !AllDigits(t)
    requires AllDigits(t[..k]) && AllDigits(t[k + 1..]) && k > 0
    ensures ParseUnsigned(t) == Some(Decimal(t[..k], t[k + 1..]))
  {
  }

  /** A stripped text not starting with a sign is read as unsigned. */
  lemma ParseFloatSinSigno(t: string)
    requires Strip(t) == t && |t| > 0 && t[0] != '+' && t[0] != '-'
    ensures ParseFloat(t) == ParseUnsigned(t)
  {
  }

  /** `float` reads digits, a '.' and more digits as that decimal number. */
  lemma ParseFloatDecimal(ip: string, fp: string)
    requires AllDigits(ip) && AllDigits(fp) && |ip| > 0
    ensures ParseFloat(ip + "." + fp) == Some(Decimal(ip, fp))
  {
    var t := ip + ['.'] + fp;
    assert ip + "." + fp == t;
    assert t[0] == ip[0];
    assert !IsSpace(t[0]) && t[0] != '+' && t[0] != '-' by { assert IsDigit(ip[0]); }
    if |fp| > 0 {
      assert t[|t| - 1] == fp[|fp| - 1];
      assert IsDigit(fp[|fp| - 1]);
    }
    StripNoEdges(t);
    assert t[|ip|] == '.';
    assert t[..|ip|] == ip;
    assert '.' !in ip by {
      forall j | 0 <= j < |ip| ensures ip[j] != '.' { assert IsDigit(ip[j]); }
    }
    IndexOfPrimero(t, '.', |ip|);
    assert t[|ip| + 1..] == fp;
    assert !AllDigits(t) by { assert !IsDigit(t[|ip|]); }
    ParseUnsignedDecimal(t, |ip|);
    ParseFloatSinSigno(t);
  }
}
