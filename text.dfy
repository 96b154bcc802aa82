/** Character-level facts the cleaner and the result writer rely on: Python's
    notion of whitespace and `str.strip`, decimal digit strings (`str(i)` and
    the zero-padded fields of an ISO date), and the code-point order in which
    Python compares strings. */
module Text {

  /** The characters for which Python's `str.isspace` holds. */
  predicate IsSpace(c: char) {
    ('\t' <= c <= '\r') || ('\U{1C}' <= c <= '\U{1F}') || c == ' ' ||
    c == '\U{85}' || c == '\U{A0}' || c == '\U{1680}' ||
    ('\U{2000}' <= c <= '\U{200A}') || c == '\U{2028}' || c == '\U{2029}' ||
    c == '\U{202F}' || c == '\U{205F}' || c == '\U{3000}'
  }

  predicate AllSpace(s: string) {
    forall i :: 0 <= i < |s| ==> IsSpace(s[i])
  }

  /** `str.lstrip()`: drop leading whitespace. */
  function TrimStart(s: string): (r: string)
    ensures |r| <= |s| && r == s[|s| - |r|..]
    ensures AllSpace(s[..|s| - |r|])
    ensures r != [] ==> !IsSpace(r[0])
  {
    if s != [] && IsSpace(s[0]) then TrimStart(s[1..]) else s
  }

  /** `str.rstrip()`: drop trailing whitespace. */
  function TrimEnd(s: string): (r: string)
    ensures |r| <= |s| && r == s[..|r|]
    ensures AllSpace(s[|r|..])
    ensures r != [] ==> !IsSpace(r[|r| - 1])
  {
    if s != [] && IsSpace(s[|s| - 1]) then
      var r := TrimEnd(s[..|s| - 1]);
      assert s[|r|..] == s[..|s| - 1][|r|..] + [s[|s| - 1]];
      r
    else s
  }

  /** Text that is whitespace before and after a cut is whitespace throughout. */
  lemma AllSpaceJoin(s: string, k: nat)
    requires k <= |s| && AllSpace(s[..k]) && AllSpace(s[k..])
    ensures AllSpace(s)
  {
    forall i | 0 <= i < |s| ensures IsSpace(s[i]) {
      if i < k {
        assert s[i] == s[..k][i];
      } else {
        assert s[i] == s[k..][i - k];
      }
    }
  }

  /** When stripping leaves nothing, every character was whitespace. */
  lemma StripEmpty(s: string, t: string)
    requires t == TrimStart(s) && TrimEnd(t) == []
    ensures AllSpace(s)
  {
    var k := |s| - |t|;
    assert AllSpace(s[..k]);
    assert s[k..] == t;
    assert t[|TrimEnd(t)|..] == t;
    assert AllSpace(s[k..]);
    AllSpaceJoin(s, k);
  }

  /** When stripping leaves something, its first character is a non-whitespace character of the input. */
  lemma StripNonEmpty(s: string, t: string, r: string)
    requires t == TrimStart(s) && r == TrimEnd(t) && r != []
    ensures !IsSpace(r[0]) && !AllSpace(s)
  {
    var k := |s| - |t|;
    assert r[0] == t[0] == s[k];
  }

  /** `str.strip()`: the result is empty exactly when the input is all whitespace,
      and otherwise neither starts nor ends with whitespace. */
  function Strip(s: string): (r: string)
    ensures |r| <= |s|
    ensures r == [] <==> AllSpace(s)
    ensures r != [] ==> !IsSpace(r[0]) && !IsSpace(r[|r| - 1])
  {
    var t := TrimStart(s);
    var r := TrimEnd(t);
    if r == [] then StripEmpty(s, t); r else StripNonEmpty(s, t, r); r
  }

  predicate IsDigit(c: char) {
    '0' <= c <= '9'
  }

  predicate AllDigits(s: string) {
    forall i :: 0 <= i < |s| ==> IsDigit(s[i])
  }

  function DigitChar(d: nat): (c: char)
    requires d < 10
  {
    (('0' as int) + d) as char
  }

  /** The number a string of decimal digits denotes (leading zeros allowed). */
  function DecimalValue(s: string): nat
    requires AllDigits(s)
  {
    if s == [] then 0
    else DecimalValue(s[..|s| - 1]) * 10 + ((s[|s| - 1] as int) - ('0' as int))
  }

  /** The value of a two-digit field such as the month or day of an ISO date. */
  lemma TwoDigitValue(a: char, b: char)
    requires IsDigit(a) && IsDigit(b)
    ensures DecimalValue([a, b]) == ((a as int) - ('0' as int)) * 10 + ((b as int) - ('0' as int))
  {
    assert [a, b][..1] == [a] && [a][..0] == [];
    assert DecimalValue([a]) == DecimalValue([]) * 10 + ((a as int) - ('0' as int));
    assert DecimalValue([a, b]) == DecimalValue([a]) * 10 + ((b as int) - ('0' as int));
  }

  /** Python's `str(n)` for a non-negative integer: its decimal digits without leading zeros. */
  function NatToString(n: nat): (s: string)
    ensures s != [] && AllDigits(s)
    ensures DecimalValue(s) == n
    ensures s[0] == '0' ==> n == 0
  {
    if n < 10 then [DigitChar(n)]
    else
      var s := NatToString(n / 10) + [DigitChar(n % 10)];
      assert s[..|s| - 1] == NatToString(n / 10);
      s
  }

  function Pow10(k: nat): nat {
    if k == 0 then 1 else 10 * Pow10(k - 1)
  }

  lemma {:induction false} NatToStringLength(n: nat, k: nat)
    requires 1 <= k && n < Pow10(k)
    ensures |NatToString(n)| <= k
  {
    if n >= 10 {
      assert k > 1;
      NatToStringLength(n / 10, k - 1);
    }
  }

  function Zeros(k: nat): (z: string)
    ensures |z| == k && AllDigits(z)
  {
    if k == 0 then [] else Zeros(k - 1) + ['0']
  }

  lemma {:induction false} ZerosValue(k: nat)
    ensures DecimalValue(Zeros(k)) == 0
  {
    if k > 0 {
      ZerosValue(k - 1);
      var z := Zeros(k);
      assert z[..k - 1] == Zeros(k - 1);
    }
  }

  /** Leading zeros do not change the value of a digit string. */
  lemma {:induction false} LeadingZerosValue(k: nat, s: string)
    requires AllDigits(s)
    ensures DecimalValue(Zeros(k) + s) == DecimalValue(s)
    decreases |s|
  {
    var zs := Zeros(k);
    if s == [] {
      assert zs + s == zs;
      ZerosValue(k);
    } else {
      var z := zs + s;
      var init := s[..|s| - 1];
      assert z[..|z| - 1] == zs + init;
      assert z[|z| - 1] == s[|s| - 1];
      LeadingZerosValue(k, init);
    }
  }

  /** `n` written with at least `width` digits, padded on the left with zeros (as `%02d`). */
  function ZeroPad(n: nat, width: nat): (s: string)
    ensures AllDigits(s) && DecimalValue(s) == n
    ensures n < Pow10(width) && 1 <= width ==> |s| == width
  {
    var d := NatToString(n);
    if |d| < width then
      LeadingZerosValue(width - |d|, d);
      Zeros(width - |d|) + d
    else if n < Pow10(width) && 1 <= width then
      NatToStringLength(n, width);
      d
    else d
  }

  /** Python's `<` on strings: lexicographic by code point, a proper prefix first. */
  predicate StrLt(a: string, b: string)
    decreases |a|
  {
    if a == [] then b != []
    else b != [] && (a[0] < b[0] || (a[0] == b[0] && StrLt(a[1..], b[1..])))
  }

  lemma {:induction false} StrLtIrreflexive(a: string)
    ensures !StrLt(a, a)
  {
    if a != [] {
      StrLtIrreflexive(a[1..]);
    }
  }

  lemma {:induction false} StrLtTransitive(a: string, b: string, c: string)
    requires StrLt(a, b) && StrLt(b, c)
    ensures StrLt(a, c)
    decreases |a|
  {
    if a != [] && a[0] == b[0] && b[0] == c[0] {
      StrLtTransitive(a[1..], b[1..], c[1..]);
    }
  }

  /** Any two distinct strings are ordered one way or the other. */
  lemma {:induction false} StrLtTotal(a: string, b: string)
    requires a != b
    ensures StrLt(a, b) || StrLt(b, a)
    decreases |a|
  {
    if a != [] && b != [] && a[0] == b[0] {
      assert a == [a[0]] + a[1..] && b == [b[0]] + b[1..];
      StrLtTotal(a[1..], b[1..]);
    }
  }

  lemma StrLtAsymmetric(a: string, b: string)
    ensures !(StrLt(a, b) && StrLt(b, a))
  {
    if StrLt(a, b) && StrLt(b, a) {
      StrLtTransitive(a, b, a);
      StrLtIrreflexive(a);
    }
  }
}
