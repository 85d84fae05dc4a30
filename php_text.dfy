/** The string functions of PHP that the helper relies on: trim() and integer-to-string conversion. */
module PhpText {

  /** The characters trim() strips by default: space, tab, line feed, carriage return, NUL, vertical tab. */
  predicate IsTrimSpace(c: char) {
    c == ' ' || c == '\t' || c == '\n' || c == '\r' || c == '\0' || c == '\U{0B}'
  }

  predicate AllSpace(s: string) {
    forall i :: 0 <= i < |s| ==> IsTrimSpace(s[i])
  }

  /** Neither end of `s` is a character trim() would strip. */
  predicate NoEdgeSpace(s: string) {
    s == [] || (!IsTrimSpace(s[0]) && !IsTrimSpace(s[|s| - 1]))
  }

  /** ltrim(): drops the longest all-space prefix. */
  function TrimLeft(s: string): (r: string)
    ensures |r| <= |s| && r == s[|s| - |r|..]
    ensures AllSpace(s[..|s| - |r|])
    ensures r == [] || !IsTrimSpace(r[0])
  {
    if s != [] && IsTrimSpace(s[0]) then TrimLeft(s[1..]) else s
  }

  /** rtrim(): drops the longest all-space suffix. */
  function TrimRight(s: string): (r: string)
    ensures |r| <= |s| && r == s[..|r|]
    ensures AllSpace(s[|r|..])
    ensures r == [] || !IsTrimSpace(r[|r| - 1])
  {
    if s != [] && IsTrimSpace(s[|s| - 1]) then TrimRight(s[..|s| - 1]) else s
  }

  /** trim(): strips both ends. The result has no edge space, a string that has none is left as it is
      (so trimming twice is trimming once), and only an all-space string trims to "". */
  function Trim(s: string): (r: string)
    ensures exists a :: SliceBetweenSpace(s, r, a)
    ensures NoEdgeSpace(r)
    ensures NoEdgeSpace(s) ==> r == s
    ensures r == [] <==> AllSpace(s)
  {
    var left := TrimLeft(s);
    var r := TrimRight(left);
    assert r != [] ==> r[0] == left[0];
    TrimIsInfix(s);
    TrimKeepsTrimmed(s);
    TrimEmptyIffSpace(s);
    r
  }

  /** `r` is the slice of `s` starting at `a`, with only trimmable characters before and after it. */
  predicate SliceBetweenSpace(s: string, r: string, a: int) {
    0 <= a <= |s| - |r| && r == s[a..a + |r|] && AllSpace(s[..a]) && AllSpace(s[a + |r|..])
  }

  /** What trim() keeps is a slice of the input with only whitespace on either side of it. */
  lemma {:induction false} TrimIsInfix(s: string)
    ensures SliceBetweenSpace(s, TrimRight(TrimLeft(s)), |s| - |TrimLeft(s)|)
  {
    var left := TrimLeft(s);
    SliceOfSuffix(s, left, TrimRight(left));
  }

  /** A prefix `r` of a suffix `left` of `s`, each cut off by whitespace only, lies between whitespace in `s`. */
  lemma SliceOfSuffix(s: string, left: string, r: string)
    requires |left| <= |s| && left == s[|s| - |left|..] && AllSpace(s[..|s| - |left|])
    requires |r| <= |left| && r == left[..|r|] && AllSpace(left[|r|..])
    ensures SliceBetweenSpace(s, r, |s| - |left|)
  {
    var a := |s| - |left|;
    assert s[a + |r|..] == left[|r|..];
  }

  lemma {:induction false} TrimKeepsTrimmed(s: string)
    ensures NoEdgeSpace(s) ==> TrimRight(TrimLeft(s)) == s
  {
    if NoEdgeSpace(s) && s != [] {
      assert TrimLeft(s) == s;
    }
  }

  lemma {:induction false} TrimEmptyIffSpace(s: string)
    ensures TrimRight(TrimLeft(s)) == [] <==> AllSpace(s)
  {
    var left := TrimLeft(s);
    var k := |s| - |left|;
    if TrimRight(left) == [] {
      assert left == [] by { assert left[0..] == left; }
      forall i | 0 <= i < |s| ensures IsTrimSpace(s[i]) {
        assert s[i] == s[..k][i];
      }
    } else {
      assert left[0] == s[k];
    }
  }

  predicate IsDigit(c: char) {
    '0' <= c <= '9'
  }

  predicate AllDigits(s: string) {
    forall i :: 0 <= i < |s| ==> IsDigit(s[i])
  }

  function DigitChar(d: nat): (c: char)
    requires d < 10
    ensures IsDigit(c) && c as int - '0' as int == d
  {
    ('0' as int + d) as char
  }

  /** The number a string of decimal digits denotes. */
  function ValueOf(s: string): nat
    requires AllDigits(s)
  {
    if s == [] then 0 else ValueOf(s[..|s| - 1]) * 10 + (s[|s| - 1] as int - '0' as int)
  }

  function Pow10(w: nat): (p: nat)
    ensures p >= 1
  {
    if w == 0 then 1 else 10 * Pow10(w - 1)
  }

  /** The decimal digits of `n` without leading zeros ("0" for zero); reads back as `n`. */
  function Decimal(n: nat): (r: string)
    ensures |r| >= 1 && AllDigits(r)
    ensures ValueOf(r) == n
    ensures r[0] == '0' ==> r == "0"
    ensures n < Pow10(|r|)
  {
    if n < 10 then [DigitChar(n)]
    else
      var prefix := Decimal(n / 10);
      var r := prefix + [DigitChar(n % 10)];
      assert r[..|r| - 1] == prefix;
      assert r[0] == prefix[0];
      assert prefix[0] != '0';
      r
  }

  /** `n` written with exactly `width` digits, padded with leading zeros; reads back as `n` when it fits. */
  function FixedDigits(n: nat, width: nat): (r: string)
    ensures |r| == width && AllDigits(r)
    ensures n < Pow10(width) ==> ValueOf(r) == n
  {
    if width == 0 then []
    else
      var prefix := FixedDigits(n / 10, width - 1);
      var r := prefix + [DigitChar(n % 10)];
      assert r[..|r| - 1] == prefix;
      r
  }

  /** PHP's conversion of an int to a string: an optional minus sign and the decimal digits. */
  function IntToString(i: int): (r: string)
    ensures r != [] && NoEdgeSpace(r)
    ensures (r[0] == '-') <==> (i < 0)
    ensures var digits := if i < 0 then r[1..] else r;
      && |digits| >= 1 && AllDigits(digits)
      && ValueOf(digits) == (if i < 0 then -i else i)
      && (digits[0] == '0' ==> digits == "0")
  {
    if i < 0 then "-" + Decimal(-i) else Decimal(i)
  }
}
