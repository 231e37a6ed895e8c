/** The few pieces of Rust's string handling the core relies on: prefix
    tests, `strip_prefix`, `trim` and `u16::from_str`. */
module Text {
  import opened Wrappers

  type u16 = x: int | 0 <= x < 0x1_0000

  /** `s.starts_with(p)`. */
  predicate StartsWith(s: string, p: string) {
    |p| <= |s| && s[..|p|] == p
  }

  /** `s.strip_prefix(p)`: the rest of `s` after `p`, when `s` starts with it. */
  function StripPrefix(s: string, p: string): (r: Option<string>)
    ensures r.Some? <==> StartsWith(s, p)
    ensures r.Some? ==> p + r.value == s
  {
    if StartsWith(s, p) then Some(s[|p|..]) else None
  }

  lemma {:induction false} StripPrefixOfConcat(p: string, t: string)
    ensures StripPrefix(p + t, p) == Some(t)
  {
    assert (p + t)[..|p|] == p;
    assert (p + t)[|p|..] == t;
  }

  /** Rust's `char::is_whitespace`: the Unicode White_Space property. */
  predicate IsWhitespace(c: char) {
    var k := c as int;
    (0x09 <= k <= 0x0D) || k == 0x20 || k == 0x85 || k == 0xA0 || k == 0x1680
    || (0x2000 <= k <= 0x200A) || k == 0x2028 || k == 0x2029 || k == 0x202F
    || k == 0x205F || k == 0x3000
  }

  predicate AllWhitespace(s: string) {
    forall i :: 0 <= i < |s| ==> IsWhitespace(s[i])
  }

  /** The index of the first non-whitespace character at or after `i`, or
      `|s|` when there is none. */
  function SkipWhitespace(s: string, i: nat): (r: nat)
    requires i <= |s|
    ensures i <= r <= |s|
    ensures forall k :: i <= k < r ==> IsWhitespace(s[k])
    ensures r == |s| || !IsWhitespace(s[r])
    decreases |s| - i
  {
    if i < |s| && IsWhitespace(s[i]) then SkipWhitespace(s, i + 1) else i
  }

  /** The index just after the last non-whitespace character before `j`,
      or 0 when there is none. */
  function SkipWhitespaceBack(s: string, j: nat): (r: nat)
    requires j <= |s|
    ensures r <= j
    ensures forall k :: r <= k < j ==> IsWhitespace(s[k])
    ensures r == 0 || !IsWhitespace(s[r - 1])
  {
    if j > 0 && IsWhitespace(s[j - 1]) then SkipWhitespaceBack(s, j - 1) else j
  }

  /** `trim_start`: drops the leading whitespace. */
  function TrimStart(s: string): string {
    s[SkipWhitespace(s, 0)..]
  }

  /** `trim_end`: drops the trailing whitespace. */
  function TrimEnd(s: string): string {
    s[..SkipWhitespaceBack(s, |s|)]
  }

  /** `trim`: whitespace removed from both ends. */
  function Trim(s: string): string {
    TrimEnd(TrimStart(s))
  }

  /** What `trim` leaves is the slice of the text between its leading and
      its trailing whitespace. */
  lemma TrimSlice(s: string)
    ensures var i := SkipWhitespace(s, 0);
            && i + |Trim(s)| <= |s| && Trim(s) == s[i..i + |Trim(s)|]
            && AllWhitespace(s[..i]) && AllWhitespace(s[i + |Trim(s)|..])
  {
    var i := SkipWhitespace(s, 0);
    var t := s[i..];
    var j := SkipWhitespaceBack(t, |t|);
    assert Trim(s) == t[..j] == s[i..i + j];
    assert s[i + j..] == t[j..];
  }

  /** Neither end of what `trim` leaves is whitespace. */
  lemma TrimEnds(s: string)
    ensures Trim(s) == [] || (!IsWhitespace(Trim(s)[0]) && !IsWhitespace(Trim(s)[|Trim(s)| - 1]))
  {
    var t := TrimStart(s);
    var j := SkipWhitespaceBack(t, |t|);
    if j > 0 {
      assert Trim(s)[0] == t[0];
      assert Trim(s)[j - 1] == t[j - 1];
    }
  }

  /** Whitespace around a text that neither starts nor ends with whitespace
      is exactly what `trim` removes. */
  lemma {:induction false} TrimPadded(left: string, core: string, right: string)
    requires AllWhitespace(left) && AllWhitespace(right)
    requires core == [] || (!IsWhitespace(core[0]) && !IsWhitespace(core[|core| - 1]))
    requires core == [] ==> right == []
    ensures Trim(left + core + right) == core
  {
    var x := left + core + right;
    var i := SkipWhitespace(x, 0);
    assert forall k :: 0 <= k < |left| ==> x[k] == left[k];
    if core != [] {
      assert x[|left|] == core[0];
    }
    assert i == |left|;
    var t := x[i..];
    assert t == core + right;
    var j := SkipWhitespaceBack(t, |t|);
    assert forall k :: 0 <= k < |right| ==> t[|core| + k] == right[k];
    if core != [] {
      assert t[|core| - 1] == core[|core| - 1];
    }
    assert j == |core|;
    assert t[..j] == core;
  }

  predicate IsDigit(c: char) {
    '0' <= c <= '9'
  }

  predicate AllDigits(s: string) {
    forall i :: 0 <= i < |s| ==> IsDigit(s[i])
  }

  /** The value of a string of decimal digits, most significant first. */
  function DigitsValue(s: string): nat
    requires AllDigits(s)
  {
    if s == [] then 0
    else DigitsValue(s[..|s| - 1]) * 10 + (s[|s| - 1] as int - '0' as int)
  }

  /** `u16::from_str`: an optional `+`, then one or more ASCII digits whose
      value is at most 65535. A `-` sign, an empty string, a lone `+`, any
      other character and an overflowing value all fail. */
  function ParseU16(s: string): (r: Option<u16>)
    ensures r.Some? ==> exists d :: (s == d || s == "+" + d) && d != [] && AllDigits(d)
                                    && DigitsValue(d) == r.value
    ensures r.None? && AllDigits(s) && s != [] ==> DigitsValue(s) >= 0x1_0000
  {
    var digits := if |s| > 0 && s[0] == '+' then s[1..] else s;
    assert s == digits || s == "+" + digits;
    if digits == [] || !AllDigits(digits) then None
    else
      var v := DigitsValue(digits);
      if v < 0x1_0000 then Some(v) else None
  }

  /** The decimal rendering of a number, with no sign and no leading zero:
      the reference text against which `ParseU16` is checked. */
  function Decimal(n: nat): (r: string)
    ensures r != [] && AllDigits(r)
    ensures r[0] != '0' || n == 0
  {
    var last := ['0' + (n % 10) as char];
    if n < 10 then last else Decimal(n / 10) + last
  }

  lemma {:induction false} DigitsValueOfDecimal(n: nat)
    ensures DigitsValue(Decimal(n)) == n
  {
    var last := ['0' + (n % 10) as char];
    if n >= 10 {
      DigitsValueOfDecimal(n / 10);
      var d := Decimal(n);
      assert d[..|d| - 1] == Decimal(n / 10);
    }
  }

  /** Parsing the decimal text of any u16 gives that number back, also with a
      leading `+`. */
  lemma {:induction false} ParseU16Decimal(n: u16)
    ensures ParseU16(Decimal(n)) == Some(n)
    ensures ParseU16("+" + Decimal(n)) == Some(n)
  {
    DigitsValueOfDecimal(n);
    assert ("+" + Decimal(n))[1..] == Decimal(n);
  }
}
