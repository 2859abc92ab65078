/** The JavaScript string operations the screens use, on `string` (a sequence of
    Unicode scalar values, where JavaScript counts UTF-16 code units): truthiness,
    `s || null`, `trim`, `toLowerCase`, `includes`, `slice(0, n)`,
    `Number.prototype.toString` on integers and `parseInt`. Integers are unbounded. */
module Text {
  import opened Wrappers

  /** A string is truthy exactly when it is not empty. */
  predicate Truthy(s: string) {
    s != ""
  }

  /** An optional string is truthy when it is present and not empty. */
  predicate TruthyOpt(o: Option<string>) {
    o.Some? && o.value != ""
  }

  /** `s || null`: the empty string becomes null. */
  function NullIfEmpty(s: string): Option<string> {
    if s == "" then None else Some(s)
  }

  /** `o || ''`: a missing (or empty) string becomes the empty string. */
  function EmptyIfNull(o: Option<string>): string {
    if o.Some? then o.value else ""
  }

  /** Reading a form field back from a payload value and turning it into a payload
      value again loses nothing. */
  lemma NullIfEmptyRoundTrip(s: string)
    ensures EmptyIfNull(NullIfEmpty(s)) == s
  {
  }

  /** Going the other way, only the distinction between null and '' is lost. */
  lemma EmptyIfNullRoundTrip(o: Option<string>)
    ensures NullIfEmpty(EmptyIfNull(o)) == if TruthyOpt(o) then o else None
  {
  }

  // ---------------------------------------------------------------------------
  // trim

  /** WhiteSpace and LineTerminator code points of ECMAScript (what `trim` and
      `parseInt` skip). */
  predicate IsJsSpace(c: char) {
    var n := c as int;
    (9 <= n <= 13) || n == 0x20 || n == 0xA0 || n == 0x1680 || (0x2000 <= n <= 0x200A) ||
    n == 0x2028 || n == 0x2029 || n == 0x202F || n == 0x205F || n == 0x3000 || n == 0xFEFF
  }

  /** Every code unit of `s` is white space. */
  predicate AllSpace(s: string) {
    forall k :: 0 <= k < |s| ==> IsJsSpace(s[k])
  }

  /** `s.trimStart()`: drops the leading white space and nothing else. */
  function TrimStart(s: string): (r: string)
    ensures |r| <= |s| && r == s[|s| - |r|..]
    ensures AllSpace(s[..|s| - |r|])
    ensures r != "" ==> !IsJsSpace(r[0])
  {
    if s != "" && IsJsSpace(s[0]) then
      var r := TrimStart(s[1..]);
      assert s[..|s| - |r|] == [s[0]] + s[1..][..|s| - 1 - |r|];
      r
    else s
  }

  /** `s.trimEnd()`: drops the trailing white space and nothing else. */
  function TrimEnd(s: string): (r: string)
    ensures |r| <= |s| && r == s[..|r|]
    ensures AllSpace(s[|r|..])
    ensures r != "" ==> !IsJsSpace(r[|r| - 1])
  {
    if s != "" && IsJsSpace(s[|s| - 1]) then
      var r := TrimEnd(s[..|s| - 1]);
      assert s[|r|..] == s[..|s| - 1][|r|..] + [s[|s| - 1]];
      r
    else s
  }

  /** `s.trim()`. */
  function Trim(s: string): string {
    TrimEnd(TrimStart(s))
  }

  /** `r` is `s` with `i` white-space code units cut from its front and only white
      space cut from its back. */
  predicate TrimmedAt(s: string, r: string, i: int) {
    0 <= i <= |s| - |r| && r == s[i..i + |r|] && AllSpace(s[..i]) && AllSpace(s[i + |r|..])
  }

  /** The trimmed string neither starts nor ends with white space, is a contiguous
      piece of the input, and everything cut away is white space. */
  lemma TrimShape(s: string)
    ensures var r := Trim(s);
      (r != "" ==> !IsJsSpace(r[0]) && !IsJsSpace(r[|r| - 1])) &&
      exists i :: TrimmedAt(s, r, i)
  {
    var t := TrimStart(s);
    var r := TrimEnd(t);
    var i := |s| - |t|;
    if r != "" {
      assert r[0] == t[0];
    }
    assert r == s[i..i + |r|];
    assert t[|r|..] == s[i + |r|..];
    assert TrimmedAt(s, r, i);
  }

  /** Trimming twice is trimming once. */
  lemma TrimIdempotent(s: string)
    ensures Trim(Trim(s)) == Trim(s)
  {
    var r := Trim(s);
    var t := TrimStart(s);
    if r != "" {
      assert r[0] == t[0];
      assert TrimStart(r) == r;
      assert TrimEnd(r) == r;
    }
  }

  // ---------------------------------------------------------------------------
  // toLowerCase

  /** `toLowerCase` on one code unit: ASCII and Latin-1 capitals move down by 32. */
  function LowerChar(c: char): (d: char)
    ensures IsUpper(c) ==> d as int == c as int + 32
    ensures !IsUpper(c) ==> d == c
    ensures !IsUpper(d)
  {
    if IsUpper(c) then (c as int + 32) as char else c
  }

  /** Capital letters of the ASCII and Latin-1 ranges (not the multiplication sign). */
  predicate IsUpper(c: char) {
    ('A' <= c <= 'Z') || (0xC0 <= c as int <= 0xDE && c as int != 0xD7)
  }

  /** `s.toLowerCase()`. */
  function ToLower(s: string): (r: string)
    ensures |r| == |s|
    ensures forall k :: 0 <= k < |s| ==> r[k] == LowerChar(s[k])
  {
    seq(|s|, k requires 0 <= k < |s| => LowerChar(s[k]))
  }

  /** Lower-casing a lower-cased string changes nothing. */
  lemma ToLowerIdempotent(s: string)
    ensures ToLower(ToLower(s)) == ToLower(s)
  {
  }

  // ---------------------------------------------------------------------------
  // includes, slice

  /** `s.startsWith(p)`. */
  predicate StartsWith(s: string, p: string) {
    |p| <= |s| && s[..|p|] == p
  }

  /** `s.includes(sub)`: `sub` occurs somewhere in `s`. */
  predicate Includes(s: string, sub: string) {
    StartsWith(s, sub) || (s != "" && Includes(s[1..], sub))
  }

  /** `includes` agrees with "there is a position where `sub` occurs". */
  lemma {:induction false} IncludesAt(s: string, sub: string)
    ensures Includes(s, sub) <==> exists i :: 0 <= i <= |s| - |sub| && StartsWith(s[i..], sub)
  {
    if s != "" {
      IncludesAt(s[1..], sub);
      if Includes(s[1..], sub) {
        var i :| 0 <= i <= |s[1..]| - |sub| && StartsWith(s[1..][i..], sub);
        assert s[1..][i..] == s[i + 1..];
        assert StartsWith(s[i + 1..], sub);
      }
      if exists i :: 0 <= i <= |s| - |sub| && StartsWith(s[i..], sub) {
        var i :| 0 <= i <= |s| - |sub| && StartsWith(s[i..], sub);
        if i > 0 {
          assert s[1..][i - 1..] == s[i..];
        }
      }
    }
    assert s[0..] == s;
  }

  /** Every string includes the empty string. */
  lemma {:induction false} IncludesEmpty(s: string)
    ensures Includes(s, "")
  {
  }

  /** `s.slice(0, n)` for `n >= 0`: the first `n` code units, or all of `s`. */
  function Prefix(s: string, n: nat): (r: string)
    ensures |r| == if n <= |s| then n else |s|
    ensures StartsWith(s, r)
  {
    if n <= |s| then s[..n] else s
  }

  /** Taking a prefix of a prefix of the same length changes nothing. */
  lemma PrefixIdempotent(s: string, n: nat)
    ensures Prefix(Prefix(s, n), n) == Prefix(s, n)
  {
  }

  // ---------------------------------------------------------------------------
  // Number.prototype.toString on integers, and parseInt

  predicate IsDecimalDigit(c: char) {
    '0' <= c <= '9'
  }

  /** The value of a digit in radix 36 (`a`/`A` is 10); 36 for anything else. */
  function DigitValue(c: char): (v: nat)
    ensures v <= 36
    ensures IsDecimalDigit(c) ==> v == c as int - '0' as int
  {
    if '0' <= c <= '9' then c as int - '0' as int
    else if 'a' <= c <= 'z' then c as int - 'a' as int + 10
    else if 'A' <= c <= 'Z' then c as int - 'A' as int + 10
    else 36
  }

  function DigitChar(d: nat): (c: char)
    requires d < 10
    ensures IsDecimalDigit(c) && DigitValue(c) == d
  {
    ('0' as int + d) as char
  }

  /** Decimal rendering of a natural number, most significant digit first. */
  function NatToString(n: nat): (r: string)
    ensures r != ""
    ensures forall k :: 0 <= k < |r| ==> IsDecimalDigit(r[k])
  {
    if n < 10 then [DigitChar(n)] else NatToString(n / 10) + [DigitChar(n % 10)]
  }

  /** `n.toString()` for an integer `n`. */
  function IntToString(n: int): string {
    if n < 0 then "-" + NatToString(-n) else NatToString(n)
  }

  /** The longest prefix of `s` made of digits of the radix. */
  function DigitPrefix(s: string, radix: nat): (r: string)
    ensures StartsWith(s, r)
    ensures forall k :: 0 <= k < |r| ==> DigitValue(r[k]) < radix
    ensures |r| < |s| ==> DigitValue(s[|r|]) >= radix
  {
    if s != "" && DigitValue(s[0]) < radix then [s[0]] + DigitPrefix(s[1..], radix) else ""
  }

  /** The value of a string of digits, most significant first. */
  function DigitsValue(ds: string, radix: nat): nat {
    if ds == "" then 0
    else DigitsValue(ds[..|ds| - 1], radix) * radix + DigitValue(ds[|ds| - 1])
  }

  /** The digits after the sign: base 16 after a `0x`/`0X` prefix, base 10
      otherwise, up to the first character that is not a digit of that base;
      `None` when there is no digit at all. */
  function ParseUnsigned(u: string): Option<nat> {
    var hex := |u| >= 2 && u[0] == '0' && (u[1] == 'x' || u[1] == 'X');
    var radix := if hex then 16 else 10;
    var ds := DigitPrefix(if hex then u[2..] else u, radix);
    if ds == "" then None else Some(DigitsValue(ds, radix))
  }

  /** `parseInt(s)` with no radix: skip leading white space, read an optional sign,
      then the digits. `None` stands for `NaN`. */
  function ParseInt(s: string): Option<int> {
    var t := TrimStart(s);
    var signed := t != "" && (t[0] == '-' || t[0] == '+');
    var sign := if t != "" && t[0] == '-' then -1 else 1;
    var digits := ParseUnsigned(if signed then t[1..] else t);
    if digits.None? then None else Some(sign * digits.value)
  }

  lemma {:induction false} DigitPrefixOfDigits(s: string)
    requires forall k :: 0 <= k < |s| ==> IsDecimalDigit(s[k])
    ensures DigitPrefix(s, 10) == s
  {
    if s != "" {
      DigitPrefixOfDigits(s[1..]);
    }
  }

  lemma {:induction false} ValueOfNatToString(n: nat)
    ensures DigitsValue(NatToString(n), 10) == n
  {
    var r := NatToString(n);
    if n >= 10 {
      ValueOfNatToString(n / 10);
      assert r[..|r| - 1] == NatToString(n / 10);
    }
  }

  lemma ParseUnsignedOfNat(m: nat)
    ensures ParseUnsigned(NatToString(m)) == Some(m)
  {
    var d := NatToString(m);
    assert !(|d| >= 2 && (d[1] == 'x' || d[1] == 'X')) by {
      if |d| >= 2 { assert IsDecimalDigit(d[1]); }
    }
    DigitPrefixOfDigits(d);
    ValueOfNatToString(m);
  }

  lemma TrimStartNoSpace(s: string)
    requires s != "" && !IsJsSpace(s[0])
    ensures TrimStart(s) == s
  {
  }

  lemma ParseIntOfNegative(m: nat)
    ensures ParseInt("-" + NatToString(m)) == Some(-(m as int))
  {
    var s := "-" + NatToString(m);
    TrimStartNoSpace(s);
    assert s[1..] == NatToString(m);
    ParseUnsignedOfNat(m);
  }

  lemma ParseIntOfUnsigned(m: nat)
    ensures ParseInt(NatToString(m)) == Some(m)
  {
    var s := NatToString(m);
    assert IsDecimalDigit(s[0]);
    TrimStartNoSpace(s);
    ParseUnsignedOfNat(m);
  }

  /** `parseInt(n.toString())` gives `n` back for every integer. */
  lemma {:induction false} ParseIntToString(n: int)
    ensures ParseInt(IntToString(n)) == Some(n)
  {
    if n < 0 {
      var m: nat := -n;
      var s := "-" + NatToString(m);
      assert IntToString(n) == s;
      ParseIntOfNegative(m);
      assert ParseInt(s) == Some(-(m as int));
    } else {
      ParseIntOfUnsigned(n);
    }
  }
}
