/** Text helpers with the meaning the Kotlin standard library gives them:
    Char.isWhitespace, String.trim, String.isBlank, String.split with a
    one-character delimiter, String.toInt and Int.toString. */
module Text {

  datatype Option<+T> = None | Some(value: T)

  /** Kotlin's `Int`: a 32-bit two's-complement integer. */
  const MinInt32: int := -0x8000_0000
  const MaxInt32: int := 0x7FFF_FFFF
  newtype int32 = x: int | -0x8000_0000 <= x <= 0x7FFF_FFFF

  /** Kotlin's Char.isWhitespace: Java's Character.isWhitespace or
      Character.isSpaceChar, i.e. the control characters TAB..CR and FS..US
      and every space, line or paragraph separator of Unicode. */
  predicate IsWhitespace(c: char) {
    || '\t' <= c <= '\r'
    || '\U{1C}' <= c <= '\U{1F}'
    || c == ' '
    || c == '\U{A0}'
    || c == '\U{1680}'
    || '\U{2000}' <= c <= '\U{200A}'
    || c == '\U{2028}' || c == '\U{2029}'
    || c == '\U{202F}' || c == '\U{205F}' || c == '\U{3000}'
  }

  /** Kotlin's isBlank: empty, or whitespace only. */
  predicate IsBlank(s: string) {
    forall i :: 0 <= i < |s| ==> IsWhitespace(s[i])
  }

  /** True when neither end of `s` is a whitespace character. */
  predicate IsTrimmed(s: string) {
    |s| == 0 || (!IsWhitespace(s[0]) && !IsWhitespace(s[|s| - 1]))
  }

  function TrimStart(s: string): (r: string)
    ensures |r| <= |s|
    ensures |r| == 0 || !IsWhitespace(r[0])
    ensures forall i :: 0 <= i < |s| - |r| ==> IsWhitespace(s[i])
    decreases |s|
  {
    if |s| > 0 && IsWhitespace(s[0]) then TrimStart(s[1..]) else s
  }

  /** TrimStart keeps a suffix. */
  lemma {:induction false} TrimStartIsSuffix(s: string)
    ensures TrimStart(s) == s[|s| - |TrimStart(s)|..]
    decreases |s|
  {
    if |s| > 0 && IsWhitespace(s[0]) {
      TrimStartIsSuffix(s[1..]);
    }
  }

  function TrimEnd(s: string): (r: string)
    ensures |r| <= |s|
    ensures |r| == 0 || !IsWhitespace(r[|r| - 1])
    ensures forall i :: |r| <= i < |s| ==> IsWhitespace(s[i])
    decreases |s|
  {
    if |s| > 0 && IsWhitespace(s[|s| - 1]) then TrimEnd(s[..|s| - 1]) else s
  }

  /** TrimEnd keeps a prefix. */
  lemma {:induction false} TrimEndIsPrefix(s: string)
    ensures TrimEnd(s) == s[..|TrimEnd(s)|]
    decreases |s|
  {
    if |s| > 0 && IsWhitespace(s[|s| - 1]) {
      TrimEndIsPrefix(s[..|s| - 1]);
    }
  }

  /** Kotlin's String.trim(): drops whitespace at both ends. */
  function Trim(s: string): (r: string)
    ensures IsTrimmed(r) && |r| <= |s|
  {
    var t := TrimStart(s);
    TrimEndIsPrefix(t);
    TrimEnd(t)
  }

  /** Trimming only removes characters. */
  lemma TrimKeepsChars(s: string, c: char)
    requires c in Trim(s)
    ensures c in s
  {
    var t := TrimStart(s);
    var r := TrimEnd(t);
    TrimStartIsSuffix(s);
    TrimEndIsPrefix(t);
    var i :| 0 <= i < |r| && r[i] == c;
    assert t[i] == c;
    assert s[|s| - |t| + i] == c;
  }

  lemma {:induction false} TrimStartOfBlank(s: string)
    requires IsBlank(s)
    ensures TrimStart(s) == []
    decreases |s|
  {
    if |s| > 0 { TrimStartOfBlank(s[1..]); }
  }

  /** Trimming keeps exactly the non-blank core: the result is empty
      iff the input is blank. */
  lemma TrimEmptyIffBlank(s: string)
    ensures Trim(s) == [] <==> IsBlank(s)
  {
    if IsBlank(s) {
      TrimStartOfBlank(s);
    }
    var t := TrimStart(s);
    TrimStartIsSuffix(s);
    if TrimEnd(t) == [] {
      assert t[0..] == t;
      assert |t| == 0;
      assert s[..|s|] == s;
    }
  }

  lemma TrimOfTrimmed(s: string)
    requires IsTrimmed(s)
    ensures Trim(s) == s
  {
  }

  /** Kotlin's `s.split(d)` for a one-character delimiter: every part,
      including empty leading and trailing ones, is kept. */
  function Split(s: string, d: char): (parts: seq<string>)
    ensures |parts| >= 1
    decreases |s|
  {
    if |s| == 0 then [""]
    else
      var rest := Split(s[1..], d);
      if s[0] == d then [""] + rest else [[s[0]] + rest[0]] + rest[1..]
  }

  /** No part of a split holds the delimiter. */
  lemma {:induction false} SplitPartsFree(s: string, d: char, i: nat)
    requires i < |Split(s, d)|
    ensures d !in Split(s, d)[i]
    decreases |s|
  {
    if |s| > 0 {
      var rest := Split(s[1..], d);
      if s[0] == d {
        if i > 0 { SplitPartsFree(s[1..], d, i - 1); }
      } else if i == 0 {
        SplitPartsFree(s[1..], d, 0);
      } else {
        SplitPartsFree(s[1..], d, i);
      }
    }
  }

  /** The inverse of Split: the parts glued back with the delimiter. */
  function Join(parts: seq<string>, d: char): string
    requires |parts| >= 1
    decreases |parts|
  {
    if |parts| == 1 then parts[0] else parts[0] + [d] + Join(parts[1..], d)
  }

  /** Split of a part that holds no delimiter followed by the rest. */
  lemma {:induction false} SplitPrefix(p: string, d: char, rest: string, hasRest: bool)
    requires d !in p
    ensures Split(p + (if hasRest then [d] + rest else []), d)
         == [p] + (if hasRest then Split(rest, d) else [])
    decreases |p|
  {
    var tail := if hasRest then [d] + rest else [];
    if |p| == 0 {
      assert p + tail == tail;
      if hasRest { assert tail[1..] == rest; }
    } else {
      SplitPrefix(p[1..], d, rest, hasRest);
      assert (p + tail)[1..] == p[1..] + tail;
      assert [p[0]] + p[1..] == p;
    }
  }

  /** Joining delimiter-free parts and splitting again gives the parts back. */
  lemma {:induction false} SplitJoin(parts: seq<string>, d: char)
    requires |parts| >= 1
    requires forall i :: 0 <= i < |parts| ==> d !in parts[i]
    ensures Split(Join(parts, d), d) == parts
    decreases |parts|
  {
    if |parts| == 1 {
      SplitPrefix(parts[0], d, "", false);
      assert parts[0] + [] == parts[0];
    } else {
      SplitJoin(parts[1..], d);
      SplitPrefix(parts[0], d, Join(parts[1..], d), true);
      assert parts[0] + [d] + Join(parts[1..], d) == parts[0] + ([d] + Join(parts[1..], d));
      assert [parts[0]] + parts[1..] == parts;
    }
  }

  /** Splitting and joining again gives the string back. */
  lemma {:induction false} JoinSplit(s: string, d: char)
    ensures Join(Split(s, d), d) == s
    decreases |s|
  {
    if |s| > 0 {
      JoinSplit(s[1..], d);
      var rest := Split(s[1..], d);
      if s[0] != d && |rest| > 1 {
        assert rest == [rest[0]] + rest[1..];
        assert Join(rest, d) == rest[0] + [d] + Join(rest[1..], d);
      }
    }
  }

  predicate StartsWith(s: string, prefix: string) {
    |prefix| <= |s| && s[..|prefix|] == prefix
  }

  predicate IsDigit(c: char) { '0' <= c <= '9' }

  predicate AllDigits(s: string) {
    forall i :: 0 <= i < |s| ==> IsDigit(s[i])
  }

  function DigitValue(c: char): (v: nat)
    requires IsDigit(c)
    ensures v < 10
  {
    (c as int) - ('0' as int)
  }

  function DigitChar(v: nat): (c: char)
    requires v < 10
    ensures IsDigit(c) && DigitValue(c) == v
  {
    (('0' as int) + v) as char
  }

  /** The value of a string of decimal digits, most significant first. */
  function DigitsValue(s: string): nat
    requires AllDigits(s)
    decreases |s|
  {
    if |s| == 0 then 0 else DigitsValue(s[..|s| - 1]) * 10 + DigitValue(s[|s| - 1])
  }

  /** Decimal digits of a natural number, without leading zeros. */
  function NatToString(n: nat): (s: string)
    ensures |s| >= 1 && AllDigits(s)
    ensures |s| > 1 ==> s[0] != '0'
    decreases n
  {
    if n < 10 then [DigitChar(n)] else NatToString(n / 10) + [DigitChar(n % 10)]
  }

  /** Kotlin's Int.toString for any integer. */
  function IntToString(n: int): string {
    if n < 0 then "-" + NatToString(-n) else NatToString(n)
  }

  lemma {:induction false} DigitsOfNat(n: nat)
    ensures DigitsValue(NatToString(n)) == n
    decreases n
  {
    if n >= 10 {
      DigitsOfNat(n / 10);
      var s := NatToString(n);
      assert s[..|s| - 1] == NatToString(n / 10);
    }
  }

  /** Kotlin's String.toInt (Java's Integer.parseInt): an optional sign
      followed by at least one decimal digit, within the Int range. */
  function ParseInt32(s: string): Option<int32> {
    var negative := |s| > 0 && s[0] == '-';
    var digits := if |s| > 0 && (s[0] == '-' || s[0] == '+') then s[1..] else s;
    if |digits| == 0 || !AllDigits(digits) then None
    else
      var v: int := if negative then -(DigitsValue(digits) as int) else DigitsValue(digits);
      if MinInt32 <= v <= MaxInt32 then Some(v as int32) else None
  }

  /** Reading back a printed Int gives the same Int. */
  lemma IntToStringRoundTrip(n: int32)
    ensures ParseInt32(IntToString(n as int)) == Some(n)
  {
    var m: int := n as int;
    var s := IntToString(m);
    if m < 0 {
      var t := NatToString(-m);
      DigitsOfNat(-m);
      assert s == "-" + t && s[0] == '-' && s[1..] == t;
      assert IsDigit(t[0]);
    } else {
      DigitsOfNat(m);
      assert IsDigit(s[0]);
    }
  }

  /** Which strings Int.toString can produce: a minus sign only before a
      non-zero value, and no white space at either end. */
  lemma IntToStringShape(n: int)
    ensures |IntToString(n)| >= 1 && IsTrimmed(IntToString(n))
    ensures forall i :: 0 <= i < |IntToString(n)| ==> IntToString(n)[i] != '|'
  {
    var s := IntToString(n);
    if n < 0 {
      var t := NatToString(-n);
      assert s == "-" + t;
      forall i | 0 <= i < |s| ensures s[i] != '|' {
        if i > 0 { assert s[i] == t[i - 1]; }
      }
    }
  }

  /** ASCII upper-case letters mapped to lower case; everything else kept. */
  function LowerChar(c: char): (r: char)
    ensures 'A' <= c <= 'Z' ==> 'a' <= r <= 'z'
    ensures !('A' <= c <= 'Z') ==> r == c
  {
    if 'A' <= c <= 'Z' then ((c as int) - ('A' as int) + ('a' as int)) as char else c
  }

  function Lowercase(s: string): (r: string)
    ensures |r| == |s|
    ensures forall i :: 0 <= i < |s| ==> r[i] == LowerChar(s[i])
  {
    seq(|s|, i requires 0 <= i < |s| => LowerChar(s[i]))
  }

  /** `n` copies of `c`, as Kotlin's String.repeat. */
  function Repeat(c: char, n: nat): (r: string)
    ensures |r| == n && forall i :: 0 <= i < n ==> r[i] == c
  {
    seq(n, _ => c)
  }
}
