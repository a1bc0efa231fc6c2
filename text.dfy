/**
 * String helpers shared by the encoder and the logger: comma joining (the
 * `first` flag of the Java builders), lower-case hex digits, the JDK's
 * `trim`, `isBlank`, `contains` and `toLowerCase(Locale.ROOT)` as far as the
 * model needs them, and decimal rendering of an `int`.
 */
module Text {

  /** Concatenation is associative (stated once, for the proofs that regroup texts). */
  lemma AppendAssoc<T>(a: seq<T>, b: seq<T>, c: seq<T>)
    ensures (a + b) + c == a + (b + c)
  {
    assert forall i :: 0 <= i < |a| + |b| + |c| ==>
      ((a + b) + c)[i] == (if i < |a| then a[i] else if i < |a| + |b| then b[i - |a|] else c[i - |a| - |b|]);
  }

  /** The parts separated by single commas, with no comma before the first part or after the last. */
  function JoinComma(parts: seq<string>): string
  {
    if |parts| == 0 then []
    else if |parts| == 1 then parts[0]
    else parts[0] + "," + JoinComma(parts[1..])
  }

  /** Appending one more part adds a comma exactly when something was already written. */
  lemma {:induction false} JoinCommaSnoc(parts: seq<string>, x: string)
    ensures JoinComma(parts + [x]) == if parts == [] then x else JoinComma(parts) + "," + x
  {
    if |parts| == 0 {
      assert parts + [x] == [x];
    } else if |parts| == 1 {
      assert (parts + [x])[1..] == [x];
    } else {
      assert (parts + [x])[1..] == parts[1..] + [x];
      JoinCommaSnoc(parts[1..], x);
    }
  }

  /** A joined text followed by `after`, split after its first part. */
  lemma JoinCommaThen(parts: seq<string>, after: string)
    requires |parts| > 0
    ensures JoinComma(parts) + after
         == parts[0] + (if |parts| == 1 then after else "," + (JoinComma(parts[1..]) + after))
  {
    if |parts| > 1 {
      assert JoinComma(parts) == parts[0] + "," + JoinComma(parts[1..]);
      assert parts[0] + "," + JoinComma(parts[1..]) + after == parts[0] + ("," + (JoinComma(parts[1..]) + after));
    }
  }

  /** The same, seen from a builder that already holds `open` and appends a separator then the part. */
  lemma JoinCommaAppend(open: string, parts: seq<string>, x: string)
    ensures open + JoinComma(parts + [x]) == (if parts == [] then open else open + JoinComma(parts) + ",") + x
  {
    JoinCommaSnoc(parts, x);
    if parts != [] {
      assert open + (JoinComma(parts) + "," + x) == open + JoinComma(parts) + "," + x;
    }
  }

  // ---------------------------------------------------------------------------
  // Hexadecimal digits

  /** The lower-case hex digit of `d`, the inverse of `HexValue` on `0..15`. */
  function HexDigit(d: nat): (c: char)
    requires d < 16
    ensures '0' <= c <= '9' || 'a' <= c <= 'f'
    ensures HexValue(c) == d
  {
    if d < 10 then ('0' as int + d) as char else ('a' as int + d - 10) as char
  }

  /** The value of a hex digit of either case, or -1 for any other char. */
  function HexValue(c: char): (r: int)
    ensures -1 <= r < 16
    ensures r >= 0 <==> ('0' <= c <= '9' || 'a' <= c <= 'f' || 'A' <= c <= 'F')
  {
    if '0' <= c <= '9' then c as int - '0' as int
    else if 'a' <= c <= 'f' then c as int - 'a' as int + 10
    else if 'A' <= c <= 'F' then c as int - 'A' as int + 10
    else -1
  }

  /** Four lower-case hex digits, most significant first: Java's `%04x` for a `char`. */
  function Hex4(n: nat): (r: string)
    requires n < 0x1_0000
    ensures |r| == 4
    ensures forall i :: 0 <= i < 4 ==> r[i] >= '0' && HexValue(r[i]) >= 0
    ensures ((HexValue(r[0]) * 16 + HexValue(r[1])) * 16 + HexValue(r[2])) * 16 + HexValue(r[3]) == n
  {
    var q1 := n / 16;
    var q2 := q1 / 16;
    var q3 := q2 / 16;
    [HexDigit(q3), HexDigit(q2 % 16), HexDigit(q1 % 16), HexDigit(n % 16)]
  }

  // ---------------------------------------------------------------------------
  // Lower-casing (ASCII letters only)

  function LowerChar(c: char): char
  {
    if 'A' <= c <= 'Z' then (c as int + 32) as char else c
  }

  predicate IsUpperAscii(c: char)
  {
    'A' <= c <= 'Z'
  }

  /** `toLowerCase(Locale.ROOT)` restricted to ASCII: `A`..`Z` become `a`..`z`, nothing else changes. */
  function AsciiLower(s: string): (r: string)
    ensures |r| == |s|
    ensures forall i :: 0 <= i < |s| ==> r[i] == LowerChar(s[i])
  {
    seq(|s|, i requires 0 <= i < |s| => LowerChar(s[i]))
  }

  /** Lower-casing leaves no upper-case letter and is idempotent. */
  lemma AsciiLowerIsLower(s: string)
    ensures forall i :: 0 <= i < |s| ==> !IsUpperAscii(AsciiLower(s)[i])
    ensures AsciiLower(AsciiLower(s)) == AsciiLower(s)
  {
  }

  // ---------------------------------------------------------------------------
  // String.trim(): strips every char at or below U+0020 from both ends

  predicate IsTrimmable(c: char)
  {
    c <= ' '
  }

  predicate AllTrimmable(s: string)
  {
    forall i :: 0 <= i < |s| ==> IsTrimmable(s[i])
  }

  function TrimStart(s: string): (r: string)
    ensures |r| <= |s|
    ensures r == s[|s| - |r|..]
    ensures r == [] || !IsTrimmable(r[0])
  {
    if |s| > 0 && IsTrimmable(s[0]) then TrimStart(s[1..]) else s
  }

  function TrimEnd(s: string): (r: string)
    ensures |r| <= |s|
    ensures r == s[..|r|]
    ensures r == [] || !IsTrimmable(r[|r| - 1])
  {
    if |s| > 0 && IsTrimmable(s[|s| - 1]) then TrimEnd(s[..|s| - 1]) else s
  }

  /** Java's `String.trim()`. */
  function Trim(s: string): string
  {
    TrimEnd(TrimStart(s))
  }

  lemma {:induction false} TrimStartSkipsPadding(pre: string, x: string)
    requires AllTrimmable(pre)
    ensures TrimStart(pre + x) == TrimStart(x)
  {
    if pre != [] {
      assert (pre + x)[1..] == pre[1..] + x;
      TrimStartSkipsPadding(pre[1..], x);
    } else {
      assert pre + x == x;
    }
  }

  lemma {:induction false} TrimEndSkipsPadding(x: string, post: string)
    requires AllTrimmable(post)
    ensures TrimEnd(x + post) == TrimEnd(x)
  {
    if post != [] {
      var n := |post| - 1;
      assert (x + post)[..|x + post| - 1] == x + post[..n];
      TrimEndSkipsPadding(x, post[..n]);
    } else {
      assert x + post == x;
    }
  }

  lemma {:induction false} TrimStartAppend(s: string, post: string)
    ensures TrimStart(s + post) == if AllTrimmable(s) then TrimStart(post) else TrimStart(s) + post
  {
    if s == [] {
      assert s + post == post;
    } else if IsTrimmable(s[0]) {
      assert (s + post)[1..] == s[1..] + post;
      TrimStartAppend(s[1..], post);
      assert AllTrimmable(s) == AllTrimmable(s[1..]);
    }
  }

  lemma {:induction false} TrimStartOfPadding(s: string)
    requires AllTrimmable(s)
    ensures TrimStart(s) == []
  {
    if s != [] {
      TrimStartOfPadding(s[1..]);
    }
  }

  /** Leading and trailing whitespace (and other chars up to U+0020) never reach the trimmed text. */
  lemma TrimIgnoresPadding(pre: string, s: string, post: string)
    requires AllTrimmable(pre) && AllTrimmable(post)
    ensures Trim(pre + s + post) == Trim(s)
  {
    assert pre + s + post == pre + (s + post);
    TrimStartSkipsPadding(pre, s + post);
    TrimStartAppend(s, post);
    if AllTrimmable(s) {
      TrimStartOfPadding(post);
      TrimStartOfPadding(s);
    } else {
      TrimEndSkipsPadding(TrimStart(s), post);
    }
  }

  lemma {:induction false} TrimStartLowerCommute(s: string)
    ensures TrimStart(AsciiLower(s)) == AsciiLower(TrimStart(s))
  {
    if |s| > 0 && IsTrimmable(s[0]) {
      assert AsciiLower(s)[1..] == AsciiLower(s[1..]);
      TrimStartLowerCommute(s[1..]);
    }
  }

  lemma {:induction false} TrimEndLowerCommute(s: string)
    ensures TrimEnd(AsciiLower(s)) == AsciiLower(TrimEnd(s))
  {
    if |s| > 0 && IsTrimmable(s[|s| - 1]) {
      assert AsciiLower(s)[..|s| - 1] == AsciiLower(s[..|s| - 1]);
      TrimEndLowerCommute(s[..|s| - 1]);
    }
  }

  /** Trimming and lower-casing commute: neither moves a char across U+0020. */
  lemma TrimLowerCommute(s: string)
    ensures Trim(AsciiLower(s)) == AsciiLower(Trim(s))
  {
    TrimStartLowerCommute(s);
    TrimEndLowerCommute(TrimStart(s));
  }

  // ---------------------------------------------------------------------------
  // String.isBlank(): empty or only Character.isWhitespace code points

  /**
   * `Character.isWhitespace`: the Unicode space, line and paragraph separators
   * other than the three no-break spaces, plus U+0009..U+000D and U+001C..U+001F.
   */
  predicate IsJavaWhitespace(c: char)
  {
    || '\t' <= c <= '\r'
    || '\U{001C}' <= c <= ' '
    || c == '\U{1680}'
    || ('\U{2000}' <= c <= '\U{200A}' && c != '\U{2007}')
    || c == '\U{2028}' || c == '\U{2029}'
    || c == '\U{205F}'
    || c == '\U{3000}'
  }

  /** Java's `String.isBlank()`. */
  predicate IsBlank(s: string)
  {
    forall i :: 0 <= i < |s| ==> IsJavaWhitespace(s[i])
  }

  // ---------------------------------------------------------------------------
  // String.contains

  predicate StartsWith(s: string, prefix: string)
  {
    |prefix| <= |s| && s[..|prefix|] == prefix
  }

  /** Java's `String.contains`: `sub` occurs at some position of `s`. */
  predicate Contains(s: string, sub: string)
  {
    StartsWith(s, sub) || (|s| > 0 && Contains(s[1..], sub))
  }

  /** An occurrence at any position is found. */
  lemma {:induction false} ContainsAt(s: string, sub: string, i: nat)
    requires i + |sub| <= |s| && s[i..i + |sub|] == sub
    ensures Contains(s, sub)
  {
    if i > 0 {
      assert s[1..][i - 1..i - 1 + |sub|] == s[i..i + |sub|];
      ContainsAt(s[1..], sub, i - 1);
    }
  }

  /** A text in which the first char of `sub` occurs at no position where `sub` would fit does not contain it. */
  lemma {:induction false} NotContains(s: string, sub: string)
    requires sub != []
    requires forall i :: 0 <= i && i + |sub| <= |s| ==> s[i] != sub[0]
    ensures !Contains(s, sub)
  {
    if |sub| <= |s| {
      assert s[..|sub|][0] == s[0] != sub[0];
    }
    if |s| > 0 {
      forall i | 0 <= i && i + |sub| <= |s| - 1
        ensures s[1..][i] != sub[0]
      {
        assert s[1..][i] == s[i + 1];
      }
      NotContains(s[1..], sub);
    }
  }

  /** Text with no padding at either end is its own trim. */
  lemma TrimUnpadded(s: string)
    requires s == [] || (!IsTrimmable(s[0]) && !IsTrimmable(s[|s| - 1]))
    ensures Trim(s) == s
  {
  }

  /** A text that differs from `prefix` at some position within both does not start with it. */
  lemma DiffersFrom(s: string, prefix: string, i: nat)
    requires i < |s| && i < |prefix| && s[i] != prefix[i]
    ensures !StartsWith(s, prefix)
  {
    if |prefix| <= |s| {
      assert s[..|prefix|][i] == s[i];
    }
  }

  /** A text contains whatever is concatenated into its middle. */
  lemma ContainsMiddle(a: string, b: string, c: string)
    ensures Contains(a + b + c, b)
  {
    var s := a + b + c;
    assert s[|a|..|a| + |b|] == b;
    ContainsAt(s, b, |a|);
  }

  // ---------------------------------------------------------------------------
  // Integer.toString

  function DigitChar(d: nat): char
    requires d < 10
  {
    "0123456789"[d]
  }

  function NatString(n: nat): string
  {
    if n < 10 then [DigitChar(n)] else NatString(n / 10) + [DigitChar(n % 10)]
  }

  /** Decimal text of an `int`, with a leading `-` when negative (string concatenation of an `int`). */
  function DecimalString(n: int): string
  {
    if n < 0 then "-" + NatString(-n) else NatString(n)
  }
}
