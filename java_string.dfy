/**
 * The few operations of java.lang.String (and StringBuilder.append(int))
 * that the service relies on, over `string` = `seq<char>`.
 * Case conversion is modelled for ASCII letters only.
 */
module JavaString {

  // ---------------------------------------------------------------------
  // indexOf / lastIndexOf
  // ---------------------------------------------------------------------

  /** `s.indexOf(c)`: the first position of `c`, or -1 when there is none. */
  function IndexOf(s: string, c: char): (i: int)
    ensures -1 <= i < |s|
    ensures i == -1 <==> c !in s
    ensures 0 <= i ==> s[i] == c && c !in s[..i]
  {
    if |s| == 0 then -1
    else if s[0] == c then 0
    else
      var j := IndexOf(s[1..], c);
      if j == -1 then -1
      else
        assert s[..j + 1] == [s[0]] + s[1..][..j];
        j + 1
  }

  /** `s.lastIndexOf(c)`: the last position of `c`, or -1 when there is none. */
  function LastIndexOf(s: string, c: char): (i: int)
    ensures -1 <= i < |s|
    ensures i == -1 <==> c !in s
    ensures 0 <= i ==> s[i] == c && c !in s[i + 1..]
  {
    if |s| == 0 then -1
    else if s[|s| - 1] == c then |s| - 1
    else
      var j := LastIndexOf(s[..|s| - 1], c);
      if j == -1 then
        assert s == s[..|s| - 1] + [s[|s| - 1]];
        -1
      else
        assert s[j + 1..] == s[..|s| - 1][j + 1..] + [s[|s| - 1]];
        j
  }

  // ---------------------------------------------------------------------
  // trim
  // ---------------------------------------------------------------------

  /** `String.trim` drops every character whose code is at most U+0020. */
  predicate IsTrimmable(c: char) { c <= ' ' }

  /** Index of the first character `trim` keeps (|s| when it keeps none). */
  function TrimStart(s: string): (n: nat)
    ensures n <= |s|
    ensures forall k :: 0 <= k < n ==> IsTrimmable(s[k])
    ensures n < |s| ==> !IsTrimmable(s[n])
  {
    if |s| == 0 || !IsTrimmable(s[0]) then 0
    else
      var n := TrimStart(s[1..]);
      assert forall k :: 1 <= k < n + 1 ==> s[k] == s[1..][k - 1];
      n + 1
  }

  /** One past the last character `trim` keeps (0 when it keeps none). */
  function TrimEnd(s: string): (m: nat)
    ensures m <= |s|
    ensures forall k :: m <= k < |s| ==> IsTrimmable(s[k])
    ensures 0 < m ==> !IsTrimmable(s[m - 1])
  {
    if |s| == 0 || !IsTrimmable(s[|s| - 1]) then |s|
    else TrimEnd(s[..|s| - 1])
  }

  /** `s.trim()`: the slice between the first and the last kept character. */
  function Trim(s: string): (r: string)
    ensures |r| <= |s|
    ensures r == [] || (!IsTrimmable(r[0]) && !IsTrimmable(r[|r| - 1]))
    ensures r == [] <==> forall k :: 0 <= k < |s| ==> IsTrimmable(s[k])
    ensures r != [] ==> r == s[TrimStart(s)..TrimEnd(s)]
  {
    var n, m := TrimStart(s), TrimEnd(s);
    if n == |s| then []
    else
      assert n < m;
      s[n..m]
  }

  /** `trim` leaves a string alone when neither end can be trimmed. */
  lemma TrimKeepsUntrimmableEnds(s: string)
    requires s != [] && !IsTrimmable(s[0]) && !IsTrimmable(s[|s| - 1])
    ensures Trim(s) == s
  {
    assert TrimStart(s) == 0;
    assert TrimEnd(s) == |s|;
  }

  // ---------------------------------------------------------------------
  // replace(char, char)
  // ---------------------------------------------------------------------

  /** `s.replace(from, to)` for one-character strings. */
  function ReplaceChar(s: string, from: char, to: char): (r: string)
    ensures |r| == |s|
    ensures forall k :: 0 <= k < |s| ==> r[k] == (if s[k] == from then to else s[k])
  {
    if |s| == 0 then []
    else [if s[0] == from then to else s[0]] + ReplaceChar(s[1..], from, to)
  }

  /** After replacing every `from` by some other character, none is left. */
  lemma ReplaceCharRemoves(s: string, from: char, to: char)
    requires from != to
    ensures from !in ReplaceChar(s, from, to)
  {
  }

  // ---------------------------------------------------------------------
  // contains
  // ---------------------------------------------------------------------

  /** `t` occurs in `s` starting at position `i`. */
  ghost predicate OccursAt(s: string, t: string, i: nat)
  {
    i + |t| <= |s| && s[i..i + |t|] == t
  }

  /** `s.contains(t)` */
  ghost predicate Contains(s: string, t: string)
  {
    exists i: nat :: OccursAt(s, t, i)
  }

  lemma ContainsInLeft(a: string, b: string, t: string)
    requires Contains(a, t)
    ensures Contains(a + b, t)
  {
    var i: nat :| OccursAt(a, t, i);
    assert (a + b)[i..i + |t|] == a[i..i + |t|];
    assert OccursAt(a + b, t, i);
  }

  lemma ContainsInRight(a: string, b: string, t: string)
    requires Contains(b, t)
    ensures Contains(a + b, t)
  {
    var i: nat :| OccursAt(b, t, i);
    assert (a + b)[|a| + i..|a| + i + |t|] == b[i..i + |t|];
    assert OccursAt(a + b, t, |a| + i);
  }

  lemma ContainsItself(t: string)
    ensures Contains(t, t)
  {
    assert OccursAt(t, t, 0);
  }

  /** An occurrence inside a prefix is an occurrence in the whole string. */
  lemma OccursAtExtend(p: string, s: string, t: string, i: nat)
    requires OccursAt(p, t, i) && |p| <= |s| && s[..|p|] == p
    ensures OccursAt(s, t, i)
  {
    assert s[i..i + |t|] == s[..|p|][i..i + |t|];
  }

  /** The middle part of a concatenation occurs right after the first. */
  lemma OccursAtMiddle(a: string, b: string, c: string)
    ensures OccursAt(a + b + c, b, |a|)
  {
    assert (a + b + c)[|a|..|a| + |b|] == b;
  }

  // ---------------------------------------------------------------------
  // endsWith
  // ---------------------------------------------------------------------

  /** `s.endsWith(suffix)`. */
  predicate EndsWith(s: string, suffix: string)
  {
    |suffix| <= |s| && s[|s| - |suffix|..] == suffix
  }

  /** A concatenation ends with its second part. */
  lemma EndsWithConcat(a: string, b: string)
    ensures EndsWith(a + b, b)
  {
    assert (a + b)[|a + b| - |b|..] == b;
  }

  // ---------------------------------------------------------------------
  // ASCII case conversion and equalsIgnoreCase
  // ---------------------------------------------------------------------

  predicate IsUpperAscii(c: char) { 'A' <= c <= 'Z' }
  predicate IsLowerAscii(c: char) { 'a' <= c <= 'z' }

  function LowerChar(c: char): (d: char)
    ensures !IsUpperAscii(d)
    ensures IsUpperAscii(c) ==> d as int == c as int + 32
    ensures !IsUpperAscii(c) ==> d == c
  {
    if IsUpperAscii(c) then (c as int + 32) as char else c
  }

  function UpperChar(c: char): (d: char)
    ensures !IsLowerAscii(d)
    ensures IsLowerAscii(c) ==> d as int == c as int - 32
    ensures !IsLowerAscii(c) ==> d == c
  {
    if IsLowerAscii(c) then (c as int - 32) as char else c
  }

  /** `s.toLowerCase()` restricted to ASCII letters. */
  function ToLowerAscii(s: string): (r: string)
    ensures |r| == |s|
    ensures forall k :: 0 <= k < |s| ==> r[k] == LowerChar(s[k])
  {
    if |s| == 0 then [] else [LowerChar(s[0])] + ToLowerAscii(s[1..])
  }

  /**
   * The per-character test of `String.regionMatches(true, ...)`: equal, or
   * equal after upper-casing, or equal after upper- then lower-casing.
   */
  predicate CharsEqualIgnoreCase(a: char, b: char)
  {
    a == b || UpperChar(a) == UpperChar(b) || LowerChar(UpperChar(a)) == LowerChar(UpperChar(b))
  }

  /** `a.equalsIgnoreCase(b)`: same length, and every position matches ignoring case. */
  predicate EqualsIgnoreCase(a: string, b: string)
  {
    |a| == |b| && (|a| == 0 || (CharsEqualIgnoreCase(a[0], b[0]) && EqualsIgnoreCase(a[1..], b[1..])))
  }

  /** `equalsIgnoreCase` holds exactly when the lengths agree and every position matches. */
  lemma {:induction false} EqualsIgnoreCaseByChars(a: string, b: string)
    ensures EqualsIgnoreCase(a, b) <==>
      |a| == |b| && forall k :: 0 <= k < |a| ==> CharsEqualIgnoreCase(a[k], b[k])
  {
    if |a| == |b| && |a| > 0 {
      EqualsIgnoreCaseByChars(a[1..], b[1..]);
      assert forall k :: 1 <= k < |a| ==> a[k] == a[1..][k - 1] && b[k] == b[1..][k - 1];
    }
  }

  lemma CharsEqualIgnoreCaseIsLowerEq(a: char, b: char)
    ensures CharsEqualIgnoreCase(a, b) <==> LowerChar(a) == LowerChar(b)
  {
  }

  /** Ignoring case means comparing the lower-cased strings, in both directions. */
  lemma {:induction false} EqualsIgnoreCaseIsLowerEq(a: string, b: string)
    ensures EqualsIgnoreCase(a, b) <==> ToLowerAscii(a) == ToLowerAscii(b)
  {
    if |a| == |b| && |a| > 0 {
      EqualsIgnoreCaseIsLowerEq(a[1..], b[1..]);
      CharsEqualIgnoreCaseIsLowerEq(a[0], b[0]);
      assert ToLowerAscii(a) == [LowerChar(a[0])] + ToLowerAscii(a[1..]);
      assert ToLowerAscii(b) == [LowerChar(b[0])] + ToLowerAscii(b[1..]);
      if ToLowerAscii(a) == ToLowerAscii(b) {
        assert ToLowerAscii(a)[1..] == ToLowerAscii(a[1..]);
        assert ToLowerAscii(b)[1..] == ToLowerAscii(b[1..]);
      }
    } else if |a| != |b| {
      assert |ToLowerAscii(a)| != |ToLowerAscii(b)|;
    }
  }

  // ---------------------------------------------------------------------
  // Integer.toString for non-negative numbers, and its inverse
  // ---------------------------------------------------------------------

  function DigitChar(d: nat): (c: char)
    requires d < 10
    ensures '0' <= c <= '9'
  {
    ('0' as int + d) as char
  }

  /** The decimal rendering that `StringBuilder.append(int)` produces for `n >= 0`. */
  function DecimalString(n: nat): (s: string)
    ensures |s| >= 1
    ensures forall k :: 0 <= k < |s| ==> '0' <= s[k] <= '9'
    ensures |s| > 1 ==> s[0] != '0'
  {
    if n < 10 then [DigitChar(n)] else DecimalString(n / 10) + [DigitChar(n % 10)]
  }

  /** Reads a string of decimal digits back as a number. */
  function ParseDecimal(s: string): nat
    requires forall k :: 0 <= k < |s| ==> '0' <= s[k] <= '9'
  {
    if |s| == 0 then 0
    else ParseDecimal(s[..|s| - 1]) * 10 + (s[|s| - 1] as int - '0' as int)
  }

  /** Reading a decimal rendering gives back the number. */
  lemma {:induction false} ParseDecimalString(n: nat)
    ensures ParseDecimal(DecimalString(n)) == n
  {
    if n >= 10 {
      ParseDecimalString(n / 10);
      var s := DecimalString(n);
      assert s[..|s| - 1] == DecimalString(n / 10);
    }
  }

  /** Different numbers are rendered differently. */
  lemma DecimalStringInjective(m: nat, n: nat)
    requires DecimalString(m) == DecimalString(n)
    ensures m == n
  {
    ParseDecimalString(m);
    ParseDecimalString(n);
  }
}
