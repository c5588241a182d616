/** String helpers that the Java code takes from java.lang.String and
    commons-lang: substring search, first index of a character, blankness,
    decimal printing of integers and String.replace. */
module Text {

  /** t occurs in s starting at position i. */
  predicate OccursAt(s: string, t: string, i: int)
  {
    0 <= i && i + |t| <= |s| && s[i..i + |t|] == t
  }

  /** String.contains */
  predicate Contains(s: string, t: string)
  {
    exists i | 0 <= i <= |s| - |t| :: OccursAt(s, t, i)
  }

  /** String.indexOf(char): the first position of c in s, or -1. */
  function IndexOf(s: string, c: char): (r: int)
    ensures -1 <= r < |s|
    ensures r == -1 <==> c !in s
    ensures 0 <= r ==> s[r] == c && c !in s[..r]
  {
    if |s| == 0 then -1
    else if s[0] == c then 0
    else
      var k := IndexOf(s[1..], c);
      assert s[1..] == s[1..][..];
      if k == -1 then -1
      else
        assert s[..k + 1] == [s[0]] + s[1..][..k];
        k + 1
  }

  /** Character.isWhitespace */
  predicate IsWhitespace(c: char)
  {
    c == ' ' || c == '\t' || c == '\n' || c == '\r' || c == '\U{000B}' || c == '\U{000C}'
    || ('\U{001C}' <= c <= '\U{001F}') || c == '\U{1680}' || ('\U{2000}' <= c <= '\U{2006}')
    || ('\U{2008}' <= c <= '\U{200A}') || c == '\U{2028}' || c == '\U{2029}' || c == '\U{205F}'
    || c == '\U{3000}'
  }

  /** StringUtils.isBlank for a non-null string: empty or only whitespace. */
  predicate IsBlank(s: string)
  {
    forall k | 0 <= k < |s| :: IsWhitespace(s[k])
  }

  function DigitChar(d: nat): char
    requires d < 10
  {
    "0123456789"[d]
  }

  predicate IsDigit(c: char)
  {
    '0' <= c <= '9'
  }

  function DigitValue(c: char): nat
    requires IsDigit(c)
  {
    (c as int - '0' as int) as nat
  }

  /** Decimal digits of n, most significant first (Integer.toString of a non-negative value). */
  function NatToString(n: nat): (s: string)
    ensures |s| > 0
    ensures forall k | 0 <= k < |s| :: IsDigit(s[k])
    decreases n
  {
    if n < 10 then [DigitChar(n)] else NatToString(n / 10) + [DigitChar(n % 10)]
  }

  /** Integer.toString */
  function IntToString(n: int): (s: string)
  {
    if n < 0 then "-" + NatToString(-n) else NatToString(n)
  }

  /** The value of a string of decimal digits. */
  function DigitsValue(s: string): nat
    requires forall k | 0 <= k < |s| :: IsDigit(s[k])
  {
    if |s| == 0 then 0 else DigitsValue(s[..|s| - 1]) * 10 + DigitValue(s[|s| - 1])
  }

  lemma {:induction false} DigitsOfNatToString(n: nat)
    ensures DigitsValue(NatToString(n)) == n
    decreases n
  {
    var s := NatToString(n);
    if n >= 10 {
      DigitsOfNatToString(n / 10);
      assert s[..|s| - 1] == NatToString(n / 10);
    }
  }

  /** Distinct integers print differently, so index-scoped names built from them never clash. */
  lemma IntToStringInjective(a: int, b: int)
    requires IntToString(a) == IntToString(b)
    ensures a == b
  {
    if a < 0 {
      NegativeToString(a);
    } else {
      DigitsOfNatToString(a);
    }
    if b < 0 {
      NegativeToString(b);
    } else {
      DigitsOfNatToString(b);
    }
  }

  lemma NegativeToString(a: int)
    requires a < 0
    ensures IntToString(a)[0] == '-'
    ensures DigitsValue(IntToString(a)[1..]) == -a
  {
    var n := NatToString(-a);
    assert IntToString(a)[1..] == n;
    DigitsOfNatToString(-a);
  }

  /** String.replace(target, replacement): every non-overlapping occurrence of t,
      left to right, is replaced by r. */
  function ReplaceAll(s: string, t: string, r: string): string
    requires |t| > 0
    decreases |s|
  {
    if |s| < |t| then s
    else if s[..|t|] == t then r + ReplaceAll(s[|t|..], t, r)
    else [s[0]] + ReplaceAll(s[1..], t, r)
  }

  /** With no occurrence of t, replacing changes nothing: the `contains` guard
      before `replace` is redundant. */
  lemma {:induction false} ReplaceAllAbsent(s: string, t: string, r: string)
    requires |t| > 0
    requires !Contains(s, t)
    ensures ReplaceAll(s, t, r) == s
    decreases |s|
  {
    if |s| >= |t| {
      if s[..|t|] == t {
        assert OccursAt(s, t, 0);
      }
      if Contains(s[1..], t) {
        var i :| 0 <= i <= |s[1..]| - |t| && OccursAt(s[1..], t, i);
        assert s[i + 1..i + 1 + |t|] == s[1..][i..i + |t|];
        assert OccursAt(s, t, i + 1);
      }
      ReplaceAllAbsent(s[1..], t, r);
    }
  }

  /** i is the leftmost position where t occurs in s. */
  predicate FirstOccurrence(s: string, t: string, i: int)
  {
    OccursAt(s, t, i) && forall j | 0 <= j < i :: !OccursAt(s, t, j)
  }

  /** The first occurrence of t is the first thing replaced: everything before
      it is kept and the search resumes after it. */
  lemma ReplaceAllFirst(s: string, t: string, r: string, i: nat)
    requires |t| > 0
    requires FirstOccurrence(s, t, i)
    ensures ReplaceAll(s, t, r) == s[..i] + r + ReplaceAll(s[i + |t|..], t, r)
  {
    ReplaceAllBefore(s, t, r, 0, i);
    assert s[0..] == s && s[0..i] == s[..i];
  }

  /** From a position j up to the first occurrence at i, the text is kept. */
  lemma {:induction false} ReplaceAllBefore(s: string, t: string, r: string, j: nat, i: nat)
    requires |t| > 0 && j <= i && OccursAt(s, t, i)
    requires forall k | j <= k < i :: !OccursAt(s, t, k)
    ensures ReplaceAll(s[j..], t, r) == s[j..i] + r + ReplaceAll(s[i + |t|..], t, r)
    decreases i - j
  {
    var rest := ReplaceAll(s[i + |t|..], t, r);
    if j == i {
      assert s[i..][..|t|] == t;
      assert s[i..][|t|..] == s[i + |t|..];
      assert ReplaceAll(s[i..], t, r) == r + rest;
      assert s[i..i] + r == r;
    } else {
      ReplaceAllBefore(s, t, r, j + 1, i);
      ReplaceAllSkip(s, t, r, j);
      assert s[j..i] == [s[j]] + s[j + 1..i];
      assert [s[j]] + (s[j + 1..i] + r + rest) == s[j..i] + r + rest;
    }
  }

  /** Where t does not start, the character there is kept as it is. */
  lemma ReplaceAllSkip(s: string, t: string, r: string, j: nat)
    requires |t| > 0 && j + |t| <= |s| && !OccursAt(s, t, j)
    ensures ReplaceAll(s[j..], t, r) == [s[j]] + ReplaceAll(s[j + 1..], t, r)
  {
    assert s[j..][..|t|] == s[j..j + |t|];
    assert s[j..][1..] == s[j + 1..];
  }
}
