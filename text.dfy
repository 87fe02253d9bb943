/** The string operations the source relies on: `in` on strings, ASCII
    `lower()`, `endswith`, `"sep".join(...)` and `str(n)` for a natural. */
module Text {

  /** Python's `t in s`: `t` occurs in `s` as a contiguous run. */
  predicate Contains(s: string, t: string)
    decreases |s|
  {
    t <= s || (|s| > 0 && Contains(s[1..], t))
  }

  /** `Contains` holds exactly when some window of `s` equals `t`. */
  lemma {:induction false} ContainsAt(s: string, t: string, i: nat)
    requires i + |t| <= |s| && s[i..i + |t|] == t
    ensures Contains(s, t)
    decreases i
  {
    if i == 0 {
      assert t <= s;
    } else {
      assert s[1..][i - 1..i - 1 + |t|] == t;
      ContainsAt(s[1..], t, i - 1);
    }
  }

  /** A string occurs in any text built around it. */
  lemma ContainsMiddle(p: string, s: string, q: string)
    ensures Contains(p + s + q, s)
  {
    assert (p + s + q)[|p|..|p| + |s|] == s;
    ContainsAt(p + s + q, s, |p|);
  }

  /** What occurs in `s` still occurs once text is put before and after it. */
  lemma {:induction false} ContainsInContext(p: string, s: string, q: string, t: string)
    requires Contains(s, t)
    ensures Contains(p + s + q, t)
    decreases |s|
  {
    if t <= s {
      assert (p + s + q)[|p|..|p| + |t|] == t;
      ContainsAt(p + s + q, t, |p|);
    } else {
      ContainsInContext(p + [s[0]], s[1..], q, t);
      assert p + [s[0]] + s[1..] + q == p + s + q;
    }
  }

  /** A string occurs in any text built around it. */
  lemma ContainsInside(p: string, s: string, q1: string, q2: string)
    ensures Contains(p + s + q1 + q2, s)
  {
    assert (p + s + q1 + q2)[|p|..|p| + |s|] == s;
    ContainsAt(p + s + q1 + q2, s, |p|);
  }

  /** The same, for text built as a prefix before a three-part tail. */
  lemma ContainsNested(p: string, s: string, q1: string, q2: string)
    ensures Contains(p + (s + q1 + q2), s)
  {
    assert (p + (s + q1 + q2))[|p|..|p| + |s|] == s;
    ContainsAt(p + (s + q1 + q2), s, |p|);
  }

  /** What occurs in `s` still occurs once text is put before it. */
  lemma {:induction false} ContainsAfter(p: string, s: string, t: string)
    requires Contains(s, t)
    ensures Contains(p + s, t)
    decreases |p|
  {
    if |p| == 0 {
      assert p + s == s;
    } else {
      ContainsAfter(p[1..], s, t);
      assert (p + s)[1..] == p[1..] + s;
    }
  }

  function LowerChar(c: char): char {
    if 'A' <= c <= 'Z' then (c as int + 32) as char else c
  }

  /** Python's `s.lower()`, restricted to the ASCII letters. */
  function Lower(s: string): (r: string)
    ensures |r| == |s|
    ensures forall i :: 0 <= i < |s| ==> r[i] == LowerChar(s[i])
  {
    if |s| == 0 then "" else [LowerChar(s[0])] + Lower(s[1..])
  }

  /** Python's `s.endswith(suffix)`. */
  predicate EndsWith(s: string, suffix: string) {
    |suffix| <= |s| && s[|s| - |suffix|..] == suffix
  }

  /** Python's `sep.join(parts)`. */
  function Join(parts: seq<string>, sep: string): string
    decreases |parts|
  {
    if |parts| == 0 then ""
    else if |parts| == 1 then parts[0]
    else parts[0] + sep + Join(parts[1..], sep)
  }

  /** Every part of a join occurs in it. */
  lemma {:induction false} JoinContainsParts(parts: seq<string>, sep: string, i: nat)
    requires i < |parts|
    ensures Contains(Join(parts, sep), parts[i])
    decreases |parts|
  {
    if |parts| == 1 {
      assert parts[0][0..|parts[0]|] == parts[0];
      ContainsAt(parts[0], parts[0], 0);
    } else if i == 0 {
      ContainsInside([], parts[0], sep, Join(parts[1..], sep));
      assert [] + parts[0] + sep + Join(parts[1..], sep) == Join(parts, sep);
    } else {
      JoinContainsParts(parts[1..], sep, i - 1);
      ContainsAfter(parts[0] + sep, Join(parts[1..], sep), parts[i]);
    }
  }

  function DigitChar(d: nat): char
    requires d < 10
  {
    "0123456789"[d]
  }

  /** Python's `str(n)` for a natural number: its decimal digits. */
  function NatToString(n: nat): (r: string)
    ensures |r| > 0
    ensures forall i :: 0 <= i < |r| ==> '0' <= r[i] <= '9'
  {
    if n < 10 then [DigitChar(n)] else NatToString(n / 10) + [DigitChar(n % 10)]
  }
}
