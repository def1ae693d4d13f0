/**
 The few Python string operations the profiler uses, on `string` = `seq<char>`
 (a Python `str` is a sequence of code points, and so is a Dafny string):
 the substring test `t in s`, `s.replace(a, b)` and `s.replace(c, "")` for
 single characters, and the slices `s[:n]` and `s[-n:]`.
 */
module Text {

  /** `t` is a suffix of `s`. */
  predicate IsSuffix(t: string, s: string)
  {
    |t| <= |s| && s[|s| - |t|..] == t
  }

  /** Python's `t in s` on strings: `t` occurs in `s` as a contiguous block at some offset. */
  predicate Occurs(t: string, s: string)
  {
    exists k :: 0 <= k <= |s| && OccursAtOffset(t, s, k)
  }

  /** `t` occurs in `s` starting at offset `k`. */
  predicate OccursAtOffset(t: string, s: string, k: nat)
  {
    k + |t| <= |s| && s[k..k + |t|] == t
  }

  /** A block found at offset `k` is an occurrence. */
  lemma OccursAt(t: string, s: string, k: nat)
    requires k + |t| <= |s| && s[k..k + |t|] == t
    ensures Occurs(t, s)
  {
    assert OccursAtOffset(t, s, k);
  }

  /** A string whose first character is absent from `s` does not occur in `s`. */
  lemma AbsentHeadNeverOccurs(t: string, s: string)
    requires |t| > 0 && t[0] !in s
    ensures !Occurs(t, s)
  {
    forall k | 0 <= k <= |s| ensures !OccursAtOffset(t, s, k) {
      if k + |t| <= |s| {
        assert s[k..k + |t|][0] == s[k];
      }
    }
  }

  /** Python's `s.replace(a, b)` for single characters `a` and `b`. */
  function ReplaceChar(s: string, a: char, b: char): (r: string)
    ensures |r| == |s|
    ensures forall i :: 0 <= i < |s| ==> r[i] == (if s[i] == a then b else s[i])
    ensures a != b ==> a !in r
    ensures a !in s ==> r == s
    decreases |s|
  {
    if |s| == 0 then "" else [if s[0] == a then b else s[0]] + ReplaceChar(s[1..], a, b)
  }

  /** Python's `s.replace(c, "")`: every `c` is dropped, the rest keeps its order. */
  function RemoveChar(s: string, c: char): (r: string)
    ensures c !in r
    ensures |r| == |s| - multiset(s)[c]
    ensures forall d :: d != c ==> multiset(r)[d] == multiset(s)[d]
    ensures c !in s ==> r == s
    decreases |s|
  {
    if |s| == 0 then ""
    else
      assert s == [s[0]] + s[1..];
      if s[0] == c then RemoveChar(s[1..], c) else [s[0]] + RemoveChar(s[1..], c)
  }

  /**
   Dropping a character distributes over concatenation, so the characters
   kept stay in their order; with the one-character cases this fixes the result.
   */
  lemma {:induction false} RemoveCharAppend(a: string, b: string, c: char)
    ensures RemoveChar(a + b, c) == RemoveChar(a, c) + RemoveChar(b, c)
    decreases |a|
  {
    if |a| == 0 {
      assert a + b == b;
    } else {
      assert (a + b)[0] == a[0] && (a + b)[1..] == a[1..] + b;
      RemoveCharAppend(a[1..], b, c);
    }
  }

  /** Drops every character of `cs`; the rest keeps its order. */
  function Strip(s: string, cs: set<char>): (r: string)
    ensures forall i :: 0 <= i < |r| ==> r[i] !in cs
    ensures forall d :: d !in cs ==> multiset(r)[d] == multiset(s)[d]
    ensures (forall i :: 0 <= i < |s| ==> s[i] !in cs) ==> r == s
    decreases |s|
  {
    if |s| == 0 then ""
    else
      assert s == [s[0]] + s[1..];
      if s[0] in cs then Strip(s[1..], cs) else [s[0]] + Strip(s[1..], cs)
  }

  /** Stripping distributes over concatenation: the characters kept stay in their order. */
  lemma {:induction false} StripAppend(a: string, b: string, cs: set<char>)
    ensures Strip(a + b, cs) == Strip(a, cs) + Strip(b, cs)
    decreases |a|
  {
    if |a| == 0 {
      assert a + b == b;
    } else {
      assert (a + b)[0] == a[0] && (a + b)[1..] == a[1..] + b;
      StripAppend(a[1..], b, cs);
    }
  }

  /** A prefix holds no character its string lacks. */
  lemma PrefixLacks(t: string, s: string, c: char)
    requires t <= s && c !in s
    ensures c !in t
  {
  }

  /** A character of a string occurs at some index of it. */
  lemma CountedOccurs(s: string, c: char)
    requires multiset(s)[c] > 0
    ensures exists i :: 0 <= i < |s| && s[i] == c
  {
    assert c in multiset(s);
    assert c in s;
  }

  /** Python's `s[:n]` for `n >= 0`: the first `n` characters, or all of `s`. */
  function Take(s: string, n: nat): (r: string)
    ensures r <= s
    ensures |r| <= n
    ensures |r| == n || r == s
  {
    if |s| <= n then s else s[..n]
  }

  /**
   Python's `s[-n:]` for `n > 0`: the last `n` characters, or all of `s`.
   (`n == 0` is excluded: Python reads `s[-0:]` as the whole string.)
   */
  function TakeLast(s: string, n: nat): (r: string)
    requires n > 0
    ensures IsSuffix(r, s)
    ensures |r| <= n
    ensures |r| == n || r == s
  {
    if |s| <= n then s else s[|s| - n..]
  }
}
