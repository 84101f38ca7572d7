/** String primitives the URL rules are built from: prefix test, substring
    search (the meaning of `String.prototype.includes`), counting
    (`url.match(/\./g).length` counts one character) and ASCII lower-casing
    (`toLowerCase`, restricted to the letters A-Z). Strings are sequences of characters. */
module Strings {

  /** `s` begins with `prefix` (`String.prototype.startsWith`). */
  predicate StartsWith(s: string, prefix: string) {
    |prefix| <= |s| && s[..|prefix|] == prefix
  }

  /** `t` occurs in `s` starting at index `i`. */
  predicate OccursAt(s: string, t: string, i: int) {
    0 <= i && i + |t| <= |s| && s[i..i + |t|] == t
  }

  /** `s.includes(t)`: `t` occurs somewhere in `s`; nothing longer than `s`
      occurs in it. */
  predicate Contains(s: string, t: string)
    ensures Contains(s, t) ==> |t| <= |s|
  {
    exists i :: 0 <= i <= |s| - |t| && OccursAt(s, t, i)
  }

  /** The empty string occurs in every string (`s.includes("")` is true). */
  lemma ContainsEmpty(s: string, t: string)
    ensures |t| == 0 ==> Contains(s, t)
  {
    if |t| == 0 {
      assert OccursAt(s, t, 0);
    }
  }

  /** A string that begins with `prefix` includes it: a prefix is an
      occurrence at index 0. */
  lemma StartsWithContains(s: string, prefix: string)
    ensures StartsWith(s, prefix) ==> Contains(s, prefix)
  {
    if StartsWith(s, prefix) {
      assert OccursAt(s, prefix, 0);
    }
  }

  /** Some entry of `patterns` occurs in `s` (`patterns.some(p => s.includes(p))`);
      never for an empty list. */
  predicate ContainsAny(s: string, patterns: seq<string>)
    ensures patterns == [] ==> !ContainsAny(s, patterns)
  {
    exists k :: 0 <= k < |patterns| && Contains(s, patterns[k])
  }

  /** A list holding the empty string matches every string. */
  lemma ContainsAnyWithEmpty(s: string, patterns: seq<string>)
    ensures "" in patterns ==> ContainsAny(s, patterns)
  {
    if "" in patterns {
      var k :| 0 <= k < |patterns| && patterns[k] == "";
      ContainsEmpty(s, patterns[k]);
    }
  }

  /** Number of occurrences of `x` in `s`. */
  function Count<T(==)>(s: seq<T>, x: T): (n: nat)
    ensures n <= |s|
    ensures n == 0 <==> x !in s
  {
    if |s| == 0 then 0
    else (if s[0] == x then 1 else 0) + Count(s[1..], x)
  }

  predicate IsAsciiUpper(c: char) {
    'A' <= c <= 'Z'
  }

  /** Lower-cases one character; only A-Z change. */
  function LowerChar(c: char): (d: char)
    ensures !IsAsciiUpper(d)
    ensures IsAsciiUpper(c) ==> d as int == c as int + 32
    ensures !IsAsciiUpper(c) ==> d == c
  {
    if IsAsciiUpper(c) then (c as int + 32) as char else c
  }

  /** Lower-cases a whole string, character by character. */
  function AsciiLower(s: string): (r: string)
    ensures |r| == |s|
    ensures forall i :: 0 <= i < |s| ==> r[i] == LowerChar(s[i])
  {
    if |s| == 0 then [] else [LowerChar(s[0])] + AsciiLower(s[1..])
  }

  /** The count is the multiplicity of `x` in the multiset of `s`. */
  lemma {:induction false} CountIsMultiplicity<T>(s: seq<T>, x: T)
    ensures Count(s, x) == multiset(s)[x]
  {
    if |s| > 0 {
      CountIsMultiplicity(s[1..], x);
      assert s == [s[0]] + s[1..];
      assert multiset(s) == multiset([s[0]]) + multiset(s[1..]);
    }
  }

  /** Counting distributes over concatenation. */
  lemma {:induction false} CountAppend<T>(a: seq<T>, b: seq<T>, x: T)
    ensures Count(a + b, x) == Count(a, x) + Count(b, x)
  {
    if |a| == 0 {
      assert a + b == b;
    } else {
      assert (a + b)[0] == a[0] && (a + b)[1..] == a[1..] + b;
      CountAppend(a[1..], b, x);
    }
  }

  /** In a list without repeated entries every value occurs at most once. */
  lemma {:induction false} CountDistinct<T>(s: seq<T>, x: T)
    requires forall i, j :: 0 <= i < j < |s| ==> s[i] != s[j]
    ensures Count(s, x) <= 1
  {
    if |s| > 0 {
      CountDistinct(s[1..], x);
      if s[0] == x {
        assert x !in s[1..];
      }
    }
  }

  /** Lower-casing twice is lower-casing once. */
  lemma AsciiLowerIdempotent(s: string)
    ensures AsciiLower(AsciiLower(s)) == AsciiLower(s)
  {
  }

  /** A string without upper-case ASCII letters is its own lower-case form. */
  lemma AsciiLowerOfLower(s: string)
    requires forall c :: c in s ==> !IsAsciiUpper(c)
    ensures AsciiLower(s) == s
  {
    assert forall i :: 0 <= i < |s| ==> s[i] in s;
  }

  /** An occurrence of `t` in `s` gives an occurrence of its lower-case form in
      the lower-case form of `s`. */
  lemma ContainsLower(s: string, t: string)
    requires Contains(s, t)
    ensures Contains(AsciiLower(s), AsciiLower(t))
  {
    var i :| 0 <= i <= |s| - |t| && OccursAt(s, t, i);
    assert AsciiLower(s)[i..i + |t|] == AsciiLower(t) by {
      forall k | 0 <= k < |t|
        ensures AsciiLower(s)[i..i + |t|][k] == AsciiLower(t)[k]
      {
        assert s[i + k] == s[i..i + |t|][k];
      }
    }
    assert OccursAt(AsciiLower(s), AsciiLower(t), i);
  }

  /** A positive occurrence, given where it is. */
  lemma ContainsAt(s: string, t: string, i: nat)
    requires i + |t| <= |s| && s[i..i + |t|] == t
    ensures Contains(s, t)
  {
    assert OccursAt(s, t, i);
  }

  /** Every character an occurrence covers is a character of `t`. */
  lemma CharOfOccurrence(s: string, t: string, i: int, k: int)
    requires OccursAt(s, t, i) && 0 <= k < |t|
    ensures s[i + k] in t
  {
    assert s[i + k] == s[i..i + |t|][k];
  }

  /** Every character of a contained string is a character of the container. */
  lemma ContainedChars(s: string, t: string, c: char)
    requires Contains(s, t) && c in t
    ensures c in s
  {
    var i :| 0 <= i <= |s| - |t| && OccursAt(s, t, i);
    var k :| 0 <= k < |t| && t[k] == c;
    CharOfOccurrence(s, t, i, k);
  }

  /** Hence a string lacking some character of `t` does not contain `t`. */
  lemma NotContainsChar(s: string, t: string, c: char)
    requires c in t && c !in s
    ensures !Contains(s, t)
  {
    if Contains(s, t) {
      ContainedChars(s, t, c);
    }
  }

  /** None of the patterns occurs when each lacks a character `s` lacks:
      `marks[k]` is a character of `patterns[k]` missing from `s`. */
  lemma NoneContainedByChars(s: string, patterns: seq<string>, marks: string)
    requires |marks| == |patterns|
    requires forall k :: 0 <= k < |patterns| ==> marks[k] in patterns[k] && marks[k] !in s
    ensures !ContainsAny(s, patterns)
  {
    forall k | 0 <= k < |patterns|
      ensures !Contains(s, patterns[k])
    {
      NotContainsChar(s, patterns[k], marks[k]);
    }
  }

  /** A string contains whatever lies between two of its pieces. */
  lemma ContainsMiddle(a: string, t: string, b: string)
    ensures Contains(a + t + b, t)
  {
    assert (a + t + b)[|a|..|a| + |t|] == t;
    assert OccursAt(a + t + b, t, |a|);
  }

  /** Where `t` occurs, each two adjacent characters of `t` occur side by side. */
  lemma ContainedPair(s: string, t: string, k: nat)
    requires Contains(s, t) && k + 2 <= |t|
    ensures exists i :: 0 <= i < |s| - 1 && s[i] == t[k] && s[i + 1] == t[k + 1]
  {
    var i :| 0 <= i <= |s| - |t| && OccursAt(s, t, i);
    CharOfOccurrence(s, t, i, k);
    assert s[i + k] == s[i..i + |t|][k] && s[i + k + 1] == s[i..i + |t|][k + 1];
  }

  /** Hence a string in which `t[k]` is never directly followed by
      `t[k + 1]` does not contain `t`. */
  lemma NotContainsByPair(s: string, t: string, k: nat)
    requires k + 2 <= |t|
    requires forall i :: 0 <= i < |s| - 1 ==> s[i] != t[k] || s[i + 1] != t[k + 1]
    ensures !Contains(s, t)
  {
    if Contains(s, t) {
      ContainedPair(s, t, k);
    }
  }

  /** One separator `x` in front of `b`, with none before it, adds one to
      the count. */
  lemma CountPastSeparator<T>(a: seq<T>, x: T, b: seq<T>)
    requires x !in a
    ensures Count(a + [x] + b, x) == 1 + Count(b, x)
  {
    CountAppend(a + [x], b, x);
    CountAppend(a, [x], x);
  }

}
