/** Rule 1 of the URL analyzer: the regular expression
    `^https?:\/\/\d+\.\d+\.\d+\.\d+` (script.js:77), written out as a
    recogniser. Without the `u` flag, `\d` is the ASCII class `[0-9]`. The
    regular expression is anchored at the start only, so nothing after the
    fourth digit run is constrained. */
module IpPattern {
  import opened Strings

  predicate IsDigit(c: char) {
    '0' <= c <= '9'
  }

  predicate AllDigits(s: string) {
    forall i :: 0 <= i < |s| ==> IsDigit(s[i])
  }

  /** What one `\d+` matches: a non-empty string of digits. */
  predicate IsDigitRun(s: string) {
    |s| > 0 && AllDigits(s)
  }

  /** End of the longest run of digits that starts at index `i`. */
  function DigitRunEnd(s: string, i: nat): (j: nat)
    requires i <= |s|
    ensures i <= j <= |s|
    ensures AllDigits(s[i..j])
    ensures j == |s| || !IsDigit(s[j])
    decreases |s| - i
  {
    if i < |s| && IsDigit(s[i]) then DigitRunEnd(s, i + 1) else i
  }

  /** `t` begins with `n` non-empty digit runs separated by single dots.
      Each run is taken as long as possible; since a run must end before a
      `.`, which is not a digit, the longest run is the only one that can
      work, so no backtracking is needed. */
  predicate DottedRuns(t: string, n: nat)
    requires n >= 1
    decreases n
  {
    var j := DigitRunEnd(t, 0);
    0 < j && (n == 1 || (j < |t| && t[j] == '.' && DottedRuns(t[j + 1..], n - 1)))
  }

  /** `/^https?:\/\/\d+\.\d+\.\d+\.\d+/.test(url)`; the scheme is
      case-sensitive, and a digit follows it at once. */
  predicate MatchesIpPrefix(url: string)
    ensures MatchesIpPrefix(url) ==>
      || (StartsWith(url, "http://") && |url| > 7 && IsDigit(url[7]))
      || (StartsWith(url, "https://") && |url| > 8 && IsDigit(url[8]))
  {
    || (StartsWith(url, "http://") && DottedRuns(url[7..], 4))
    || (StartsWith(url, "https://") && DottedRuns(url[8..], 4))
  }

  /** The grammar `\d+(\.\d+){n-1}` followed by anything, stated with
      explicit pieces instead of a search. */
  ghost predicate DottedRunsShape(t: string, n: nat)
    requires n >= 1
    decreases n
  {
    if n == 1 then
      exists d, rest :: IsDigitRun(d) && t == d + rest
    else
      exists a, tail :: IsDigitRun(a) && t == a + "." + tail && DottedRunsShape(tail, n - 1)
  }

  /** The regular expression as a grammar: an `http://` or `https://` scheme,
      four dot-separated digit runs, then anything at all. */
  ghost predicate HasIpLiteralPrefix(url: string) {
    || (StartsWith(url, "http://") && DottedRunsShape(url[7..], 4))
    || (StartsWith(url, "https://") && DottedRunsShape(url[8..], 4))
  }

  /** A digit run that stops at the end or before a non-digit is the longest one. */
  lemma {:induction false} DigitRunEndAt(s: string, i: nat, j: nat)
    requires i <= j <= |s|
    requires AllDigits(s[i..j])
    requires j == |s| || !IsDigit(s[j])
    ensures DigitRunEnd(s, i) == j
    decreases j - i
  {
    if i < j {
      assert IsDigit(s[i..j][0]);
      assert s[i + 1..j] == s[i..j][1..];
      DigitRunEndAt(s, i + 1, j);
    }
  }

  /** What the greedy recogniser accepts has the shape of the grammar. */
  lemma {:induction false} DottedRunsSound(t: string, n: nat)
    requires n >= 1
    requires DottedRuns(t, n)
    ensures DottedRunsShape(t, n)
    decreases n
  {
    var j := DigitRunEnd(t, 0);
    if n == 1 {
      assert t == t[..j] + t[j..];
    } else {
      DottedRunsSound(t[j + 1..], n - 1);
      assert t == t[..j] + "." + t[j + 1..];
    }
  }

  /** Everything of the shape of the grammar is accepted by the greedy
      recogniser: the first run of the shape is the longest run. */
  lemma {:induction false} DottedRunsComplete(t: string, n: nat)
    requires n >= 1
    requires DottedRunsShape(t, n)
    ensures DottedRuns(t, n)
    decreases n
  {
    if n == 1 {
      var d, rest :| IsDigitRun(d) && t == d + rest;
      assert IsDigit(t[0]);
    } else {
      var a, tail :| IsDigitRun(a) && t == a + "." + tail && DottedRunsShape(tail, n - 1);
      assert t[..|a|] == a;
      DigitRunEndAt(t, 0, |a|);
      assert t[|a| + 1..] == tail;
      DottedRunsComplete(tail, n - 1);
    }
  }

  /** The greedy recogniser accepts exactly the strings of the grammar. */
  lemma DottedRunsIff(t: string, n: nat)
    requires n >= 1
    ensures DottedRuns(t, n) <==> DottedRunsShape(t, n)
  {
    if DottedRuns(t, n) {
      DottedRunsSound(t, n);
    }
    if DottedRunsShape(t, n) {
      DottedRunsComplete(t, n);
    }
  }

  /** The recogniser decides exactly the language of the regular expression. */
  lemma MatchesIpPrefixIff(url: string)
    ensures MatchesIpPrefix(url) <==> HasIpLiteralPrefix(url)
  {
    if |url| >= 7 {
      DottedRunsIff(url[7..], 4);
    }
    if |url| >= 8 {
      DottedRunsIff(url[8..], 4);
    }
  }

  /** One more run in front of a shape of `n` runs gives a shape of `n + 1` runs. */
  lemma ShapeCons(a: string, tail: string, n: nat)
    requires n >= 1
    requires IsDigitRun(a) && DottedRunsShape(tail, n)
    ensures DottedRunsShape(a + "." + tail, n + 1)
  {
  }

  /** A scheme followed by four runs is flagged. */
  lemma SchemeThenRunsFlagged(scheme: string, t: string)
    requires scheme == "http://" || scheme == "https://"
    requires DottedRunsShape(t, 4)
    ensures MatchesIpPrefix(scheme + t)
  {
    var url := scheme + t;
    assert url[..|scheme|] == scheme && url[|scheme|..] == t;
    MatchesIpPrefixIff(url);
  }

  /** Four digit runs joined by dots, then anything, have the shape of four runs. */
  lemma FourRunsShape(a: string, b: string, c: string, d: string, rest: string)
    requires IsDigitRun(a) && IsDigitRun(b) && IsDigitRun(c) && IsDigitRun(d)
    ensures DottedRunsShape(a + "." + (b + "." + (c + "." + (d + rest))), 4)
  {
    assert DottedRunsShape(d + rest, 1);
    ShapeCons(c, d + rest, 1);
    ShapeCons(b, c + "." + (d + rest), 2);
    ShapeCons(a, b + "." + (c + "." + (d + rest)), 3);
  }

  lemma Reassociate(scheme: string, a: string, b: string, c: string, d: string, rest: string)
    ensures scheme + a + "." + b + "." + c + "." + d + rest
         == scheme + (a + "." + (b + "." + (c + "." + (d + rest))))
  {
    calc {
      scheme + a + "." + b + "." + c + "." + d + rest;
      scheme + a + "." + b + "." + c + "." + (d + rest);
      scheme + a + "." + b + "." + (c + "." + (d + rest));
      scheme + a + "." + (b + "." + (c + "." + (d + rest)));
      scheme + (a + "." + (b + "." + (c + "." + (d + rest))));
    }
  }

  /** Every URL spelled as scheme, four digit runs joined by dots and any tail
      is flagged. */
  lemma IpLiteralFlagged(scheme: string, a: string, b: string, c: string, d: string, rest: string)
    requires scheme == "http://" || scheme == "https://"
    requires IsDigitRun(a) && IsDigitRun(b) && IsDigitRun(c) && IsDigitRun(d)
    ensures MatchesIpPrefix(scheme + a + "." + b + "." + c + "." + d + rest)
  {
    FourRunsShape(a, b, c, d, rest);
    SchemeThenRunsFlagged(scheme, a + "." + (b + "." + (c + "." + (d + rest))));
    Reassociate(scheme, a, b, c, d, rest);
  }
}
