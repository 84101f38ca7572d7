/** Properties of `analyzeUrl` (script.js:72-130) stated against independent
    descriptions: the regular-expression grammar of rule 1, the multiset of
    the URL's characters for rule 2, the membership of warnings in the
    result for every rule, and the position of the keyword warnings. */
module AnalyzerProperties {
  import opened Strings
  import opened IpPattern
  import opened Warnings
  import opened Analyzer

  /** The keyword rule over a six-entry list, unfolded entry by entry. */
  lemma KeywordRuleSix(lowerUrl: string, a: string, b: string, c: string, d: string, e: string, f: string)
    ensures KeywordRule(lowerUrl, [a, b, c, d, e, f]) ==
      Emit(Contains(lowerUrl, a), Keyword(a)) + (Emit(Contains(lowerUrl, b), Keyword(b))
      + (Emit(Contains(lowerUrl, c), Keyword(c)) + (Emit(Contains(lowerUrl, d), Keyword(d))
      + (Emit(Contains(lowerUrl, e), Keyword(e)) + Emit(Contains(lowerUrl, f), Keyword(f))))))
  {
    assert KeywordRule(lowerUrl, [a, b, c, d, e, f]) == Emit(Contains(lowerUrl, a), Keyword(a)) + KeywordRule(lowerUrl, [b, c, d, e, f]) by {
      assert [a, b, c, d, e, f][1..] == [b, c, d, e, f];
    }
    assert KeywordRule(lowerUrl, [b, c, d, e, f]) == Emit(Contains(lowerUrl, b), Keyword(b)) + KeywordRule(lowerUrl, [c, d, e, f]) by {
      assert [b, c, d, e, f][1..] == [c, d, e, f];
    }
    assert KeywordRule(lowerUrl, [c, d, e, f]) == Emit(Contains(lowerUrl, c), Keyword(c)) + KeywordRule(lowerUrl, [d, e, f]) by {
      assert [c, d, e, f][1..] == [d, e, f];
    }
    assert KeywordRule(lowerUrl, [d, e, f]) == Emit(Contains(lowerUrl, d), Keyword(d)) + KeywordRule(lowerUrl, [e, f]) by {
      assert [d, e, f][1..] == [e, f];
    }
    assert KeywordRule(lowerUrl, [e, f]) == Emit(Contains(lowerUrl, e), Keyword(e)) + KeywordRule(lowerUrl, [f]) by {
      assert [e, f][1..] == [f];
    }
    assert KeywordRule(lowerUrl, [f]) == Emit(Contains(lowerUrl, f), Keyword(f)) by {
      assert [f][1..] == [];
      assert Emit(Contains(lowerUrl, f), Keyword(f)) + [] == Emit(Contains(lowerUrl, f), Keyword(f));
    }
  }

  /** Rule 3 with the shipped keyword list: the six `includes` tests in order. */
  lemma DefaultKeywordRule(lowerUrl: string)
    ensures KeywordRule(lowerUrl, SuspiciousKeywords) ==
      Emit(Contains(lowerUrl, "login"), Keyword("login")) + (Emit(Contains(lowerUrl, "verify"), Keyword("verify"))
      + (Emit(Contains(lowerUrl, "update"), Keyword("update")) + (Emit(Contains(lowerUrl, "secure"), Keyword("secure"))
      + (Emit(Contains(lowerUrl, "account"), Keyword("account")) + Emit(Contains(lowerUrl, "banking"), Keyword("banking"))))))
  {
    KeywordRuleSix(lowerUrl, "login", "verify", "update", "secure", "account", "banking");
  }

  /** Rule 3 adds nothing exactly when no listed keyword occurs. */
  lemma {:induction false} KeywordRuleEmptyIff(lowerUrl: string, keywords: seq<string>)
    ensures KeywordRule(lowerUrl, keywords) == [] <==> !ContainsAny(lowerUrl, keywords)
  {
    if |keywords| > 0 {
      KeywordRuleEmptyIff(lowerUrl, keywords[1..]);
      if ContainsAny(lowerUrl, keywords[1..]) {
        var k :| 0 <= k < |keywords[1..]| && Contains(lowerUrl, keywords[1..][k]);
        assert keywords[1..][k] == keywords[k + 1];
      }
      if ContainsAny(lowerUrl, keywords) {
        var k :| 0 <= k < |keywords| && Contains(lowerUrl, keywords[k]);
        if k > 0 {
          assert keywords[1..][k - 1] == keywords[k];
        }
      }
    }
  }

  /** The shipped keyword list has no repeated entry. */
  lemma SuspiciousKeywordsDistinct()
    ensures forall i, j :: 0 <= i < j < |SuspiciousKeywords| ==> SuspiciousKeywords[i] != SuspiciousKeywords[j]
  {
  }

  /** Rule 1: the IP warning is raised exactly when the URL starts with a
      scheme and a dotted four-part number, and then it comes first. */
  lemma IpWarningIff(url: string, pageProtocol: string, cfg: RuleConfig)
    ensures IpAddress in Evaluate(url, pageProtocol, cfg) <==> HasIpLiteralPrefix(url)
    ensures HasIpLiteralPrefix(url) ==> Evaluate(url, pageProtocol, cfg)[0] == IpAddress
  {
    var r := Evaluate(url, pageProtocol, cfg);
    MatchesIpPrefixIff(url);
    if IpAddress in r {
      var i :| 0 <= i < |r| && r[i] == IpAddress;
      assert RuleOf(r[0]) <= RuleOf(r[i]);
    }
  }

  /** Rule 2: the dot warning is raised exactly when the URL, path and query
      included, holds more than `maxDots` dots. */
  lemma DotWarningIff(url: string, pageProtocol: string, cfg: RuleConfig)
    ensures TooManyDots in Evaluate(url, pageProtocol, cfg) <==> multiset(url)['.'] > cfg.maxDots
  {
    CountIsMultiplicity(url, '.');
  }

  /** Rule 3 with the shipped list: a keyword warning names a listed keyword
      that the lower-cased URL contains, and each such keyword is reported
      exactly once. */
  lemma KeywordWarningIff(url: string, pageProtocol: string, word: string)
    ensures Keyword(word) in AnalyzeUrl(url, pageProtocol)
        <==> word in SuspiciousKeywords && Contains(AsciiLower(url), word)
    ensures Count(AnalyzeUrl(url, pageProtocol), Keyword(word))
        == if word in SuspiciousKeywords && Contains(AsciiLower(url), word) then 1 else 0
  {
    SuspiciousKeywordsDistinct();
    CountDistinct(SuspiciousKeywords, word);
  }

  /** Rule 4: the untrusted-domain warning is raised exactly when no trusted
      domain occurs, case-sensitively, anywhere in the URL. */
  lemma UntrustedIff(url: string, pageProtocol: string, cfg: RuleConfig)
    ensures Untrusted in Evaluate(url, pageProtocol, cfg)
        <==> forall k :: 0 <= k < |cfg.trusted| ==> !Contains(url, cfg.trusted[k])
  {
  }

  /** Rule 5 with the shipped markers: at most one shortener warning, raised
      exactly when the lower-cased URL contains one of the three markers. */
  lemma ShortenerIff(url: string, pageProtocol: string)
    ensures Shortener in AnalyzeUrl(url, pageProtocol)
        <==> Contains(AsciiLower(url), "bit.ly") || Contains(AsciiLower(url), "tinyurl.com") || Contains(AsciiLower(url), "goo.gl")
    ensures Count(AnalyzeUrl(url, pageProtocol), Shortener) <= 1
  {
    ShortenerTest(AsciiLower(url));
  }

  /** Rule 6: at most one typosquat warning however many typo domains occur,
      raised exactly when the lower-cased URL contains one of them. */
  lemma TyposquatIff(url: string, pageProtocol: string, cfg: RuleConfig)
    ensures Typosquat in Evaluate(url, pageProtocol, cfg)
        <==> exists k :: 0 <= k < |cfg.typos| && Contains(AsciiLower(url), cfg.typos[k])
    ensures Count(Evaluate(url, pageProtocol, cfg), Typosquat) <= 1
  {
  }

  /** Rule 7: the insecure-connection warning is raised exactly when the URL
      starts with `http://` (case-sensitively) and the page itself was
      served over `https:`. */
  lemma InsecureHttpIff(url: string, pageProtocol: string, cfg: RuleConfig)
    ensures InsecureHttp in Evaluate(url, pageProtocol, cfg)
        <==> StartsWith(url, "http://") && pageProtocol == SecurePage
  {
  }

  /** On a page not served over `https:` rule 7 never fires. */
  lemma InsecureOnlyOnSecurePage(url: string, pageProtocol: string, cfg: RuleConfig)
    requires pageProtocol != SecurePage
    ensures InsecureHttp !in Evaluate(url, pageProtocol, cfg)
  {
  }

  /** A URL starting with `https://` does not start with `http://` (its fifth
      character is `s`, not `:`), so rule 7 never fires for it, whatever the
      page protocol. */
  lemma HttpsNeverInsecure(url: string, pageProtocol: string, cfg: RuleConfig)
    ensures StartsWith(url, "https://") ==> !StartsWith(url, "http://")
    ensures StartsWith(url, "https://") ==> InsecureHttp !in Evaluate(url, pageProtocol, cfg)
  {
    if StartsWith(url, "https://") {
      assert url[4] == "https://"[4];
    }
  }

  /** The result is empty exactly when no rule fires. */
  lemma CleanIff(url: string, pageProtocol: string, cfg: RuleConfig)
    ensures Evaluate(url, pageProtocol, cfg) == []
        <==> && !MatchesIpPrefix(url)
             && Count(url, '.') <= cfg.maxDots
             && (forall k :: 0 <= k < |cfg.keywords| ==> !Contains(AsciiLower(url), cfg.keywords[k]))
             && ContainsAny(url, cfg.trusted)
             && !ContainsAny(AsciiLower(url), cfg.shorteners)
             && !ContainsAny(AsciiLower(url), cfg.typos)
             && !(StartsWith(url, "http://") && pageProtocol == SecurePage)
  {
    var r := Evaluate(url, pageProtocol, cfg);
    if r != [] {
      assert r[0] in r;
      match r[0]
      case Keyword(w) =>
        assert Count(r, Keyword(w)) > 0;
        assert Count(cfg.keywords, w) > 0;
        var k :| 0 <= k < |cfg.keywords| && cfg.keywords[k] == w;
      case _ =>
    } else {
      forall k | 0 <= k < |cfg.keywords|
        ensures !Contains(AsciiLower(url), cfg.keywords[k])
      {
        assert cfg.keywords[k] in cfg.keywords;
        assert Count(r, Keyword(cfg.keywords[k])) == 0;
      }
    }
  }

  /** With an empty keyword list, an empty shortener list and an empty typo
      list, rules 3, 5 and 6 never fire. */
  lemma EmptyListsSilenceRules(url: string, pageProtocol: string, cfg: RuleConfig)
    requires cfg.keywords == [] && cfg.shorteners == [] && cfg.typos == []
    ensures forall w :: Keyword(w) !in Evaluate(url, pageProtocol, cfg)
    ensures Shortener !in Evaluate(url, pageProtocol, cfg)
    ensures Typosquat !in Evaluate(url, pageProtocol, cfg)
  {
  }

  /** With an empty trusted list every URL is reported as untrusted. */
  lemma EmptyTrustedFlagsAll(url: string, pageProtocol: string, cfg: RuleConfig)
    requires cfg.trusted == []
    ensures Untrusted in Evaluate(url, pageProtocol, cfg)
  {
  }

  /** Rules 3, 5 and 6 look at the lower-cased URL only, so a URL and its
      lower-case form get the same keyword, shortener and typosquat
      warnings. */
  lemma LowerCaseRulesIgnoreCase(url: string, pageProtocol: string, cfg: RuleConfig)
    ensures forall w :: Count(Evaluate(url, pageProtocol, cfg), Keyword(w))
                     == Count(Evaluate(AsciiLower(url), pageProtocol, cfg), Keyword(w))
    ensures Count(Evaluate(url, pageProtocol, cfg), Shortener) == Count(Evaluate(AsciiLower(url), pageProtocol, cfg), Shortener)
    ensures Count(Evaluate(url, pageProtocol, cfg), Typosquat) == Count(Evaluate(AsciiLower(url), pageProtocol, cfg), Typosquat)
  {
    AsciiLowerIdempotent(url);
  }

  /** A listed keyword written in any mix of cases is still reported. */
  lemma MixedCaseKeywordFlagged(url: string, pageProtocol: string, spelled: string)
    requires Contains(url, spelled)
    requires AsciiLower(spelled) in SuspiciousKeywords
    ensures Keyword(AsciiLower(spelled)) in AnalyzeUrl(url, pageProtocol)
  {
    ContainsLower(url, spelled);
    KeywordWarningIff(url, pageProtocol, AsciiLower(spelled));
  }

  /** A listed keyword written as listed anywhere in the URL is reported. */
  lemma ListedKeywordFlagged(url: string, pageProtocol: string, k: nat)
    requires k < |SuspiciousKeywords| && Contains(url, SuspiciousKeywords[k])
    ensures Keyword(SuspiciousKeywords[k]) in AnalyzeUrl(url, pageProtocol)
  {
    ShippedTablesLowerCase();
    AsciiLowerOfLower(SuspiciousKeywords[k]);
    MixedCaseKeywordFlagged(url, pageProtocol, SuspiciousKeywords[k]);
  }

  /** A listed typo domain written as listed anywhere in the URL is reported. */
  lemma ListedTypoFlagged(url: string, pageProtocol: string, k: nat)
    requires k < |CommonTypos| && Contains(url, CommonTypos[k])
    ensures Typosquat in AnalyzeUrl(url, pageProtocol)
  {
    ShippedTablesLowerCase();
    AsciiLowerOfLower(CommonTypos[k]);
    ContainsLower(url, CommonTypos[k]);
    TyposquatIff(url, pageProtocol, DefaultConfig);
  }

  /** `Evaluate` split around the keyword rule's list: the parts before and
      after it hold no keyword warning. */
  lemma EvaluateAroundKeywords(url: string, pageProtocol: string, cfg: RuleConfig) returns (front: seq<Warning>, back: seq<Warning>)
    ensures Evaluate(url, pageProtocol, cfg) == front + KeywordRule(AsciiLower(url), cfg.keywords) + back
    ensures forall w :: Keyword(w) !in front && Keyword(w) !in back
  {
    var c1, c2 := MatchesIpPrefix(url), Count(url, '.') > cfg.maxDots;
    var c4, c5, c6 := !ContainsAny(url, cfg.trusted), ContainsAny(AsciiLower(url), cfg.shorteners), ContainsAny(AsciiLower(url), cfg.typos);
    var c7 := StartsWith(url, "http://") && pageProtocol == SecurePage;
    EvaluateIsJoin(url, pageProtocol, cfg);
    JoinThreeParts(c1, c2, KeywordRule(AsciiLower(url), cfg.keywords), c4, c5, c6, c7);
    NoKeywordAround(c1, c2, c4, c5, c6, c7);
    front := Emit(c1, IpAddress) + Emit(c2, TooManyDots);
    back := Emit(c4, Untrusted) + Emit(c5, Shortener) + Emit(c6, Typosquat) + Emit(c7, InsecureHttp);
  }

  /** Keyword warnings keep the order of the keyword list: of two keyword
      warnings in the result, the earlier names a keyword listed earlier. */
  lemma KeywordsInListOrder(url: string, pageProtocol: string, cfg: RuleConfig, i: nat, j: nat) returns (a: nat, b: nat)
    requires i < j < |Evaluate(url, pageProtocol, cfg)|
    requires Evaluate(url, pageProtocol, cfg)[i].Keyword? && Evaluate(url, pageProtocol, cfg)[j].Keyword?
    ensures a < b < |cfg.keywords|
    ensures Evaluate(url, pageProtocol, cfg)[i] == Keyword(cfg.keywords[a])
    ensures Evaluate(url, pageProtocol, cfg)[j] == Keyword(cfg.keywords[b])
  {
    var front, back := EvaluateAroundKeywords(url, pageProtocol, cfg);
    a, b := KeywordOrderBetween(front, back, AsciiLower(url), cfg.keywords, i, j);
  }

  /** All keyword warnings lie within a stretch no longer than the keyword
      list, so there are at most as many as listed keywords. */
  lemma KeywordWarningsSpan(url: string, pageProtocol: string, cfg: RuleConfig, i: nat, j: nat)
    requires i <= j < |Evaluate(url, pageProtocol, cfg)|
    requires Evaluate(url, pageProtocol, cfg)[i].Keyword? && Evaluate(url, pageProtocol, cfg)[j].Keyword?
    ensures j - i < |cfg.keywords|
  {
    var kp := KeywordRule(AsciiLower(url), cfg.keywords);
    var front, back := EvaluateAroundKeywords(url, pageProtocol, cfg);
    KeywordsOnlyInMiddle(front, kp, back, i);
    KeywordsOnlyInMiddle(front, kp, back, j);
  }

  /** A URL containing both "login" and "secure" gets a warning for each,
      the "login" one first. */
  lemma LoginBeforeSecure(url: string, pageProtocol: string) returns (i: nat, j: nat)
    requires Contains(AsciiLower(url), "login") && Contains(AsciiLower(url), "secure")
    ensures i < j < |AnalyzeUrl(url, pageProtocol)|
    ensures AnalyzeUrl(url, pageProtocol)[i] == Keyword("login")
    ensures AnalyzeUrl(url, pageProtocol)[j] == Keyword("secure")
  {
    var front, back := EvaluateAroundKeywords(url, pageProtocol, DefaultConfig);
    i, j := LoginSecureBetween(front, back, AsciiLower(url));
  }

  /** The same, for the keyword list placed between any two lists. */
  lemma LoginSecureBetween(front: seq<Warning>, back: seq<Warning>, lower: string) returns (i: nat, j: nat)
    requires Contains(lower, "login") && Contains(lower, "secure")
    ensures i < j < |front + KeywordRule(lower, SuspiciousKeywords) + back|
    ensures (front + KeywordRule(lower, SuspiciousKeywords) + back)[i] == Keyword("login")
    ensures (front + KeywordRule(lower, SuspiciousKeywords) + back)[j] == Keyword("secure")
  {
    var kp := KeywordRule(lower, SuspiciousKeywords);
    var q := LoginThenSecure(lower);
    MiddleAt(front, kp, back, 0);
    MiddleAt(front, kp, back, q);
    i, j := |front|, |front| + q;
  }

  /** Rule 3's list for a URL containing "login" and "secure" opens with the
      "login" warning and holds the "secure" warning further on. */
  lemma LoginThenSecure(lower: string) returns (q: nat)
    requires Contains(lower, "login") && Contains(lower, "secure")
    ensures 0 < q < |KeywordRule(lower, SuspiciousKeywords)|
    ensures KeywordRule(lower, SuspiciousKeywords)[0] == Keyword("login")
    ensures KeywordRule(lower, SuspiciousKeywords)[q] == Keyword("secure")
  {
    var kp := KeywordRule(lower, SuspiciousKeywords);
    DefaultKeywordRule(lower);
    var rest := Emit(Contains(lower, "verify"), Keyword("verify")) + (Emit(Contains(lower, "update"), Keyword("update"))
      + (Emit(true, Keyword("secure")) + (Emit(Contains(lower, "account"), Keyword("account"))
      + Emit(Contains(lower, "banking"), Keyword("banking")))));
    assert kp == [Keyword("login")] + rest;
    assert Keyword("secure") in rest;
    var r :| 0 <= r < |rest| && rest[r] == Keyword("secure");
    q := 1 + r;
  }
}
