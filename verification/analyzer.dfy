/** The rule evaluator `analyzeUrl` (script.js:72-130). It applies seven
    fixed heuristics to a URL in a fixed order and returns the warnings they
    raise, in that order. The page's own protocol, which the script reads
    from `window.location.protocol`, is a parameter here. */
module Analyzer {
  import opened Strings
  import opened IpPattern
  import opened Warnings

  /** The tables the rules consult. The script hard-codes them; `maxDots` is
      the threshold of rule 2 (warn when the dot count is strictly greater). */
  datatype RuleConfig = RuleConfig(
    keywords: seq<string>,
    trusted: seq<string>,
    shorteners: seq<string>,
    typos: seq<string>,
    maxDots: nat)

  const SuspiciousKeywords: seq<string> := ["login", "verify", "update", "secure", "account", "banking"]

  const TrustedDomains: seq<string> := ["paypal.com", "google.com", "microsoft.com", "bankofamerica.com", "canvas.fau.edu"]

  const ShortenerMarkers: seq<string> := ["bit.ly", "tinyurl.com", "goo.gl"]

  const CommonTypos: seq<string> := ["goggle.com", "facebok.com", "amazom.com", "microsft.com"]

  const MaxDots: nat := 3

  /** The configuration the script ships with. */
  const DefaultConfig: RuleConfig := RuleConfig(SuspiciousKeywords, TrustedDomains, ShortenerMarkers, CommonTypos, MaxDots)

  /** No table holds an upper-case letter. So every entry of the tables
      matched against the lower-cased URL can match, and a trusted domain
      matches only where the URL spells it in lower case. */
  lemma ShippedTablesLowerCase()
    ensures forall k, c :: 0 <= k < |SuspiciousKeywords| && c in SuspiciousKeywords[k] ==> !IsAsciiUpper(c)
    ensures forall k, c :: 0 <= k < |TrustedDomains| && c in TrustedDomains[k] ==> !IsAsciiUpper(c)
    ensures forall k, c :: 0 <= k < |ShortenerMarkers| && c in ShortenerMarkers[k] ==> !IsAsciiUpper(c)
    ensures forall k, c :: 0 <= k < |CommonTypos| && c in CommonTypos[k] ==> !IsAsciiUpper(c)
  {
  }

  /** The value `window.location.protocol` has on a page served over TLS. */
  const SecurePage: string := "https:"

  /** The one-warning list `[w]` when `cond` holds, the empty list otherwise. */
  function Emit(cond: bool, w: Warning): seq<Warning> {
    if cond then [w] else []
  }

  /** Rule 3: one warning per keyword found in the lower-cased URL, in the
      order of the keyword list. */
  function KeywordRule(lowerUrl: string, keywords: seq<string>): (r: seq<Warning>)
    ensures |r| <= |keywords|
    ensures forall i :: 0 <= i < |r| ==> r[i].Keyword?
  {
    if |keywords| == 0 then []
    else Emit(Contains(lowerUrl, keywords[0]), Keyword(keywords[0])) + KeywordRule(lowerUrl, keywords[1..])
  }

  /** One more keyword at the end of the list adds at most one warning at the
      end, as one more turn of the script's loop does. */
  lemma {:induction false} KeywordRuleSnoc(lowerUrl: string, keywords: seq<string>, w: string)
    ensures KeywordRule(lowerUrl, keywords + [w]) == KeywordRule(lowerUrl, keywords) + Emit(Contains(lowerUrl, w), Keyword(w))
  {
    if |keywords| == 0 {
      assert keywords + [w] == [w];
    } else {
      assert (keywords + [w])[0] == keywords[0];
      assert (keywords + [w])[1..] == keywords[1..] + [w];
      KeywordRuleSnoc(lowerUrl, keywords[1..], w);
    }
  }

  /** A keyword is reported as often as it is listed when the URL contains it,
      and never otherwise. */
  lemma {:induction false} KeywordRuleCount(lowerUrl: string, keywords: seq<string>, w: string)
    ensures Count(KeywordRule(lowerUrl, keywords), Keyword(w)) == if Contains(lowerUrl, w) then Count(keywords, w) else 0
  {
    if |keywords| > 0 {
      var first := Emit(Contains(lowerUrl, keywords[0]), Keyword(keywords[0]));
      var rest := KeywordRule(lowerUrl, keywords[1..]);
      CountAppend(first, rest, Keyword(w));
      EmitCount(Contains(lowerUrl, keywords[0]), Keyword(keywords[0]), Keyword(w));
      KeywordRuleCount(lowerUrl, keywords[1..], w);
    }
  }

  /** Every keyword warning names a listed keyword, at a position no earlier
      than its own, that the URL contains. */
  lemma {:induction false} KeywordAt(lowerUrl: string, keywords: seq<string>, j: nat) returns (b: nat)
    requires j < |KeywordRule(lowerUrl, keywords)|
    ensures j <= b < |keywords|
    ensures KeywordRule(lowerUrl, keywords)[j] == Keyword(keywords[b])
    ensures Contains(lowerUrl, keywords[b])
  {
    var first := Emit(Contains(lowerUrl, keywords[0]), Keyword(keywords[0]));
    var rest := KeywordRule(lowerUrl, keywords[1..]);
    assert KeywordRule(lowerUrl, keywords) == first + rest;
    if j < |first| {
      b := 0;
    } else {
      var b' := KeywordAt(lowerUrl, keywords[1..], j - |first|);
      assert KeywordRule(lowerUrl, keywords)[j] == rest[j - |first|];
      b := b' + 1;
      assert keywords[1..][b'] == keywords[b];
    }
  }

  /** Keyword warnings keep the order of the keyword list: of two warnings,
      the earlier one names a keyword listed earlier. */
  lemma {:induction false} KeywordRuleOrder(lowerUrl: string, keywords: seq<string>, i: nat, j: nat) returns (a: nat, b: nat)
    requires i < j < |KeywordRule(lowerUrl, keywords)|
    ensures a < b < |keywords|
    ensures KeywordRule(lowerUrl, keywords)[i] == Keyword(keywords[a])
    ensures KeywordRule(lowerUrl, keywords)[j] == Keyword(keywords[b])
  {
    var r := KeywordRule(lowerUrl, keywords);
    var first := Emit(Contains(lowerUrl, keywords[0]), Keyword(keywords[0]));
    var rest := KeywordRule(lowerUrl, keywords[1..]);
    assert r == first + rest;
    assert r[j] == rest[j - |first|];
    if i < |first| {
      var b' := KeywordAt(lowerUrl, keywords[1..], j - 1);
      a, b := 0, b' + 1;
      assert keywords[1..][b'] == keywords[b];
    } else {
      var a', b' := KeywordRuleOrder(lowerUrl, keywords[1..], i - |first|, j - |first|);
      assert r[i] == rest[i - |first|];
      a, b := a' + 1, b' + 1;
      assert keywords[1..][a'] == keywords[a] && keywords[1..][b'] == keywords[b];
    }
  }

  /** The seven segments joined in rule order, with the conditions of the
      single-warning rules left abstract. */
  function Join(c1: bool, c2: bool, keywordPart: seq<Warning>, c4: bool, c5: bool, c6: bool, c7: bool): (r: seq<Warning>)
    ensures |r| <= |keywordPart| + 6
  {
    Emit(c1, IpAddress) + Emit(c2, TooManyDots) + keywordPart + Emit(c4, Untrusted)
      + Emit(c5, Shortener) + Emit(c6, Typosquat) + Emit(c7, InsecureHttp)
  }

  /** Counts in the joined list are the sums of the counts in its segments. */
  lemma JoinCount(c1: bool, c2: bool, keywordPart: seq<Warning>, c4: bool, c5: bool, c6: bool, c7: bool, w: Warning)
    ensures Count(Join(c1, c2, keywordPart, c4, c5, c6, c7), w) ==
      Count(Emit(c1, IpAddress), w) + Count(Emit(c2, TooManyDots), w) + Count(keywordPart, w)
      + Count(Emit(c4, Untrusted), w) + Count(Emit(c5, Shortener), w) + Count(Emit(c6, Typosquat), w)
      + Count(Emit(c7, InsecureHttp), w)
  {
    var e1, e2, e4 := Emit(c1, IpAddress), Emit(c2, TooManyDots), Emit(c4, Untrusted);
    var e5, e6, e7 := Emit(c5, Shortener), Emit(c6, Typosquat), Emit(c7, InsecureHttp);
    CountAppend(e1, e2, w);
    CountAppend(e1 + e2, keywordPart, w);
    CountAppend(e1 + e2 + keywordPart, e4, w);
    CountAppend(e1 + e2 + keywordPart + e4, e5, w);
    CountAppend(e1 + e2 + keywordPart + e4 + e5, e6, w);
    CountAppend(e1 + e2 + keywordPart + e4 + e5 + e6, e7, w);
  }

  /** A single-warning rule's warning appears once when its condition holds
      and never otherwise. */
  lemma JoinCountSingle(c1: bool, c2: bool, keywordPart: seq<Warning>, c4: bool, c5: bool, c6: bool, c7: bool, w: Warning)
    requires forall i :: 0 <= i < |keywordPart| ==> keywordPart[i].Keyword?
    requires !w.Keyword?
    ensures Count(Join(c1, c2, keywordPart, c4, c5, c6, c7), w) ==
      match w
      case IpAddress => (if c1 then 1 else 0)
      case TooManyDots => (if c2 then 1 else 0)
      case Untrusted => (if c4 then 1 else 0)
      case Shortener => (if c5 then 1 else 0)
      case Typosquat => (if c6 then 1 else 0)
      case InsecureHttp => (if c7 then 1 else 0)
  {
    JoinCount(c1, c2, keywordPart, c4, c5, c6, c7, w);
    assert w !in keywordPart;
    EmitCount(c1, IpAddress, w);
    EmitCount(c2, TooManyDots, w);
    EmitCount(c4, Untrusted, w);
    EmitCount(c5, Shortener, w);
    EmitCount(c6, Typosquat, w);
    EmitCount(c7, InsecureHttp, w);
  }

  /** A one-warning segment holds its warning once when its condition holds. */
  lemma EmitCount(c: bool, v: Warning, w: Warning)
    ensures Count(Emit(c, v), w) == if c && v == w then 1 else 0
  {
  }

  /** Keyword warnings come from the keyword part alone. */
  lemma JoinCountKeyword(c1: bool, c2: bool, keywordPart: seq<Warning>, c4: bool, c5: bool, c6: bool, c7: bool, word: string)
    ensures Count(Join(c1, c2, keywordPart, c4, c5, c6, c7), Keyword(word)) == Count(keywordPart, Keyword(word))
  {
    JoinCount(c1, c2, keywordPart, c4, c5, c6, c7, Keyword(word));
  }

  /** A one-warning segment is in order and sits at its rule. */
  lemma EmitOrdered(c: bool, w: Warning)
    ensures RuleOrdered(Emit(c, w)) && RulesWithin(Emit(c, w), RuleOf(w) - 1, RuleOf(w))
  {
  }

  /** The joined segments are in rule order. */
  lemma JoinOrdered(c1: bool, c2: bool, keywordPart: seq<Warning>, c4: bool, c5: bool, c6: bool, c7: bool)
    requires forall i :: 0 <= i < |keywordPart| ==> keywordPart[i].Keyword?
    ensures RuleOrdered(Join(c1, c2, keywordPart, c4, c5, c6, c7))
  {
    var s1, s2, s3, s4 := Emit(c1, IpAddress), Emit(c2, TooManyDots), keywordPart, Emit(c4, Untrusted);
    var s5, s6, s7 := Emit(c5, Shortener), Emit(c6, Typosquat), Emit(c7, InsecureHttp);
    assert RuleOrdered(s3) && RulesWithin(s3, 2, 3);
    EmitOrdered(c1, IpAddress);
    EmitOrdered(c2, TooManyDots);
    EmitOrdered(c4, Untrusted);
    EmitOrdered(c5, Shortener);
    EmitOrdered(c6, Typosquat);
    EmitOrdered(c7, InsecureHttp);
    OrderedAppend(s1, s2, 0, 1, 2);
    OrderedAppend(s1 + s2, s3, 0, 2, 3);
    OrderedAppend(s1 + s2 + s3, s4, 0, 3, 4);
    OrderedAppend(s1 + s2 + s3 + s4, s5, 0, 4, 5);
    OrderedAppend(s1 + s2 + s3 + s4 + s5, s6, 0, 5, 6);
    OrderedAppend(s1 + s2 + s3 + s4 + s5 + s6, s7, 0, 6, 7);
  }

  /** `analyzeUrl` over an arbitrary configuration. Rules 1, 2 and 7 test the
      URL as given, rules 3, 5 and 6 its lower-cased form, and rule 4 the URL
      as given (so it is case-sensitive). Each single-warning rule contributes
      its warning exactly once when its condition holds and never otherwise,
      rule 3 one warning per listed copy of each keyword the lower-cased URL
      contains, and the list is in rule order. */
  function Evaluate(url: string, pageProtocol: string, cfg: RuleConfig): (r: seq<Warning>)
    ensures Count(r, IpAddress) == if MatchesIpPrefix(url) then 1 else 0
    ensures Count(r, TooManyDots) == if Count(url, '.') > cfg.maxDots then 1 else 0
    ensures forall w :: Count(r, Keyword(w)) == if Contains(AsciiLower(url), w) then Count(cfg.keywords, w) else 0
    ensures Count(r, Untrusted) == if ContainsAny(url, cfg.trusted) then 0 else 1
    ensures Count(r, Shortener) == if ContainsAny(AsciiLower(url), cfg.shorteners) then 1 else 0
    ensures Count(r, Typosquat) == if ContainsAny(AsciiLower(url), cfg.typos) then 1 else 0
    ensures Count(r, InsecureHttp) == if StartsWith(url, "http://") && pageProtocol == SecurePage then 1 else 0
    ensures RuleOrdered(r)
    ensures |r| <= |cfg.keywords| + 6
  {
    var lowerUrl := AsciiLower(url);
    var keywordPart := KeywordRule(lowerUrl, cfg.keywords);
    var c1, c2 := MatchesIpPrefix(url), Count(url, '.') > cfg.maxDots;
    var c4, c5, c6 := !ContainsAny(url, cfg.trusted), ContainsAny(lowerUrl, cfg.shorteners), ContainsAny(lowerUrl, cfg.typos);
    var c7 := StartsWith(url, "http://") && pageProtocol == SecurePage;
    JoinCountSingle(c1, c2, keywordPart, c4, c5, c6, c7, IpAddress);
    JoinCountSingle(c1, c2, keywordPart, c4, c5, c6, c7, TooManyDots);
    JoinCountSingle(c1, c2, keywordPart, c4, c5, c6, c7, Untrusted);
    JoinCountSingle(c1, c2, keywordPart, c4, c5, c6, c7, Shortener);
    JoinCountSingle(c1, c2, keywordPart, c4, c5, c6, c7, Typosquat);
    JoinCountSingle(c1, c2, keywordPart, c4, c5, c6, c7, InsecureHttp);
    KeywordsCounted(lowerUrl, cfg.keywords, c1, c2, c4, c5, c6, c7);
    JoinOrdered(c1, c2, keywordPart, c4, c5, c6, c7);
    Join(c1, c2, keywordPart, c4, c5, c6, c7)
  }

  /** The entries of `front + middle + back` that are keyword warnings all
      come from `middle` when `front` and `back` hold none. */
  lemma KeywordsOnlyInMiddle(front: seq<Warning>, middle: seq<Warning>, back: seq<Warning>, i: nat)
    requires forall w :: Keyword(w) !in front && Keyword(w) !in back
    requires i < |front + middle + back| && (front + middle + back)[i].Keyword?
    ensures |front| <= i < |front| + |middle|
    ensures (front + middle + back)[i] == middle[i - |front|]
  {
    EntryOfThree(front, middle, back, i);
  }

  /** Keyword warnings placed between two lists without any keep the order
      of the keyword list. */
  lemma KeywordOrderBetween(front: seq<Warning>, back: seq<Warning>, lowerUrl: string, keywords: seq<string>, i: nat, j: nat)
      returns (a: nat, b: nat)
    requires forall w :: Keyword(w) !in front && Keyword(w) !in back
    requires i < j < |front + KeywordRule(lowerUrl, keywords) + back|
    requires (front + KeywordRule(lowerUrl, keywords) + back)[i].Keyword?
    requires (front + KeywordRule(lowerUrl, keywords) + back)[j].Keyword?
    ensures a < b < |keywords|
    ensures (front + KeywordRule(lowerUrl, keywords) + back)[i] == Keyword(keywords[a])
    ensures (front + KeywordRule(lowerUrl, keywords) + back)[j] == Keyword(keywords[b])
  {
    var kp := KeywordRule(lowerUrl, keywords);
    KeywordsOnlyInMiddle(front, kp, back, i);
    KeywordsOnlyInMiddle(front, kp, back, j);
    a, b := KeywordRuleOrder(lowerUrl, keywords, i - |front|, j - |front|);
  }

  /** Each entry of `front + middle + back` is an entry of `front`, an entry
      of `back`, or the matching entry of `middle`. */
  lemma EntryOfThree(front: seq<Warning>, middle: seq<Warning>, back: seq<Warning>, i: nat)
    requires i < |front + middle + back|
    ensures || (front + middle + back)[i] in front
            || (front + middle + back)[i] in back
            || (|front| <= i < |front| + |middle| && (front + middle + back)[i] == middle[i - |front|])
  {
    var s := front + middle + back;
    if i < |front| {
      assert s[i] == front[i];
    } else if i >= |front| + |middle| {
      assert s[i] == back[i - |front| - |middle|];
    }
  }

  /** The `k`-th entry of `middle` sits at index `|front| + k`. */
  lemma MiddleAt(front: seq<Warning>, middle: seq<Warning>, back: seq<Warning>, k: nat)
    requires k < |middle|
    ensures (front + middle + back)[|front| + k] == middle[k]
  {
  }

  /** The joined segments, grouped as the rules before the keyword rule, the
      keyword part and the rules after it. */
  lemma JoinThreeParts(c1: bool, c2: bool, keywordPart: seq<Warning>, c4: bool, c5: bool, c6: bool, c7: bool)
    ensures Join(c1, c2, keywordPart, c4, c5, c6, c7)
         == (Emit(c1, IpAddress) + Emit(c2, TooManyDots)) + keywordPart
            + (Emit(c4, Untrusted) + Emit(c5, Shortener) + Emit(c6, Typosquat) + Emit(c7, InsecureHttp))
  {
  }

  /** Neither group around the keyword part holds a keyword warning. */
  lemma NoKeywordAround(c1: bool, c2: bool, c4: bool, c5: bool, c6: bool, c7: bool)
    ensures forall w :: Keyword(w) !in Emit(c1, IpAddress) + Emit(c2, TooManyDots)
    ensures forall w :: Keyword(w) !in Emit(c4, Untrusted) + Emit(c5, Shortener) + Emit(c6, Typosquat) + Emit(c7, InsecureHttp)
  {
  }

  /** `Evaluate` is the seven segments joined in rule order. */
  lemma EvaluateIsJoin(url: string, pageProtocol: string, cfg: RuleConfig)
    ensures Evaluate(url, pageProtocol, cfg) == Join(
      MatchesIpPrefix(url), Count(url, '.') > cfg.maxDots, KeywordRule(AsciiLower(url), cfg.keywords),
      !ContainsAny(url, cfg.trusted), ContainsAny(AsciiLower(url), cfg.shorteners), ContainsAny(AsciiLower(url), cfg.typos),
      StartsWith(url, "http://") && pageProtocol == SecurePage)
  {
  }

  /** The keyword clause of `Evaluate`, for every keyword at once. */
  lemma KeywordsCounted(lowerUrl: string, keywords: seq<string>, c1: bool, c2: bool, c4: bool, c5: bool, c6: bool, c7: bool)
    ensures forall w ::
              Count(Join(c1, c2, KeywordRule(lowerUrl, keywords), c4, c5, c6, c7), Keyword(w))
              == if Contains(lowerUrl, w) then Count(keywords, w) else 0
  {
    forall w
      ensures Count(Join(c1, c2, KeywordRule(lowerUrl, keywords), c4, c5, c6, c7), Keyword(w))
        == if Contains(lowerUrl, w) then Count(keywords, w) else 0
    {
      JoinCountKeyword(c1, c2, KeywordRule(lowerUrl, keywords), c4, c5, c6, c7, w);
      KeywordRuleCount(lowerUrl, keywords, w);
    }
  }

  /** `analyzeUrl(url)` with the shipped tables, on a page whose protocol is
      `pageProtocol`. At most twelve warnings: one for each of the six
      single-warning rules and one for each of the six keywords; an IP
      warning, when raised, comes first. */
  function AnalyzeUrl(url: string, pageProtocol: string): (r: seq<Warning>)
    ensures |r| <= 12
    ensures MatchesIpPrefix(url) <==> |r| > 0 && r[0] == IpAddress
    ensures RuleOrdered(r)
  {
    Evaluate(url, pageProtocol, DefaultConfig)
  }

  /** The script's rule 3 loop: for each keyword in list order, push its
      text when the lower-cased URL contains it. */
  method PushKeywordWarnings(lowerUrl: string, keywords: seq<string>, warnings: seq<string>) returns (out: seq<string>)
    ensures out == warnings + RenderAll(KeywordRule(lowerUrl, keywords))
  {
    out := warnings;
    var k := 0;
    while k < |keywords|
      invariant 0 <= k <= |keywords|
      invariant out == warnings + RenderAll(KeywordRule(lowerUrl, keywords[..k]))
    {
      var word := keywords[k];
      KeywordStep(lowerUrl, keywords, k, warnings, out);
      out := PushWhen(Contains(lowerUrl, word), Keyword(word), out);
      k := k + 1;
    }
    assert keywords[..k] == keywords;
  }

  /** One turn of the keyword loop extends the texts by those of one more
      keyword's segment. */
  lemma KeywordStep(lowerUrl: string, keywords: seq<string>, k: nat, warnings: seq<string>, out: seq<string>)
    requires k < |keywords|
    requires out == warnings + RenderAll(KeywordRule(lowerUrl, keywords[..k]))
    ensures out + RenderAll(Emit(Contains(lowerUrl, keywords[k]), Keyword(keywords[k])))
         == warnings + RenderAll(KeywordRule(lowerUrl, keywords[..k + 1]))
  {
    var before, step := KeywordRule(lowerUrl, keywords[..k]), Emit(Contains(lowerUrl, keywords[k]), Keyword(keywords[k]));
    assert keywords[..k + 1] == keywords[..k] + [keywords[k]];
    KeywordRuleSnoc(lowerUrl, keywords[..k], keywords[k]);
    RenderAllAppend(before, step);
  }

  /** The script's rule 6 loop: scan the typo domains in order and stop at the
      first one the lower-cased URL contains. */
  method FindTypo(lowerUrl: string, typos: seq<string>) returns (found: bool)
    ensures found <==> ContainsAny(lowerUrl, typos)
  {
    found := false;
    var i := 0;
    while i < |typos|
      invariant 0 <= i <= |typos|
      invariant !ContainsAny(lowerUrl, typos[..i])
    {
      if Contains(lowerUrl, typos[i]) {
        found := true;
        break;
      }
      assert typos[..i + 1] == typos[..i] + [typos[i]];
      i := i + 1;
    }
    if !found {
      assert typos[..i] == typos;
    }
  }

  // The steps methods below keep the script's literals `3` and `"https:"`
  // on purpose, where `Evaluate` uses `MaxDots` and `SecurePage`.

  /** The script's own steps: a list of texts built by pushing, the keyword
      loop, the three shortener tests joined by `||`, and the typo loop that
      leaves at the first match. It produces exactly the texts of the
      warnings `AnalyzeUrl` computes. */
  method AnalyzeUrlSteps(url: string, pageProtocol: string) returns (warnings: seq<string>)
    ensures warnings == RenderAll(AnalyzeUrl(url, pageProtocol))
  {
    var lowerUrl := AsciiLower(url);
    warnings := FirstSteps(url, lowerUrl);
    var shortened, typo;
    warnings, shortened, typo := LastSteps(url, lowerUrl, pageProtocol, warnings);
    StepsAreAnalyzeUrl(url, pageProtocol, shortened, typo, warnings);
  }

  /** Rules 1 to 3 of the script's steps. */
  method FirstSteps(url: string, lowerUrl: string) returns (warnings: seq<string>)
    ensures warnings == RenderAll(Emit(MatchesIpPrefix(url), IpAddress)) + RenderAll(Emit(Count(url, '.') > 3, TooManyDots))
      + RenderAll(KeywordRule(lowerUrl, SuspiciousKeywords))
  {
    warnings := [];
    warnings := PushWhen(MatchesIpPrefix(url), IpAddress, warnings);
    assert warnings == RenderAll(Emit(MatchesIpPrefix(url), IpAddress));

    var dotCount := Count(url, '.');
    warnings := PushWhen(dotCount > 3, TooManyDots, warnings);

    warnings := PushKeywordWarnings(lowerUrl, SuspiciousKeywords, warnings);
  }

  /** Rules 4 to 7 of the script's steps, appended to the texts of rules 1
      to 3; also reports the outcomes of rules 5 and 6. */
  method LastSteps(url: string, lowerUrl: string, pageProtocol: string, warnings: seq<string>)
      returns (out: seq<string>, shortened: bool, typo: bool)
    ensures shortened == ContainsAny(lowerUrl, ShortenerMarkers)
    ensures typo == ContainsAny(lowerUrl, CommonTypos)
    ensures out == warnings + RenderAll(Emit(!ContainsAny(url, TrustedDomains), Untrusted))
      + RenderAll(Emit(shortened, Shortener)) + RenderAll(Emit(typo, Typosquat))
      + RenderAll(Emit(StartsWith(url, "http://") && pageProtocol == "https:", InsecureHttp))
  {
    var isTrusted := ContainsAny(url, TrustedDomains);
    out := PushWhen(!isTrusted, Untrusted, warnings);

    shortened := Contains(lowerUrl, "bit.ly") || Contains(lowerUrl, "tinyurl.com") || Contains(lowerUrl, "goo.gl");
    out := PushWhen(shortened, Shortener, out);

    typo := FindTypo(lowerUrl, CommonTypos);
    out := PushWhen(typo, Typosquat, out);

    var mixed := StartsWith(url, "http://") && pageProtocol == "https:";
    out := PushWhen(mixed, InsecureHttp, out);

    ShortenerTest(lowerUrl);
  }

  /** The texts the steps push, segment by segment, are the texts of
      `AnalyzeUrl`'s warnings. */
  lemma StepsAreAnalyzeUrl(url: string, pageProtocol: string, shortened: bool, typo: bool, warnings: seq<string>)
    requires shortened == ContainsAny(AsciiLower(url), ShortenerMarkers)
    requires typo == ContainsAny(AsciiLower(url), CommonTypos)
    requires warnings ==
      RenderAll(Emit(MatchesIpPrefix(url), IpAddress)) + RenderAll(Emit(Count(url, '.') > 3, TooManyDots))
      + RenderAll(KeywordRule(AsciiLower(url), SuspiciousKeywords)) + RenderAll(Emit(!ContainsAny(url, TrustedDomains), Untrusted))
      + RenderAll(Emit(shortened, Shortener)) + RenderAll(Emit(typo, Typosquat))
      + RenderAll(Emit(StartsWith(url, "http://") && pageProtocol == "https:", InsecureHttp))
    ensures warnings == RenderAll(AnalyzeUrl(url, pageProtocol))
  {
    RenderJoin(MatchesIpPrefix(url), Count(url, '.') > 3, KeywordRule(AsciiLower(url), SuspiciousKeywords),
      !ContainsAny(url, TrustedDomains), shortened, typo, StartsWith(url, "http://") && pageProtocol == "https:");
    JoinIsAnalyzeUrl(url, pageProtocol, shortened, typo);
  }

  /** With the conditions of rules 5 and 6 computed as the script does, the
      joined segments are `AnalyzeUrl`'s result. */
  lemma JoinIsAnalyzeUrl(url: string, pageProtocol: string, shortened: bool, typo: bool)
    requires shortened == ContainsAny(AsciiLower(url), ShortenerMarkers)
    requires typo == ContainsAny(AsciiLower(url), CommonTypos)
    ensures AnalyzeUrl(url, pageProtocol) == Join(
      MatchesIpPrefix(url), Count(url, '.') > 3, KeywordRule(AsciiLower(url), SuspiciousKeywords),
      !ContainsAny(url, TrustedDomains), shortened, typo, StartsWith(url, "http://") && pageProtocol == "https:")
  {
  }

  /** The three `includes` tests of rule 5 joined by `||` are the test
      against the list of shortener markers. */
  lemma ShortenerTest(lowerUrl: string)
    ensures (Contains(lowerUrl, "bit.ly") || Contains(lowerUrl, "tinyurl.com") || Contains(lowerUrl, "goo.gl"))
        <==> ContainsAny(lowerUrl, ShortenerMarkers)
  {
    assert ShortenerMarkers[0] == "bit.ly" && ShortenerMarkers[1] == "tinyurl.com" && ShortenerMarkers[2] == "goo.gl";
  }

  /** `if (cond) warnings.push(text)`: the text of `w` is pushed exactly when
      `cond` holds. */
  method PushWhen(cond: bool, w: Warning, warnings: seq<string>) returns (out: seq<string>)
    ensures out == warnings + RenderAll(Emit(cond, w))
  {
    out := warnings;
    if cond {
      out := out + [Render(w)];
    }
  }

  /** Rendering the joined segments renders each segment in turn. */
  lemma RenderJoin(c1: bool, c2: bool, keywordPart: seq<Warning>, c4: bool, c5: bool, c6: bool, c7: bool)
    ensures RenderAll(Join(c1, c2, keywordPart, c4, c5, c6, c7)) ==
      RenderAll(Emit(c1, IpAddress)) + RenderAll(Emit(c2, TooManyDots)) + RenderAll(keywordPart)
      + RenderAll(Emit(c4, Untrusted)) + RenderAll(Emit(c5, Shortener)) + RenderAll(Emit(c6, Typosquat))
      + RenderAll(Emit(c7, InsecureHttp))
  {
    var e1, e2, e4 := Emit(c1, IpAddress), Emit(c2, TooManyDots), Emit(c4, Untrusted);
    var e5, e6, e7 := Emit(c5, Shortener), Emit(c6, Typosquat), Emit(c7, InsecureHttp);
    RenderAllAppend(e1, e2);
    RenderAllAppend(e1 + e2, keywordPart);
    RenderAllAppend(e1 + e2 + keywordPart, e4);
    RenderAllAppend(e1 + e2 + keywordPart + e4, e5);
    RenderAllAppend(e1 + e2 + keywordPart + e4 + e5, e6);
    RenderAllAppend(e1 + e2 + keywordPart + e4 + e5 + e6, e7);
  }

}
