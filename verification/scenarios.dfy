/** Results of `AnalyzeUrl` (script.js:72-130) on fixed URLs, proved rule
    by rule. Each fact about a literal URL is proved on its own: a
    missing character rules a pattern out, and the dots are counted over the
    URL cut at its dots. */
module Scenarios {
  import opened Strings
  import opened IpPattern
  import opened Warnings
  import opened Analyzer
  import opened AnalyzerProperties

  /** `AnalyzeUrl` from the outcome of each rule's test. */
  lemma FromRuleOutcomes(url: string, pageProtocol: string, ip: bool, dots: bool, keywords: seq<Warning>,
                         untrusted: bool, shortened: bool, typo: bool, insecure: bool)
    requires MatchesIpPrefix(url) == ip
    requires (Count(url, '.') > MaxDots) == dots
    requires KeywordRule(AsciiLower(url), SuspiciousKeywords) == keywords
    requires ContainsAny(url, TrustedDomains) == !untrusted
    requires ContainsAny(AsciiLower(url), ShortenerMarkers) == shortened
    requires ContainsAny(AsciiLower(url), CommonTypos) == typo
    requires (StartsWith(url, "http://") && pageProtocol == SecurePage) == insecure
    ensures AnalyzeUrl(url, pageProtocol) == Join(ip, dots, keywords, untrusted, shortened, typo, insecure)
  {
    JoinIsAnalyzeUrl(url, pageProtocol, shortened, typo);
  }

  lemma JoinNone()
    ensures Join(false, false, [], false, false, false, false) == []
  {
  }

  lemma JoinKeywordOnly(w: Warning)
    ensures Join(false, false, [w], false, false, false, false) == [w]
  {
  }

  lemma JoinPrivateIp(w: Warning)
    ensures Join(true, false, [w], true, false, false, true) == [IpAddress, w, Untrusted, InsecureHttp]
  {
  }

  lemma JoinTyposquatAccount(w: Warning)
    ensures Join(false, false, [w], true, false, true, false) == [w, Untrusted, Typosquat]
  {
  }

  lemma JoinBareIp()
    ensures Join(true, false, [], true, false, false, true) == [IpAddress, Untrusted, InsecureHttp]
  {
  }

  lemma JoinShortLink()
    ensures Join(false, false, [], true, true, false, false) == [Untrusted, Shortener]
  {
  }

  /** Rule 3 from the outcome of each keyword's test. */
  lemma KeywordsFromOutcomes(lower: string, login: bool, verify: bool, update: bool, secure: bool, account: bool, banking: bool)
    requires Contains(lower, "login") == login && Contains(lower, "verify") == verify
    requires Contains(lower, "update") == update && Contains(lower, "secure") == secure
    requires Contains(lower, "account") == account && Contains(lower, "banking") == banking
    ensures KeywordRule(lower, SuspiciousKeywords) ==
      Emit(login, Keyword("login")) + (Emit(verify, Keyword("verify")) + (Emit(update, Keyword("update"))
      + (Emit(secure, Keyword("secure")) + (Emit(account, Keyword("account")) + Emit(banking, Keyword("banking"))))))
  {
    DefaultKeywordRule(lower);
  }

  /** None of the trusted domains occurs. */
  lemma NoTrustedDomain(url: string)
    requires !Contains(url, "paypal.com") && !Contains(url, "google.com") && !Contains(url, "microsoft.com")
    requires !Contains(url, "bankofamerica.com") && !Contains(url, "canvas.fau.edu")
    ensures !ContainsAny(url, TrustedDomains)
  {
  }

  /** None of the shortener markers occurs. */
  lemma NoShortener(lower: string)
    requires !Contains(lower, "bit.ly") && !Contains(lower, "tinyurl.com") && !Contains(lower, "goo.gl")
    ensures !ContainsAny(lower, ShortenerMarkers)
  {
    ShortenerTest(lower);
  }

  /** None of the typo domains occurs. */
  lemma NoTypo(lower: string)
    requires !Contains(lower, "goggle.com") && !Contains(lower, "facebok.com")
    requires !Contains(lower, "amazom.com") && !Contains(lower, "microsft.com")
    ensures !ContainsAny(lower, CommonTypos)
  {
  }

  // https://www.google.com

  lemma GooglePieces()
    ensures "https://www.google.com" == "https://www" + ['.'] + ("google" + ['.'] + "com")
  {
  }

  lemma GoogleDotsInPieces()
    ensures Count("https://www" + ['.'] + ("google" + ['.'] + "com"), '.') == 2
  {
    CountPastSeparator("https://www", '.', "google" + ['.'] + "com");
    CountPastSeparator("google", '.', "com");
  }

  lemma GoogleDots()
    ensures Count("https://www.google.com", '.') <= MaxDots
  {
    GooglePieces();
    GoogleDotsInPieces();
  }

  lemma GoogleScheme()
    ensures !MatchesIpPrefix("https://www.google.com")
    ensures !StartsWith("https://www.google.com", "http://")
  {
    assert "https://www.google.com"[..7][4] == 's';
    assert "https://www.google.com"[8..] == "www.google.com";
  }

  lemma GoogleLower()
    ensures AsciiLower("https://www.google.com") == "https://www.google.com"
  {
    AsciiLowerOfLower("https://www.google.com");
  }

  lemma GoogleNoKeyword()
    ensures KeywordRule("https://www.google.com", SuspiciousKeywords) == []
  {
    NoneContainedByChars("https://www.google.com", SuspiciousKeywords, "ivuuab");
    KeywordRuleEmptyIff("https://www.google.com", SuspiciousKeywords);
  }

  lemma GoogleTrusted()
    ensures ContainsAny("https://www.google.com", TrustedDomains)
  {
    ContainsAt("https://www.google.com", "google.com", 12);
    assert TrustedDomains[1] == "google.com";
  }

  lemma GoogleNoShortener()
    ensures !ContainsAny("https://www.google.com", ShortenerMarkers)
  {
    NotContainsChar("https://www.google.com", "bit.ly", 'b');
    NotContainsChar("https://www.google.com", "tinyurl.com", 'i');
    NotContainsByPair("https://www.google.com", "goo.gl", 2);
    NoShortener("https://www.google.com");
  }

  lemma GoogleNotGoggleOrFacebok()
    ensures !Contains("https://www.google.com", "goggle.com")
    ensures !Contains("https://www.google.com", "facebok.com")
  {
    NotContainsByPair("https://www.google.com", "goggle.com", 2);
    NotContainsChar("https://www.google.com", "facebok.com", 'f');
  }

  lemma GoogleNoTypo()
    ensures !ContainsAny("https://www.google.com", CommonTypos)
  {
    GoogleNotGoggleOrFacebok();
    NotContainsChar("https://www.google.com", "amazom.com", 'a');
    NotContainsChar("https://www.google.com", "microsft.com", 'i');
    NoTypo("https://www.google.com");
  }

  /** `https://www.google.com` on a secure page raises no warning. */
  lemma GoogleIsClean()
    ensures AnalyzeUrl("https://www.google.com", SecurePage) == []
  {
    GoogleScheme();
    GoogleDots();
    GoogleNoKeyword();
    GoogleTrusted();
    GoogleNoShortener();
    GoogleNoTypo();
    GoogleLower();
    FromRuleOutcomes("https://www.google.com", SecurePage, false, false, [], false, false, false, false);
    JoinNone();
  }

  // https://paypal.com/login

  lemma PaypalLoginPieces()
    ensures "https://paypal.com/login" == "https://paypal" + ['.'] + "com/login"
  {
  }

  lemma PaypalLoginScheme()
    ensures !MatchesIpPrefix("https://paypal.com/login")
    ensures !StartsWith("https://paypal.com/login", "http://")
  {
    assert "https://paypal.com/login"[..7][4] == 's';
    assert "https://paypal.com/login"[8..][0] == 'p';
  }

  lemma PaypalLoginDotsInPieces()
    ensures Count("https://paypal" + ['.'] + "com/login", '.') == 1
  {
    assert '.' !in "https://paypal" && '.' !in "com/login";
    CountPastSeparator("https://paypal", '.', "com/login");
  }

  lemma PaypalLoginDots()
    ensures Count("https://paypal.com/login", '.') <= MaxDots
  {
    PaypalLoginPieces();
    PaypalLoginDotsInPieces();
  }

  lemma PaypalLoginKeywords()
    ensures KeywordRule("https://paypal.com/login", SuspiciousKeywords) == [Keyword("login")]
  {
    var u := "https://paypal.com/login";
    ContainsAt(u, "login", 19);
    NoneContainedByChars(u, SuspiciousKeywords[1..], "vueub");
    KeywordRuleEmptyIff(u, SuspiciousKeywords[1..]);
    assert SuspiciousKeywords[0] == "login";
  }

  lemma PaypalLoginTrusted()
    ensures ContainsAny("https://paypal.com/login", TrustedDomains)
  {
    ContainsAt("https://paypal.com/login", "paypal.com", 8);
    assert TrustedDomains[0] == "paypal.com";
  }

  lemma PaypalLoginNoShortener()
    ensures !ContainsAny("https://paypal.com/login", ShortenerMarkers)
  {
    var u := "https://paypal.com/login";
    NotContainsChar(u, "bit.ly", 'b');
    NotContainsChar(u, "tinyurl.com", 'u');
    NotContainsByPair(u, "goo.gl", 1);
    NoShortener(u);
  }

  lemma PaypalLoginNoTypo()
    ensures !ContainsAny("https://paypal.com/login", CommonTypos)
  {
    NoneContainedByChars("https://paypal.com/login", CommonTypos, "efzr");
  }

  lemma PaypalLoginLower()
    ensures AsciiLower("https://paypal.com/login") == "https://paypal.com/login"
  {
    AsciiLowerOfLower("https://paypal.com/login");
  }

  /** A trusted domain with a keyword in its path, on a secure page: only the
      keyword warning. */
  lemma PaypalLoginScenario()
    ensures AnalyzeUrl("https://paypal.com/login", SecurePage) == [Keyword("login")]
  {
    PaypalLoginScheme();
    PaypalLoginDots();
    PaypalLoginKeywords();
    PaypalLoginTrusted();
    PaypalLoginNoShortener();
    PaypalLoginNoTypo();
    PaypalLoginLower();
    FromRuleOutcomes("https://paypal.com/login", SecurePage, false, false, [Keyword("login")], false, false, false, false);
    JoinKeywordOnly(Keyword("login"));
  }

  // http://192.168.1.1/verify

  lemma PrivateIpPieces()
    ensures "http://192.168.1.1/verify" == "http://" + "192" + "." + "168" + "." + "1" + "." + "1" + "/verify"
    ensures "http://192.168.1.1/verify" == "http://192" + ['.'] + ("168" + ['.'] + ("1" + ['.'] + "1/verify"))
  {
  }

  lemma PrivateIpIsIp()
    ensures MatchesIpPrefix("http://192.168.1.1/verify")
  {
    PrivateIpPieces();
    IpLiteralFlagged("http://", "192", "168", "1", "1", "/verify");
  }

  lemma PrivateIpDotsInPieces()
    ensures Count("http://192" + ['.'] + ("168" + ['.'] + ("1" + ['.'] + "1/verify")), '.') == 3
  {
    CountPastSeparator("http://192", '.', "168" + ['.'] + ("1" + ['.'] + "1/verify"));
    CountPastSeparator("168", '.', "1" + ['.'] + "1/verify");
    CountPastSeparator("1", '.', "1/verify");
  }

  lemma PrivateIpDots()
    ensures Count("http://192.168.1.1/verify", '.') <= MaxDots
  {
    PrivateIpPieces();
    PrivateIpDotsInPieces();
  }

  lemma PrivateIpKeywordTests()
    ensures Contains("http://192.168.1.1/verify", "verify")
    ensures !ContainsAny("http://192.168.1.1/verify", ["login", "update", "secure", "account", "banking"])
  {
    ContainsAt("http://192.168.1.1/verify", "verify", 19);
    NoneContainedByChars("http://192.168.1.1/verify", ["login", "update", "secure", "account", "banking"], "lusab");
  }

  lemma PrivateIpKeywords()
    ensures KeywordRule("http://192.168.1.1/verify", SuspiciousKeywords) == [Keyword("verify")]
  {
    var u := "http://192.168.1.1/verify";
    var others := ["login", "update", "secure", "account", "banking"];
    PrivateIpKeywordTests();
    assert !Contains(u, others[0]) && !Contains(u, others[1]) && !Contains(u, others[2]);
    assert !Contains(u, others[3]) && !Contains(u, others[4]);
    KeywordsFromOutcomes(u, false, true, false, false, false, false);
  }

  lemma PrivateIpUntrusted()
    ensures !ContainsAny("http://192.168.1.1/verify", TrustedDomains)
  {
    NoneContainedByChars("http://192.168.1.1/verify", TrustedDomains, "agmaa");
  }

  lemma PrivateIpNoShortener()
    ensures !ContainsAny("http://192.168.1.1/verify", ShortenerMarkers)
  {
    NoneContainedByChars("http://192.168.1.1/verify", ShortenerMarkers, "bug");
  }

  lemma PrivateIpNoTypo()
    ensures !ContainsAny("http://192.168.1.1/verify", CommonTypos)
  {
    NoneContainedByChars("http://192.168.1.1/verify", CommonTypos, "gaam");
  }

  lemma PrivateIpLower()
    ensures AsciiLower("http://192.168.1.1/verify") == "http://192.168.1.1/verify"
  {
    AsciiLowerOfLower("http://192.168.1.1/verify");
  }

  lemma PrivateIpHttp()
    ensures StartsWith("http://192.168.1.1/verify", "http://")
  {
  }

  /** A plain-HTTP link to a private IP address with a keyword, opened from a
      secure page: four warnings, in rule order. */
  lemma PrivateIpScenario()
    ensures AnalyzeUrl("http://192.168.1.1/verify", SecurePage) == [IpAddress, Keyword("verify"), Untrusted, InsecureHttp]
  {
    PrivateIpOutcomes();
    JoinPrivateIp(Keyword("verify"));
  }

  /** The rule outcomes for the private-IP link, joined. */
  lemma PrivateIpOutcomes()
    ensures AnalyzeUrl("http://192.168.1.1/verify", SecurePage) == Join(true, false, [Keyword("verify")], true, false, false, true)
  {
    PrivateIpIsIp();
    PrivateIpDots();
    PrivateIpKeywords();
    PrivateIpUntrusted();
    PrivateIpNoShortener();
    PrivateIpNoTypo();
    PrivateIpLower();
    PrivateIpHttp();
    FromRuleOutcomes("http://192.168.1.1/verify", SecurePage, true, false, [Keyword("verify")], true, false, false, true);
  }

  /** `window.location.protocol` ends with a colon: a page protocol given
      as "https" without it never raises the insecure-connection warning,
      not even for a plain-HTTP URL. */
  lemma ProtocolWithoutColon(url: string)
    ensures InsecureHttp !in AnalyzeUrl(url, "https")
  {
    InsecureOnlyOnSecurePage(url, "https", DefaultConfig);
  }

  // https://bit.ly/xyz

  lemma ShortLinkPieces()
    ensures "https://bit.ly/xyz" == "https://bit" + ['.'] + "ly/xyz"
  {
  }

  lemma ShortLinkScheme()
    ensures !MatchesIpPrefix("https://bit.ly/xyz")
    ensures !StartsWith("https://bit.ly/xyz", "http://")
  {
    assert "https://bit.ly/xyz"[..7][4] == 's';
    assert "https://bit.ly/xyz"[8..][0] == 'b';
  }

  lemma ShortLinkDotsInPieces()
    ensures Count("https://bit" + ['.'] + "ly/xyz", '.') == 1
  {
    assert '.' !in "https://bit" && '.' !in "ly/xyz";
    CountPastSeparator("https://bit", '.', "ly/xyz");
  }

  lemma ShortLinkDots()
    ensures Count("https://bit.ly/xyz", '.') <= MaxDots
  {
    ShortLinkPieces();
    ShortLinkDotsInPieces();
  }

  lemma ShortLinkNoKeyword()
    ensures KeywordRule("https://bit.ly/xyz", SuspiciousKeywords) == []
  {
    NoneContainedByChars("https://bit.ly/xyz", SuspiciousKeywords, "gvuuaa");
    KeywordRuleEmptyIff("https://bit.ly/xyz", SuspiciousKeywords);
  }

  lemma ShortLinkUntrusted()
    ensures !ContainsAny("https://bit.ly/xyz", TrustedDomains)
  {
    NoneContainedByChars("https://bit.ly/xyz", TrustedDomains, "agmaa");
  }

  lemma ShortLinkShortener()
    ensures ContainsAny("https://bit.ly/xyz", ShortenerMarkers)
  {
    ContainsAt("https://bit.ly/xyz", "bit.ly", 8);
    assert ShortenerMarkers[0] == "bit.ly";
  }

  lemma ShortLinkNoTypo()
    ensures !ContainsAny("https://bit.ly/xyz", CommonTypos)
  {
    NoneContainedByChars("https://bit.ly/xyz", CommonTypos, "gfam");
  }

  lemma ShortLinkLower()
    ensures AsciiLower("https://bit.ly/xyz") == "https://bit.ly/xyz"
  {
    AsciiLowerOfLower("https://bit.ly/xyz");
  }

  /** A shortened link: untrusted and shortened, no keyword warning. */
  lemma ShortLinkScenario()
    ensures AnalyzeUrl("https://bit.ly/xyz", SecurePage) == [Untrusted, Shortener]
  {
    ShortLinkScheme();
    ShortLinkDots();
    ShortLinkNoKeyword();
    ShortLinkUntrusted();
    ShortLinkShortener();
    ShortLinkNoTypo();
    ShortLinkLower();
    FromRuleOutcomes("https://bit.ly/xyz", SecurePage, false, false, [], true, true, false, false);
    JoinShortLink();
  }

  // https://goggle.com/account

  lemma LookalikePieces()
    ensures "https://goggle.com/account" == "https://goggle" + ['.'] + "com/account"
  {
  }

  lemma LookalikeDotsInPieces()
    ensures Count("https://goggle" + ['.'] + "com/account", '.') == 1
  {
    assert '.' !in "https://goggle" && '.' !in "com/account";
    CountPastSeparator("https://goggle", '.', "com/account");
  }

  lemma LookalikeDots()
    ensures Count("https://goggle.com/account", '.') <= MaxDots
  {
    LookalikePieces();
    LookalikeDotsInPieces();
  }

  lemma LookalikeScheme()
    ensures !MatchesIpPrefix("https://goggle.com/account")
    ensures !StartsWith("https://goggle.com/account", "http://")
  {
    assert "https://goggle.com/account"[..7][4] == 's';
    assert "https://goggle.com/account"[8..][0] == 'g';
  }

  lemma LookalikeLower()
    ensures AsciiLower("https://goggle.com/account") == "https://goggle.com/account"
  {
    AsciiLowerOfLower("https://goggle.com/account");
  }

  lemma LookalikeKeywordTests()
    ensures Contains("https://goggle.com/account", "account")
    ensures !ContainsAny("https://goggle.com/account", ["login", "verify", "update", "secure", "banking"])
  {
    ContainsAt("https://goggle.com/account", "account", 19);
    NoneContainedByChars("https://goggle.com/account", ["login", "verify", "update", "secure", "banking"], "ivdrb");
  }

  lemma LookalikeKeywords()
    ensures KeywordRule("https://goggle.com/account", SuspiciousKeywords) == [Keyword("account")]
  {
    var u := "https://goggle.com/account";
    var others := ["login", "verify", "update", "secure", "banking"];
    LookalikeKeywordTests();
    assert !Contains(u, others[0]) && !Contains(u, others[1]) && !Contains(u, others[2]);
    assert !Contains(u, others[3]) && !Contains(u, others[4]);
    KeywordsFromOutcomes(u, false, false, false, false, true, false);
  }

  lemma LookalikeNotPaypal()
    ensures !Contains("https://goggle.com/account", "paypal.com")
  {
    NotContainsChar("https://goggle.com/account", "paypal.com", 'y');
  }

  lemma LookalikeNotGoogle()
    ensures !Contains("https://goggle.com/account", "google.com")
  {
    NotContainsByPair("https://goggle.com/account", "google.com", 1);
  }

  lemma LookalikeNotMicrosoft()
    ensures !Contains("https://goggle.com/account", "microsoft.com")
  {
    NotContainsChar("https://goggle.com/account", "microsoft.com", 'i');
  }

  lemma LookalikeNotBank()
    ensures !Contains("https://goggle.com/account", "bankofamerica.com")
  {
    NotContainsChar("https://goggle.com/account", "bankofamerica.com", 'b');
  }

  lemma LookalikeNotCanvas()
    ensures !Contains("https://goggle.com/account", "canvas.fau.edu")
  {
    NotContainsChar("https://goggle.com/account", "canvas.fau.edu", 'v');
  }

  /** The look-alike of google.com is not google.com. */
  lemma LookalikeUntrusted()
    ensures !ContainsAny("https://goggle.com/account", TrustedDomains)
  {
    LookalikeNotPaypal();
    LookalikeNotGoogle();
    LookalikeNotMicrosoft();
    LookalikeNotBank();
    LookalikeNotCanvas();
    NoTrustedDomain("https://goggle.com/account");
  }

  lemma LookalikeNotGooGl()
    ensures !Contains("https://goggle.com/account", "goo.gl")
  {
    NotContainsByPair("https://goggle.com/account", "goo.gl", 1);
  }

  lemma LookalikeNoShortener()
    ensures !ContainsAny("https://goggle.com/account", ShortenerMarkers)
  {
    NotContainsChar("https://goggle.com/account", "bit.ly", 'b');
    NotContainsChar("https://goggle.com/account", "tinyurl.com", 'i');
    LookalikeNotGooGl();
    NoShortener("https://goggle.com/account");
  }

  lemma LookalikeTyposquat()
    ensures ContainsAny("https://goggle.com/account", CommonTypos)
  {
    ContainsAt("https://goggle.com/account", "goggle.com", 8);
    assert CommonTypos[0] == "goggle.com";
  }

  /** A look-alike of a trusted domain with a keyword: the keyword, untrusted
      and typosquatting warnings, in that order. */
  lemma LookalikeScenario()
    ensures AnalyzeUrl("https://goggle.com/account", SecurePage) == [Keyword("account"), Untrusted, Typosquat]
  {
    LookalikeScheme();
    LookalikeDots();
    LookalikeKeywords();
    LookalikeUntrusted();
    LookalikeNoShortener();
    LookalikeTyposquat();
    LookalikeLower();
    FromRuleOutcomes("https://goggle.com/account", SecurePage, false, false, [Keyword("account")], true, false, true, false);
    JoinTyposquatAccount(Keyword("account"));
  }

  // http://1.2.3.4

  lemma BareIpPieces()
    ensures "http://1.2.3.4" == "http://" + "1" + "." + "2" + "." + "3" + "." + "4" + ""
    ensures "http://1.2.3.4" == "http://1" + ['.'] + ("2" + ['.'] + ("3" + ['.'] + "4"))
  {
  }

  lemma BareIpScheme()
    ensures MatchesIpPrefix("http://1.2.3.4")
    ensures StartsWith("http://1.2.3.4", "http://")
  {
    BareIpPieces();
    IpLiteralFlagged("http://", "1", "2", "3", "4", "");
  }

  lemma BareIpDotsInPieces()
    ensures Count("http://1" + ['.'] + ("2" + ['.'] + ("3" + ['.'] + "4")), '.') == 3
  {
    CountPastSeparator("http://1", '.', "2" + ['.'] + ("3" + ['.'] + "4"));
    CountPastSeparator("2", '.', "3" + ['.'] + "4");
    CountPastSeparator("3", '.', "4");
  }

  /** Three dots are not too many: the threshold is strictly greater than 3. */
  lemma BareIpDots()
    ensures Count("http://1.2.3.4", '.') == 3
    ensures Count("http://1.2.3.4", '.') <= MaxDots
  {
    BareIpPieces();
    BareIpDotsInPieces();
  }

  lemma BareIpNoKeyword()
    ensures KeywordRule("http://1.2.3.4", SuspiciousKeywords) == []
  {
    NoneContainedByChars("http://1.2.3.4", SuspiciousKeywords, "lvusab");
    KeywordRuleEmptyIff("http://1.2.3.4", SuspiciousKeywords);
  }

  lemma BareIpUntrusted()
    ensures !ContainsAny("http://1.2.3.4", TrustedDomains)
  {
    NoneContainedByChars("http://1.2.3.4", TrustedDomains, "agmaa");
  }

  lemma BareIpNoShortener()
    ensures !ContainsAny("http://1.2.3.4", ShortenerMarkers)
  {
    NoneContainedByChars("http://1.2.3.4", ShortenerMarkers, "bug");
  }

  lemma BareIpNoTypo()
    ensures !ContainsAny("http://1.2.3.4", CommonTypos)
  {
    NoneContainedByChars("http://1.2.3.4", CommonTypos, "gaam");
  }

  lemma BareIpLower()
    ensures AsciiLower("http://1.2.3.4") == "http://1.2.3.4"
  {
    AsciiLowerOfLower("http://1.2.3.4");
  }

  /** A bare IPv4 address over plain HTTP from a secure page: its three dots
      raise no dot warning. */
  lemma BareIpScenario()
    ensures AnalyzeUrl("http://1.2.3.4", SecurePage) == [IpAddress, Untrusted, InsecureHttp]
  {
    BareIpScheme();
    BareIpDots();
    BareIpNoKeyword();
    BareIpUntrusted();
    BareIpNoShortener();
    BareIpNoTypo();
    BareIpLower();
    FromRuleOutcomes("http://1.2.3.4", SecurePage, true, false, [], true, false, false, true);
    JoinBareIp();
  }

  // Rule 4 is case-sensitive and looks anywhere in the URL.

  /** An upper-case spelling of a trusted domain is not trusted. */
  lemma UpperCaseDomainUntrusted(pageProtocol: string)
    ensures Untrusted in AnalyzeUrl("https://PAYPAL.com", pageProtocol)
  {
    NoneContainedByChars("https://PAYPAL.com", TrustedDomains, "agibv");
    UntrustedIff("https://PAYPAL.com", pageProtocol, DefaultConfig);
  }

  /** A trusted domain anywhere in the path makes any host trusted. */
  lemma TrustedNameInPathTrusted(pageProtocol: string)
    ensures Untrusted !in AnalyzeUrl("https://evil.com/paypal.com", pageProtocol)
  {
    ContainsAt("https://evil.com/paypal.com", "paypal.com", 17);
    assert TrustedDomains[0] == "paypal.com";
  }

  // Rule 6 stops at the first typo domain.

  lemma TwoTyposLower()
    ensures AsciiLower("https://goggle.com/facebok.com") == "https://goggle.com/facebok.com"
  {
    AsciiLowerOfLower("https://goggle.com/facebok.com");
  }

  lemma TwoTyposPieces()
    ensures "https://goggle.com/facebok.com" == "https://" + "goggle.com" + "/facebok.com"
    ensures "https://goggle.com/facebok.com" == "https://goggle.com/" + "facebok.com" + ""
  {
  }

  lemma TwoTyposContained()
    ensures Contains("https://goggle.com/facebok.com", "goggle.com")
    ensures Contains("https://goggle.com/facebok.com", "facebok.com")
  {
    TwoTyposPieces();
    ContainsMiddle("https://", "goggle.com", "/facebok.com");
    ContainsMiddle("https://goggle.com/", "facebok.com", "");
  }

  /** A URL holding two typo domains gets a single typosquatting warning. */
  lemma TwoTyposOneWarning(pageProtocol: string)
    ensures Contains("https://goggle.com/facebok.com", "goggle.com")
    ensures Contains("https://goggle.com/facebok.com", "facebok.com")
    ensures Count(AnalyzeUrl("https://goggle.com/facebok.com", pageProtocol), Typosquat) == 1
  {
    TwoTyposContained();
    assert CommonTypos[0] == "goggle.com";
    TwoTyposLower();
  }
}
