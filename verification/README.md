# Phishing URL checker: the rule evaluator

This project models `analyzeUrl`, the decision logic of a client-side
phishing URL checker, and proves properties of it. `analyzeUrl` takes a URL
string and applies seven fixed heuristics in a fixed order. It returns the
warnings they raise, in that order:

1. an IP-literal prefix (`^https?:\/\/\d+\.\d+\.\d+\.\d+`);
2. more than three `.` characters anywhere in the URL;
3. one warning per suspicious keyword in the lower-cased URL, in list order;
4. no trusted domain occurring in the URL. This test is case-sensitive and
   matches the domain anywhere in the URL;
5. a URL-shortener marker in the lower-cased URL (at most one warning);
6. a typo domain in the lower-cased URL. The loop stops at the first match,
   so there is at most one warning;
7. a plain `http://` URL checked from a page served over `https:`.

The project has six modules:

- `Strings`: prefix test, substring search (`includes`), character count,
  and ASCII lower-casing.
- `Warnings`: the warning datatype, the exact texts the script pushes, and
  rule order.
- `IpPattern`: the regular expression of rule 1 as a recogniser. It is
  proved equal to a grammar of four dot-separated digit runs.
- `Analyzer`: the constant tables and `Evaluate`, the evaluator over any
  table configuration. `AnalyzeUrl` is `Evaluate` over the shipped tables.
  `AnalyzeUrlSteps` follows the script's own steps: pushes, the keyword
  loop, the `||` of three `includes` tests, and the typo loop with its
  `break`. It is proved to push exactly the texts of `AnalyzeUrl`'s
  warnings.
- `AnalyzerProperties`: one if-and-only-if lemma per rule, plus ordering,
  case-insensitivity, and empty-table properties.
- `Scenarios`: six fixed URLs with their complete warning lists, and
  single-rule facts about letter case, matching inside the path, the typo
  loop's `break` and the protocol string.

The script reads the page protocol from `window.location.protocol`. Here it
is the parameter `pageProtocol`. Its value on a secure page is `"https:"`,
with the colon, and rule 7 compares against exactly that string. A protocol
written `"https"`, without the colon, never fires rule 7
(`Scenarios.ProtocolWithoutColon`).

## Model

| member | source | states |
|---|---|---|
| Strings.StartsWithContains | script.js:125 | a URL that `startsWith` a prefix also `includes` it, the prefix being an occurrence at index 0 |
| Strings.Contains | script.js:90 | `includes`: no string longer than the URL occurs in it |
| Strings.ContainsEmpty | script.js:90 | `includes("")` is true for every string |
| Strings.ContainsAny | script.js:96 | `some` over `includes`: never true for an empty list |
| Strings.ContainsAnyWithEmpty | script.js:96 | a list holding the empty string matches every URL |
| Strings.Count | script.js:83 | the number of occurrences of a character is at most the length, and zero exactly when the character is absent, as for a URL without any dot |
| Strings.CountIsMultiplicity | script.js:83 | the dot count is the multiplicity of `.` in the URL's multiset of characters |
| Strings.AsciiLower | script.js:74 | lower-casing keeps the length, maps A-Z to a-z and leaves every other character alone |
| Strings.AsciiLowerIdempotent | script.js:74 | lower-casing twice is lower-casing once |
| Strings.ContainsLower | script.js:74 | an occurrence survives lower-casing of both strings, which is why case-insensitive rules see mixed-case spellings |
| Warnings.Message | script.js:79-126 | every warning text is non-empty, and only keyword texts end in a quote |
| Warnings.Render | script.js:79-126 | every pushed text opens with the warning sign U+26A0 U+FE0F and a space, and ends with a quote exactly for keyword warnings |
| Warnings.RenderAllAppend | script.js:73-129 | rendering distributes over concatenation, so pushing segment by segment yields the texts of the whole list |
| Warnings.RenderInjective | script.js:79-126 | distinct warnings have distinct texts |
| Warnings.RenderAllInjective | script.js:73-129 | the list of texts determines the list of warnings |
| IpPattern.MatchesIpPrefix | script.js:77-78 | a matching URL begins with `http://` or `https://` followed at once by a digit |
| IpPattern.DigitRunEnd | script.js:77 | the greedy `\d+` stops at the end or before a non-digit and covers only digits |
| IpPattern.DottedRunsIff | script.js:77 | the greedy recogniser accepts exactly the strings of `n` dot-separated digit runs followed by anything |
| IpPattern.MatchesIpPrefixIff | script.js:77-78 | the recogniser decides exactly the language of the anchored regular expression |
| IpPattern.IpLiteralFlagged | script.js:77-78 | every scheme + four digit runs + any tail is flagged |
| Analyzer.ShippedTablesLowerCase | script.js:2-116 | the keyword, trusted-domain, shortener and typo tables hold no upper-case letter |
| Analyzer.KeywordRule | script.js:89-93 | rule 3 yields only keyword warnings, at most one per listed keyword |
| Analyzer.KeywordRuleSnoc | script.js:89-93 | one more keyword at the end of the list adds at most its own warning at the end, as one more loop turn does |
| Analyzer.KeywordRuleCount | script.js:89-93 | a keyword is reported once per listed copy when the lower-cased URL contains it, and never otherwise |
| Analyzer.KeywordAt | script.js:89-93 | every keyword warning names a listed keyword the lower-cased URL contains |
| Analyzer.KeywordRuleOrder | script.js:89-93 | of two keyword warnings the earlier names a keyword listed earlier |
| Analyzer.Evaluate | script.js:72-130 | each single-warning rule's warning occurs once exactly when its condition holds and never otherwise; keyword warnings are counted per listed keyword; the result is in rule order and at most six longer than the keyword list |
| Analyzer.AnalyzeUrl | script.js:72-130 | with the shipped tables: at most twelve warnings, in rule order, with the IP warning first exactly when the URL has an IP-literal prefix |
| Analyzer.PushKeywordWarnings | script.js:89-93 | the keyword loop appends the texts of rule 3's warnings to the list |
| Analyzer.FindTypo | script.js:117-122 | the loop with `break` reports a match exactly when some typo domain occurs |
| Analyzer.ShortenerTest | script.js:102-106 | the three `includes` tests joined by a logical or are the test against the marker list |
| Analyzer.PushWhen | script.js:78-80 | `if (cond) warnings.push(text)`: the warning's text is appended when the condition holds and nothing otherwise |
| Analyzer.FirstSteps | script.js:73-93 | the pushes of rules 1 to 3 produce the texts of their segments |
| Analyzer.LastSteps | script.js:95-127 | the pushes of rules 4 to 7 append the texts of their segments and report the outcomes of rules 5 and 6 |
| Analyzer.StepsAreAnalyzeUrl | script.js:72-130 | the texts the steps push, segment by segment, are the texts of `AnalyzeUrl`'s warnings |
| Analyzer.AnalyzeUrlSteps | script.js:72-130 | the script's imperative steps push exactly the texts of `AnalyzeUrl`'s warnings, in order |
| AnalyzerProperties.DefaultKeywordRule | script.js:2-9 | with the shipped list rule 3 is six `includes` tests in list order |
| AnalyzerProperties.KeywordRuleEmptyIff | script.js:89-93 | rule 3 adds nothing exactly when no listed keyword occurs |
| AnalyzerProperties.SuspiciousKeywordsDistinct | script.js:2-9 | the shipped keyword list has no repeated entry |
| AnalyzerProperties.IpWarningIff | script.js:76-80 | the IP warning is present exactly when the URL begins with a scheme and four dot-separated digit runs, and then it is first |
| AnalyzerProperties.DotWarningIff | script.js:82-86 | the dot warning is present exactly when the URL, path and query included, has more `.` characters than the threshold |
| AnalyzerProperties.KeywordWarningIff | script.js:88-93 | with the shipped list a keyword warning is present exactly when the word is listed and the lower-cased URL contains it, and then it occurs once |
| AnalyzerProperties.UntrustedIff | script.js:95-99 | the untrusted warning is present exactly when no trusted domain is a case-sensitive substring of the URL |
| AnalyzerProperties.ShortenerIff | script.js:101-108 | at most one shortener warning, present exactly when the lower-cased URL contains bit.ly, tinyurl.com or goo.gl |
| AnalyzerProperties.TyposquatIff | script.js:110-122 | at most one typosquat warning, present exactly when some typo domain occurs in the lower-cased URL |
| AnalyzerProperties.InsecureHttpIff | script.js:124-127 | the insecure warning is present exactly when the URL starts with `http://` and the page protocol is `https:` |
| AnalyzerProperties.InsecureOnlyOnSecurePage | script.js:125 | on any other page protocol rule 7 never fires |
| AnalyzerProperties.HttpsNeverInsecure | script.js:125 | a URL starting with `https://` never starts with `http://`, so rule 7 never fires for it on any page |
| AnalyzerProperties.CleanIff | script.js:72-130 | the result is empty exactly when no rule's condition holds |
| AnalyzerProperties.EmptyListsSilenceRules | script.js:89-122 | empty keyword, shortener and typo lists raise no warnings from rules 3, 5 and 6 |
| AnalyzerProperties.EmptyTrustedFlagsAll | script.js:96-98 | an empty trusted list reports every URL as untrusted |
| AnalyzerProperties.LowerCaseRulesIgnoreCase | script.js:74-118 | a URL and its lower-cased form get the same keyword, shortener and typosquat warnings |
| AnalyzerProperties.MixedCaseKeywordFlagged | script.js:74-91 | a listed keyword spelled in any mix of cases is reported |
| AnalyzerProperties.ListedKeywordFlagged | script.js:88-93 | a listed keyword written as listed anywhere in the URL is reported |
| AnalyzerProperties.ListedTypoFlagged | script.js:117-122 | a listed typo domain written as listed anywhere in the URL raises the typosquat warning |
| AnalyzerProperties.EvaluateAroundKeywords | script.js:72-130 | the result is rule 3's list with no keyword warning before or after it |
| AnalyzerProperties.KeywordsInListOrder | script.js:89-93 | of two keyword warnings in the result the earlier names a keyword listed earlier |
| AnalyzerProperties.KeywordWarningsSpan | script.js:89-93 | all keyword warnings lie within a stretch shorter than the keyword list |
| AnalyzerProperties.LoginBeforeSecure | script.js:89-93 | a URL containing both "login" and "secure" gets both warnings, "login" first |
| Scenarios.GoogleIsClean | script.js:72-130 | `https://www.google.com` from a secure page gets no warning |
| Scenarios.PaypalLoginScenario | script.js:88-99 | `https://paypal.com/login` gets only the "login" warning |
| Scenarios.PrivateIpScenario | script.js:76-127 | `http://192.168.1.1/verify` from a secure page gets the IP, "verify", untrusted and insecure warnings, in that order |
| Scenarios.ShortLinkScenario | script.js:95-108 | `https://bit.ly/xyz` gets the untrusted and shortener warnings only |
| Scenarios.LookalikeScenario | script.js:88-122 | `https://goggle.com/account` gets the "account", untrusted and typosquat warnings, in that order |
| Scenarios.BareIpScenario | script.js:76-127 | `http://1.2.3.4` has three dots and gets no dot warning; it gets the IP, untrusted and insecure warnings |
| Scenarios.BareIpDots | script.js:83-84 | `http://1.2.3.4` has exactly three dots, which is not too many |
| Scenarios.UpperCaseDomainUntrusted | script.js:96-98 | `https://PAYPAL.com` is reported as untrusted |
| Scenarios.TrustedNameInPathTrusted | script.js:96-98 | `https://evil.com/paypal.com` is not reported as untrusted |
| Scenarios.TwoTyposOneWarning | script.js:117-122 | a URL holding two typo domains gets a single typosquat warning |
| Scenarios.ProtocolWithoutColon | script.js:125 | a page protocol written without the colon never raises the insecure warning |

## Left out

- Page wiring: event listeners, focus, button spinner, tooltips and animations (script.js:18-39 and everything after line 170). They make no decisions.
- `checkUrl` (script.js:41-70) is not modelled. It trims the input, rejects the empty string, validates with the browser's `new URL`, and waits 500 ms before calling `analyzeUrl`. The parser is browser code outside this repository, and the delay is cosmetic. Every string is a valid input to the model.
- `displayResult` and `showError` (script.js:132-170) are HTML presentation. Their one decision, "no warnings means safe", is `Analyzer.AnalyzeUrl(...) == []`, characterised by `AnalyzerProperties.CleanIff`.
- Strings are sequences of Unicode scalar values, while JavaScript strings are sequences of UTF-16 code units. Indexing and lengths differ only outside the Basic Multilingual Plane. No rule's outcome depends on this choice of code unit, because every table entry and every pattern character is ASCII. Lower-casing is a separate gap, described on the next line.
- Strings.AsciiLower: models `toLowerCase` for ASCII letters only. Characters outside A-Z, including non-ASCII capitals, are left unchanged, and full Unicode lower-casing, which can change a string's length, is not modelled. This does change outcomes. U+212A KELVIN SIGN lower-cases to `k` in JavaScript. So the script reports the keyword "banking" for `https://x.com/BAN\u212AING` and typosquatting for `https://FACEBO\u212A.com`, and the model reports neither.
- `window.location.protocol` is ambient browser state. It is the `pageProtocol` parameter instead.
- Determinism and freedom from side effects are not stated as lemmas. Every member is a pure function or a method over values, so both hold by construction.
- The tables are fixed constants in the script. The configurable `RuleConfig` generalises them, and `Analyzer.DefaultConfig` holds the script's values. Every property stated over `Evaluate` holds for every configuration.
