/** The warnings the analyzer can emit, the exact text each is shown as
    (script.js:79-126), and the rule that produces each. */
module Warnings {

  datatype Warning =
    | IpAddress            // rule 1
    | TooManyDots          // rule 2
    | Keyword(word: string) // rule 3, one per matching keyword
    | Untrusted            // rule 4
    | Shortener            // rule 5
    | Typosquat            // rule 6
    | InsecureHttp         // rule 7

  /** The number of the rule that emits `w`, in evaluation order. */
  function RuleOf(w: Warning): (n: nat)
    ensures 1 <= n <= 7
  {
    match w
    case IpAddress => 1
    case TooManyDots => 2
    case Keyword(_) => 3
    case Untrusted => 4
    case Shortener => 5
    case Typosquat => 6
    case InsecureHttp => 7
  }

  /** Every message starts with U+26A0 WARNING SIGN, U+FE0F VARIATION
      SELECTOR-16 and a space. */
  const Sign: string := "\U{26A0}\U{FE0F} "

  const KeywordLead: string := "Contains suspicious keyword: '"

  /** The text after the sign; only keyword texts end with a quote. */
  function Message(w: Warning): (m: string)
    ensures |m| > 0 && (m[|m| - 1] == '\'' <==> w.Keyword?)
  {
    match w
    case IpAddress => "Uses IP address instead of domain (suspicious)"
    case TooManyDots => "Too many dots in domain (possible fake)"
    case Keyword(word) => KeywordLead + word + "'"
    case Untrusted => "Domain not in trusted list"
    case Shortener => "Uses URL shortener (could hide malicious destination)"
    case Typosquat => "Possible typosquatting detected"
    case InsecureHttp => "Insecure HTTP connection"
  }

  /** The text pushed onto the result list for each warning: it opens with
      the warning sign, and only a keyword warning's text ends with a quote. */
  function Render(w: Warning): (text: string)
    ensures |text| > |Sign| && text[..|Sign|] == Sign
    ensures text[|text| - 1] == '\'' <==> w.Keyword?
  {
    Sign + Message(w)
  }

  /** The texts of a list of warnings, in the same order. */
  function RenderAll(ws: seq<Warning>): (texts: seq<string>)
    ensures |texts| == |ws|
    ensures forall i :: 0 <= i < |ws| ==> texts[i] == Render(ws[i])
  {
    seq(|ws|, i requires 0 <= i < |ws| => Render(ws[i]))
  }

  /** Rendering distributes over concatenation. */
  lemma RenderAllAppend(vs: seq<Warning>, ws: seq<Warning>)
    ensures RenderAll(vs + ws) == RenderAll(vs) + RenderAll(ws)
  {
    var lhs, rhs := RenderAll(vs + ws), RenderAll(vs) + RenderAll(ws);
    assert |lhs| == |rhs|;
    forall i | 0 <= i < |lhs|
      ensures lhs[i] == rhs[i]
    {
      if i < |vs| {
        assert (vs + ws)[i] == vs[i];
      } else {
        assert (vs + ws)[i] == ws[i - |vs|];
      }
    }
  }

  /** Warnings are listed in rule order: a warning of an earlier rule never
      follows one of a later rule. */
  predicate RuleOrdered(ws: seq<Warning>) {
    forall i, j :: 0 <= i < j < |ws| ==> RuleOf(ws[i]) <= RuleOf(ws[j])
  }

  /** Every warning in `ws` comes from a rule numbered between `lo` and `hi`. */
  predicate RulesWithin(ws: seq<Warning>, lo: nat, hi: nat) {
    forall i :: 0 <= i < |ws| ==> lo <= RuleOf(ws[i]) <= hi
  }

  /** Two rule-ordered lists, the first from rules `lo` to `k` and the second
      from rules `k` to `hi`, concatenate to a rule-ordered list from rules
      `lo` to `hi`. */
  lemma OrderedAppend(xs: seq<Warning>, ys: seq<Warning>, lo: nat, k: nat, hi: nat)
    requires RuleOrdered(xs) && RuleOrdered(ys)
    requires lo <= k <= hi
    requires RulesWithin(xs, lo, k) && RulesWithin(ys, k, hi)
    ensures RuleOrdered(xs + ys) && RulesWithin(xs + ys, lo, hi)
  {
    forall i, j | 0 <= i < j < |xs + ys|
      ensures RuleOf((xs + ys)[i]) <= RuleOf((xs + ys)[j])
    {
      if j < |xs| {
        assert (xs + ys)[i] == xs[i] && (xs + ys)[j] == xs[j];
      } else if i >= |xs| {
        assert (xs + ys)[i] == ys[i - |xs|] && (xs + ys)[j] == ys[j - |xs|];
      } else {
        assert (xs + ys)[i] == xs[i] && (xs + ys)[j] == ys[j - |xs|];
      }
    }
    forall i | 0 <= i < |xs + ys|
      ensures lo <= RuleOf((xs + ys)[i]) <= hi
    {
      if i < |xs| {
        assert (xs + ys)[i] == xs[i];
      } else {
        assert (xs + ys)[i] == ys[i - |xs|];
      }
    }
  }

  /** Distinct warnings are shown as distinct texts, so the list of texts
      determines the list of warnings. */
  lemma RenderInjective(v: Warning, w: Warning)
    requires Render(v) == Render(w)
    ensures v == w
  {
    assert Message(v) == Render(v)[|Sign|..] && Message(w) == Render(w)[|Sign|..];
    if v.Keyword? && w.Keyword? {
      assert v.word == Message(v)[|KeywordLead|..|Message(v)| - 1];
      assert w.word == Message(w)[|KeywordLead|..|Message(w)| - 1];
    } else if v.Keyword? || w.Keyword? {
      // impossible: only keyword texts end with a quote
    } else {
      assert |Message(v)| != |Message(w)| || v == w;
    }
  }

  /** Rendering a list of warnings loses nothing. */
  lemma RenderAllInjective(vs: seq<Warning>, ws: seq<Warning>)
    requires RenderAll(vs) == RenderAll(ws)
    ensures vs == ws
  {
    forall i | 0 <= i < |vs|
      ensures vs[i] == ws[i]
    {
      RenderInjective(vs[i], ws[i]);
    }
  }
}
