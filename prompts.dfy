/**
 * The decision and formatting helpers of `ResearchPrompts`: the restart rule
 * after criticism, score parsing, component-scoped plans and search
 * queries, and the formatters that feed the synthesis prompt.  The long
 * prompt templates themselves are not modelled.
 */
module Prompts {
  import opened Wrappers
  import opened Text
  import opened Components
  import opened State

  const MinViabilityScore: nat := 51
  const MaxPlanningIterations: nat := 3

  // ---------------------------------------------------------------------
  // Restart rule
  // ---------------------------------------------------------------------

  /** `str(float(n))` for the integral scores the agent handles. */
  function ScoreText(n: nat): string
  {
    NatToString(n) + ".0"
  }

  /** `should_restart_for_criticism(score, iteration)`. */
  function ShouldRestartForCriticism(score: nat, iteration: int): (r: (bool, string))
  {
    if iteration >= MaxPlanningIterations as int then
      (false, "Maximum planning iterations (3) reached")
    else if score < MinViabilityScore then
      (true, "Low viability score (" + ScoreText(score) + "/100) - need to revise approach")
    else
      (false, "")
  }

  /** At the iteration cap nothing restarts, whatever the score, and the reason names the cap. */
  lemma RestartCapped(score: nat, iteration: int)
    requires iteration >= 3
    ensures !ShouldRestartForCriticism(score, iteration).0
    ensures StartsWith(ShouldRestartForCriticism(score, iteration).1, "Maximum")
  {
  }

  /**
   * Below the cap a restart happens exactly when the score is below 51; a
   * restart carries a reason that mentions "viability score", no restart
   * carries "".
   */
  lemma RestartBelowThreshold(score: nat, iteration: int)
    requires iteration < 3
    ensures ShouldRestartForCriticism(score, iteration).0 <==> score < 51
    ensures score < 51 ==> OccursAt(ShouldRestartForCriticism(score, iteration).1, "viability score", 4)
    ensures score >= 51 ==> ShouldRestartForCriticism(score, iteration).1 == ""
  {
    if score < 51 {
      var reason := ShouldRestartForCriticism(score, iteration).1;
      assert reason[4..19] == "viability score";
    }
  }

  // ---------------------------------------------------------------------
  // Regular-expression scans
  // ---------------------------------------------------------------------

  /** The end of the maximal run of characters satisfying `p` that starts at `i`. */
  function RunEnd(s: string, i: nat, p: char -> bool): (r: nat)
    requires i <= |s|
    ensures i <= r <= |s|
    ensures forall k :: i <= k < r ==> p(s[k])
    ensures r == |s| || !p(s[r])
    decreases |s| - i
  {
    if i < |s| && p(s[i]) then RunEnd(s, i + 1, p) else i
  }

  /** The text matches `VIABILITY SCORE:\s*(\d+)` (ignoring case) starting at `i`. */
  predicate ViabilityAt(s: string, i: nat)
  {
    i + 16 <= |s| && Lower(s[i..i + 16]) == "viability score:"
    && var j := RunEnd(s, i + 16, IsSpace); j < |s| && IsDigit(s[j])
  }

  /** The digits group of the match at `i`. */
  function ViabilityDigits(s: string, i: nat): (ds: string)
    requires ViabilityAt(s, i)
    ensures ds != [] && forall k :: 0 <= k < |ds| ==> IsDigit(ds[k])
  {
    var j := RunEnd(s, i + 16, IsSpace);
    s[j..RunEnd(s, j, IsDigit)]
  }

  /** `re.search`: the first position at or after `from` where the pattern matches. */
  function FirstViability(s: string, from: nat): (r: Option<nat>)
    ensures r.Some? ==> from <= r.value && ViabilityAt(s, r.value)
    ensures r.Some? ==> forall k :: from <= k < r.value ==> !ViabilityAt(s, k)
    ensures r.None? ==> forall k :: from <= k ==> !ViabilityAt(s, k)
    decreases |s| - from
  {
    if from + 16 > |s| then None
    else if ViabilityAt(s, from) then Some(from)
    else FirstViability(s, from + 1)
  }

  /**
   * `extract_viability_score(text)`.  `fallback` is what the three looser
   * fallback patterns find in `text`, tried in order; they are not modelled
   * character by character.
   */
  function ExtractViabilityScore(text: string, fallback: Option<nat>): (score: nat)
  {
    match FirstViability(text, 0)
    case Some(i) => DigitsValue(ViabilityDigits(text, i))
    case None => fallback.GetOr(50)
  }

  /**
   * The score is the number after the first case-insensitive
   * "VIABILITY SCORE:" that is followed by optional whitespace and digits;
   * without such a match it is the fallback patterns' number, else 50.
   */
  lemma ViabilityScoreSpec(text: string, fallback: Option<nat>)
    ensures forall i: nat ::
      (ViabilityAt(text, i) && (forall k: nat :: k < i ==> !ViabilityAt(text, k))
       ==> ExtractViabilityScore(text, fallback) == DigitsValue(ViabilityDigits(text, i)))
    ensures (forall i: nat :: !ViabilityAt(text, i)) ==> ExtractViabilityScore(text, fallback) == fallback.GetOr(50)
  {
    var r := FirstViability(text, 0);
    forall i: nat | ViabilityAt(text, i) && (forall k: nat :: k < i ==> !ViabilityAt(text, k))
      ensures ExtractViabilityScore(text, fallback) == DigitsValue(ViabilityDigits(text, i))
    {
      assert r.Some?;
      assert r.value == i;
    }
    if forall i: nat :: !ViabilityAt(text, i) {
      assert r.None?;
    }
  }

  /** "VIABILITY SCORE: 65" scores 65. */
  lemma ViabilityExample()
    ensures ExtractViabilityScore("VIABILITY SCORE: 65", None) == 65
  {
    var s := "VIABILITY SCORE: 65";
    assert Lower(s[0..16]) == "viability score:";
    assert RunEnd(s, 16, IsSpace) == 17;
    assert RunEnd(s, 17, IsDigit) == 19;
    assert ViabilityAt(s, 0);
    assert ViabilityDigits(s, 0) == "65";
    assert FirstViability(s, 0) == Some(0);
    assert "65"[..1] == "6" && "6"[..0] == "";
  }

  /** One `COMPONENT_SCORE_([A-Z]+):\s*(\d+)` match: its two groups and where it ends. */
  datatype ScoreMatch = ScoreMatch(name: string, digits: string, end: nat)

  predicate WellFormedMatch(m: ScoreMatch)
  {
    m.name != [] && m.digits != [] && forall k :: 0 <= k < |m.digits| ==> IsDigit(m.digits[k])
  }

  /** The pattern, ignoring case, tried at position `i`. */
  function ScoreMatchAt(s: string, i: nat): (r: Option<ScoreMatch>)
    ensures r.Some? ==> WellFormedMatch(r.value) && i < r.value.end <= |s|
  {
    if i + 16 > |s| || Lower(s[i..i + 16]) != "component_score_" then None
    else
      var k := RunEnd(s, i + 16, IsAlpha);
      if k == i + 16 || k == |s| || s[k] != ':' then None
      else
        var m := RunEnd(s, k + 1, IsSpace);
        var e := RunEnd(s, m, IsDigit);
        if e == m then None
        else Some(ScoreMatch(s[i + 16..k], s[m..e], e))
  }

  /** `re.findall`: a left-to-right scan that resumes after each match. */
  function ScoreMatches(s: string, from: nat): (r: seq<ScoreMatch>)
    ensures forall j :: 0 <= j < |r| ==> WellFormedMatch(r[j])
    decreases |s| - from
  {
    if from >= |s| then []
    else match ScoreMatchAt(s, from)
      case Some(m) => [m] + ScoreMatches(s, m.end)
      case None => ScoreMatches(s, from + 1)
  }

  function ScoreKey(m: ScoreMatch): string { Upper(m.name) }

  function ScoreValue(m: ScoreMatch): nat
    requires WellFormedMatch(m)
  {
    DigitsValue(m.digits)
  }

  /** `k` is the key of match `j`, and no later match has that key. */
  predicate LastWithKey(ms: seq<ScoreMatch>, n: nat, j: nat, k: string)
    requires n <= |ms|
  {
    j < n && ScoreKey(ms[j]) == k && forall j' :: j < j' < n ==> ScoreKey(ms[j']) != k
  }

  /** The scores of a list of matches: each keyed by its upper-cased name, later matches overwriting earlier ones. */
  function ScoresOf(ms: seq<ScoreMatch>): map<string, nat>
    requires forall j :: 0 <= j < |ms| ==> WellFormedMatch(ms[j])
  {
    if ms == [] then map[]
    else
      var last := ms[|ms| - 1];
      ScoresOf(ms[..|ms| - 1])[ScoreKey(last) := ScoreValue(last)]
  }

  /** The component scores a criticism text yields. */
  function ComponentScores(text: string): map<string, nat>
  {
    ScoresOf(ScoreMatches(text, 0))
  }

  /** `extract_component_scores(text)`: the matches' scores, filled into a dict in order. */
  method ExtractComponentScores(text: string) returns (scores: map<string, nat>)
    ensures scores == ComponentScores(text)
  {
    var ms := ScoreMatches(text, 0);
    scores := map[];
    var i := 0;
    while i < |ms|
      invariant 0 <= i <= |ms|
      invariant scores == ScoresOf(ms[..i])
    {
      assert ms[..i + 1][..i] == ms[..i];
      scores := scores[ScoreKey(ms[i]) := ScoreValue(ms[i])];
      i := i + 1;
    }
    assert ms[..|ms|] == ms;
  }

  /** The keys are exactly the upper-cased names of the matches. */
  lemma {:induction false} ScoresOfKeys(ms: seq<ScoreMatch>)
    requires forall j :: 0 <= j < |ms| ==> WellFormedMatch(ms[j])
    ensures forall k :: k in ScoresOf(ms) <==> exists j :: 0 <= j < |ms| && ScoreKey(ms[j]) == k
  {
    if ms != [] {
      var n := |ms| - 1;
      var front := ms[..n];
      ScoresOfKeys(front);
      forall k ensures k in ScoresOf(ms) <==> exists j :: 0 <= j < |ms| && ScoreKey(ms[j]) == k {
        if k in ScoresOf(front) {
          var j :| 0 <= j < |front| && ScoreKey(front[j]) == k;
          assert ScoreKey(ms[j]) == k;
        }
        if exists j :: 0 <= j < |ms| && ScoreKey(ms[j]) == k {
          var j :| 0 <= j < |ms| && ScoreKey(ms[j]) == k;
          if j < n {
            assert ScoreKey(front[j]) == k;
          }
        }
      }
    }
  }

  /** A key holds the value of the last match with that key. */
  lemma {:induction false} ScoresOfLast(ms: seq<ScoreMatch>)
    requires forall j :: 0 <= j < |ms| ==> WellFormedMatch(ms[j])
    ensures forall k :: k in ScoresOf(ms) ==>
      exists j: nat :: LastWithKey(ms, |ms|, j, k) && ScoresOf(ms)[k] == ScoreValue(ms[j])
  {
    if ms != [] {
      var n := |ms| - 1;
      var front := ms[..n];
      ScoresOfLast(front);
      forall k | k in ScoresOf(ms)
        ensures exists j: nat :: LastWithKey(ms, |ms|, j, k) && ScoresOf(ms)[k] == ScoreValue(ms[j])
      {
        if k == ScoreKey(ms[n]) {
          assert LastWithKey(ms, |ms|, n, k);
        } else {
          assert k in ScoresOf(front) && ScoresOf(ms)[k] == ScoresOf(front)[k];
          var j: nat :| LastWithKey(front, n, j, k) && ScoresOf(front)[k] == ScoreValue(front[j]);
          assert LastWithKey(ms, |ms|, j, k);
        }
      }
    }
  }

  /**
   * The scores `extract_component_scores` finds in a text: one key per
   * matched upper-cased name, holding the value of its last match.
   */
  lemma ComponentScoresSpec(text: string)
    ensures var ms := ScoreMatches(text, 0);
      forall k :: k in ComponentScores(text) <==> exists j :: 0 <= j < |ms| && ScoreKey(ms[j]) == k
    ensures var ms := ScoreMatches(text, 0);
      forall k :: k in ComponentScores(text) ==>
        exists j: nat :: LastWithKey(ms, |ms|, j, k) && ComponentScores(text)[k] == ScoreValue(ms[j])
  {
    var ms := ScoreMatches(text, 0);
    ScoresOfKeys(ms);
    ScoresOfLast(ms);
    assert ComponentScores(text) == ScoresOf(ms);
  }

  /** Text without any match gives no scores. */
  lemma NoScoreMatches(s: string, from: nat)
    requires forall i :: from <= i ==> ScoreMatchAt(s, i).None?
    ensures ScoreMatches(s, from) == []
    decreases |s| - from
  {
    if from < |s| {
      NoScoreMatches(s, from + 1);
    }
  }

  // ---------------------------------------------------------------------
  // Research plans
  // ---------------------------------------------------------------------

  function AlphaOnlyPlan(idea: string): string
  {
    Strip("\nResearch Plan for Alpha-Only Proposal: " + idea + "\n\nFocus Areas:\n"
      + "1. Market analysis and data sources needed\n"
      + "2. Alpha generation strategy and methodology\n"
      + "3. Risk considerations and limitations\n"
      + "4. Universe definition and asset selection criteria\n\n"
      + "Search Strategy:\n"
      + "- Academic papers on similar trading strategies\n"
      + "- Industry reports on relevant market segments\n"
      + "- Technical analysis methodologies\n"
      + "- Risk management frameworks\n")
  }

  function FullPlan(idea: string): string
  {
    Strip("\nResearch Plan for Full Proposal: " + idea + "\n\nFocus Areas:\n"
      + "1. Alpha generation strategies\n"
      + "2. Risk management approaches\n"
      + "3. Portfolio construction methods\n"
      + "4. Execution frameworks\n"
      + "5. Universe definition\n\n"
      + "Search Strategy:\n"
      + "- Comprehensive literature review\n"
      + "- Industry best practices\n"
      + "- Technical implementations\n"
      + "- Academic research\n")
  }

  /** The fixed order scoped plans list components in. */
  const PlanOrder: seq<Component> := [Alpha, Risk, Portfolio, Execution, Universe]

  function PlanRank(c: Component): nat
  {
    match c
    case Alpha => 0
    case Risk => 1
    case Portfolio => 2
    case Execution => 3
    case Universe => 4
  }

  function FriendlyName(c: Component): string
  {
    match c
    case Universe => "Universe selection"
    case Alpha => "Alpha generation"
    case Portfolio => "Portfolio construction"
    case Execution => "Execution framework"
    case Risk => "Risk model"
  }

  function FocusText(c: Component): string
  {
    match c
    case Universe => "Universe definition and asset selection criteria"
    case Alpha => "Alpha strategy design and signal methodology"
    case Portfolio => "Position sizing, constraints, and weighting schemes"
    case Execution => "Order routing, slippage/TC modeling, and scheduling"
    case Risk => "Risk factor specification, limits, and monitoring"
  }

  function PlanHints(c: Component): (r: seq<string>)
    ensures |r| == 2
  {
    match c
    case Universe => ["universe selection methods", "asset screening criteria"]
    case Alpha => ["alpha signals research", "feature engineering"]
    case Portfolio => ["portfolio optimization", "position sizing"]
    case Execution => ["execution algorithms", "transaction cost modeling"]
    case Risk => ["risk models", "factor models"]
  }

  /** `[c for c in order if c in components]`. */
  function SelectIn(order: seq<Component>, components: seq<string>): seq<Component>
  {
    if order == [] then []
    else
      var last := order[|order| - 1];
      SelectIn(order[..|order| - 1], components) + (if Name(last) in components then [last] else [])
  }

  function Selected(components: seq<string>): seq<Component>
  {
    SelectIn(PlanOrder, components)
  }

  /** The numbered focus line of the `n`-th selected component. */
  function FocusLine(n: nat, c: Component): string
  {
    NatToString(n) + ". " + FriendlyName(c) + " \U{2014} " + FocusText(c)
  }

  function FocusLines(sel: seq<Component>): (r: seq<string>)
    ensures |r| == |sel|
  {
    if sel == [] then [] else FocusLines(sel[..|sel| - 1]) + [FocusLine(|sel|, sel[|sel| - 1])]
  }

  /** The `i`-th focus line is numbered `i + 1` and describes the `i`-th selected component. */
  lemma {:induction false} FocusLinesNumbered(sel: seq<Component>, i: nat)
    requires i < |sel|
    ensures FocusLines(sel)[i] == FocusLine(i + 1, sel[i])
    decreases |sel|
  {
    if i < |sel| - 1 {
      FocusLinesNumbered(sel[..|sel| - 1], i);
    }
  }

  function HintLines(sel: seq<Component>): (r: seq<string>)
    ensures |r| == 2 * |sel|
  {
    if sel == [] then []
    else
      var hints := PlanHints(sel[|sel| - 1]);
      HintLines(sel[..|sel| - 1]) + ["- " + hints[0], "- " + hints[1]]
  }

  function ScopedHeader(idea: string): string
  {
    "Research Plan for Full Proposal (Scoped): " + idea + "\n"
  }

  const SearchHeader: seq<string> :=
    ["\nSearch Strategy:", "- Comprehensive literature review on selected components"]

  /** The lines a scoped plan is joined from. */
  function ScopedLines(idea: string, sel: seq<Component>): (r: seq<string>)
    ensures |r| == 4 + 3 * |sel|
  {
    [ScopedHeader(idea), "Focus Areas:"] + FocusLines(sel) + SearchHeader + HintLines(sel)
  }

  /** The text `format_full_plan_for_components` returns. */
  function ScopedPlan(idea: string, components: seq<string>): string
  {
    if components == [] then FullPlan(idea)
    else Strip(Join("\n", ScopedLines(idea, Selected(components))))
  }

  /** `format_full_plan_for_components(idea, components)`. */
  method FormatFullPlanForComponents(idea: string, components: seq<string>) returns (plan: string)
    ensures plan == ScopedPlan(idea, components)
  {
    if components == [] {
      return FullPlan(idea);
    }
    var selected := SelectComponents(components);
    var lines := NumberFocusLines(idea, selected);
    var searchLines := CollectHintLines(selected);
    assert lines + searchLines == ScopedLines(idea, selected);
    plan := Strip(Join("\n", lines + searchLines));
  }

  /** The list comprehension over the plan order. */
  method SelectComponents(components: seq<string>) returns (selected: seq<Component>)
    ensures selected == Selected(components)
  {
    selected := [];
    for k := 0 to |PlanOrder|
      invariant selected == SelectIn(PlanOrder[..k], components)
    {
      assert PlanOrder[..k + 1][..k] == PlanOrder[..k];
      if Name(PlanOrder[k]) in components {
        selected := selected + [PlanOrder[k]];
      }
    }
    assert PlanOrder[..|PlanOrder|] == PlanOrder;
  }

  /** The header lines followed by one numbered focus line per selected component. */
  method NumberFocusLines(idea: string, selected: seq<Component>) returns (lines: seq<string>)
    ensures lines == [ScopedHeader(idea), "Focus Areas:"] + FocusLines(selected)
  {
    lines := [ScopedHeader(idea), "Focus Areas:"];
    for idx := 0 to |selected|
      invariant lines == [ScopedHeader(idea), "Focus Areas:"] + FocusLines(selected[..idx])
    {
      assert selected[..idx + 1][..idx] == selected[..idx];
      lines := lines + [FocusLine(idx + 1, selected[idx])];
    }
    assert selected[..|selected|] == selected;
  }

  /** The search-strategy lines: the fixed header, then two hints per selected component. */
  method CollectHintLines(selected: seq<Component>) returns (searchLines: seq<string>)
    ensures searchLines == SearchHeader + HintLines(selected)
  {
    searchLines := SearchHeader;
    for i := 0 to |selected|
      invariant searchLines == SearchHeader + HintLines(selected[..i])
    {
      assert selected[..i + 1][..i] == selected[..i];
      var hints := PlanHints(selected[i]);
      searchLines := searchLines + ["- " + hints[0]];
      searchLines := searchLines + ["- " + hints[1]];
    }
    assert selected[..|selected|] == selected;
  }

  /** The selection keeps exactly the recognised components named in the list. */
  lemma {:induction false} SelectInMembers(order: seq<Component>, components: seq<string>, c: Component)
    ensures c in SelectIn(order, components) <==> c in order && Name(c) in components
    decreases |order|
  {
    if order != [] {
      var front, last := order[..|order| - 1], order[|order| - 1];
      SelectInMembers(front, components, c);
      assert order == front + [last];
      assert c in order <==> c in front || c == last;
    }
  }

  /** Strictly increasing in the plan order. */
  predicate RankOrdered(xs: seq<Component>)
  {
    forall i, j :: 0 <= i < j < |xs| ==> PlanRank(xs[i]) < PlanRank(xs[j])
  }

  /** The selection follows the fixed plan order. */
  lemma {:induction false} SelectInOrdered(order: seq<Component>, components: seq<string>)
    requires RankOrdered(order)
    ensures RankOrdered(SelectIn(order, components))
    decreases |order|
  {
    if order != [] {
      var front := order[..|order| - 1];
      SelectInOrdered(front, components);
      var last := order[|order| - 1];
      forall c | c in SelectIn(front, components)
        ensures PlanRank(c) < PlanRank(last)
      {
        SelectInMembers(front, components, c);
        var i :| 0 <= i < |front| && front[i] == c;
        assert order[i] == c;
      }
      var sel := SelectIn(order, components);
      var pre := SelectIn(front, components);
      assert sel == pre + (if Name(last) in components then [last] else []);
      forall i, j | 0 <= i < j < |sel|
        ensures PlanRank(sel[i]) < PlanRank(sel[j])
      {
        if j >= |pre| {
          assert sel[j] == last && sel[i] == pre[i];
          assert pre[i] in pre;
          assert PlanRank(pre[i]) < PlanRank(last);
        } else {
          assert sel[i] == pre[i] && sel[j] == pre[j];
          assert PlanRank(pre[i]) < PlanRank(pre[j]);
        }
      }
    }
  }

  /** Only which components the list names matters, not their order or repetitions. */
  lemma {:induction false} SelectInByMembership(order: seq<Component>, a: seq<string>, b: seq<string>)
    requires forall c :: Name(c) in a <==> Name(c) in b
    ensures SelectIn(order, a) == SelectIn(order, b)
    decreases |order|
  {
    if order != [] {
      SelectInByMembership(order[..|order| - 1], a, b);
      var last := order[|order| - 1];
      assert Name(last) in a <==> Name(last) in b;
    }
  }

  /**
   * A scoped plan numbers its focus lines 1..k, one per recognised component
   * in the list, in the order ALPHA, RISK, PORTFOLIO, EXECUTION, UNIVERSE.
   */
  lemma ScopedPlanFocus(components: seq<string>)
    ensures var sel := Selected(components);
      && (forall c :: c in sel <==> Name(c) in components)
      && RankOrdered(sel)
      && forall i :: 0 <= i < |sel| ==> FocusLines(sel)[i] == FocusLine(i + 1, sel[i])
  {
    var sel := Selected(components);
    forall i | 0 <= i < |sel|
      ensures FocusLines(sel)[i] == FocusLine(i + 1, sel[i])
    {
      FocusLinesNumbered(sel, i);
    }
    forall c ensures c in Selected(components) <==> Name(c) in components {
      SelectInMembers(PlanOrder, components, c);
    }
    SelectInOrdered(PlanOrder, components);
  }

  /**
   * Two non-empty lists naming the same recognised components give the same
   * plan; unknown names and duplicates change nothing.
   */
  lemma ScopedPlanByMembership(idea: string, a: seq<string>, b: seq<string>)
    requires a != [] && b != []
    requires forall c :: Name(c) in a <==> Name(c) in b
    ensures ScopedPlan(idea, a) == ScopedPlan(idea, b)
  {
    SelectInByMembership(PlanOrder, a, b);
  }

  // ---------------------------------------------------------------------
  // Search queries
  // ---------------------------------------------------------------------

  /** `get_search_queries(idea, alpha_only)`. */
  function GetSearchQueries(idea: string, alphaOnly: bool): (r: seq<string>)
    ensures |r| == if alphaOnly then 5 else 6
  {
    if alphaOnly then
      [ idea + " trading strategy research",
        idea + " alpha generation finance",
        idea + " market analysis methodology",
        "quantitative trading risk management",
        "portfolio alpha generation techniques" ]
    else
      [ idea + " quantitative finance research",
        idea + " portfolio management",
        idea + " trading strategy",
        "risk management quantitative finance",
        "portfolio optimization techniques",
        "execution algorithms trading" ]
  }

  /** `hints.get(c, [])` in `get_component_scoped_queries`. */
  function QueryHints(name: string): seq<string>
  {
    match FromName(name)
    case None => []
    case Some(Universe) => ["universe selection", "asset screening", "index methodology"]
    case Some(Alpha) => ["alpha signals", "feature engineering", "predictive modeling"]
    case Some(Portfolio) => ["portfolio optimization", "risk-parity", "position sizing"]
    case Some(Execution) => ["execution algorithms", "slippage", "transaction costs"]
    case Some(Risk) => ["risk model", "factor exposures", "volatility targeting"]
  }

  /** The component-scoped queries, in list order. */
  function ScopedQueries(idea: string, components: seq<string>): seq<string>
  {
    if components == [] then []
    else
      ScopedQueries(idea, components[..|components| - 1]) + HintQueries(idea, QueryHints(components[|components| - 1]))
  }

  /** `f"{idea} {h}"` for each hint. */
  function HintQueries(idea: string, hints: seq<string>): (r: seq<string>)
    ensures |r| == |hints|
    ensures forall j :: 0 <= j < |hints| ==> r[j] == idea + " " + hints[j]
  {
    seq(|hints|, j requires 0 <= j < |hints| => idea + " " + hints[j])
  }

  /** Keeping the first occurrence of each element. */
  function Dedup(xs: seq<string>): seq<string>
  {
    if xs == [] then []
    else
      var d := Dedup(xs[..|xs| - 1]);
      if xs[|xs| - 1] in d then d else d + [xs[|xs| - 1]]
  }

  function ComponentScopedQueries(idea: string, components: seq<string>, alphaOnly: bool): seq<string>
  {
    Dedup(ScopedQueries(idea, components) + GetSearchQueries(idea, alphaOnly))
  }

  /** `get_component_scoped_queries(idea, components, alpha_only)`. */
  method GetComponentScopedQueries(idea: string, components: seq<string>, alphaOnly: bool)
    returns (ordered: seq<string>)
    ensures ordered == ComponentScopedQueries(idea, components, alphaOnly)
  {
    var base := GetSearchQueries(idea, alphaOnly);
    var scoped := CollectScopedQueries(idea, components);
    ordered := KeepFirstOccurrences(scoped + base);
  }

  /** `f"{idea} {h}"` for every hint of every listed component, in list order. */
  method CollectScopedQueries(idea: string, components: seq<string>) returns (scoped: seq<string>)
    ensures scoped == ScopedQueries(idea, components)
  {
    scoped := [];
    for i := 0 to |components|
      invariant scoped == ScopedQueries(idea, components[..i])
    {
      assert components[..i + 1][..i] == components[..i];
      scoped := AppendHintQueries(scoped, idea, QueryHints(components[i]));
    }
    assert components[..|components|] == components;
  }

  /** The inner loop over one component's hints. */
  method AppendHintQueries(scoped: seq<string>, idea: string, hints: seq<string>) returns (r: seq<string>)
    ensures r == scoped + HintQueries(idea, hints)
  {
    r := scoped;
    for j := 0 to |hints|
      invariant r == scoped + HintQueries(idea, hints[..j])
    {
      assert HintQueries(idea, hints[..j + 1]) == HintQueries(idea, hints[..j]) + [idea + " " + hints[j]];
      r := r + [idea + " " + hints[j]];
    }
    assert hints[..|hints|] == hints;
  }

  /** The `seen`/`ordered` loop. */
  method KeepFirstOccurrences(all: seq<string>) returns (ordered: seq<string>)
    ensures ordered == Dedup(all)
  {
    var seen: set<string> := {};
    ordered := [];
    for i := 0 to |all|
      invariant ordered == Dedup(all[..i])
      invariant seen == set x | x in ordered
    {
      assert all[..i + 1][..i] == all[..i];
      if all[i] !in seen {
        seen := seen + {all[i]};
        ordered := ordered + [all[i]];
      }
    }
    assert all[..|all|] == all;
  }

  /** De-duplication keeps every element once and adds none. */
  lemma {:induction false} DedupSpec(xs: seq<string>)
    ensures NoDuplicates(Dedup(xs))
    ensures forall x :: x in Dedup(xs) <==> x in xs
    decreases |xs|
  {
    if xs != [] {
      DedupSpec(xs[..|xs| - 1]);
      assert xs == xs[..|xs| - 1] + [xs[|xs| - 1]];
    }
  }

  /** De-duplicating `a + b` lists `a`'s distinct elements first, then only elements not in `a`. */
  lemma {:induction false} DedupAppend(a: seq<string>, b: seq<string>)
    ensures |Dedup(a)| <= |Dedup(a + b)|
    ensures Dedup(a + b)[..|Dedup(a)|] == Dedup(a)
    ensures forall i :: |Dedup(a)| <= i < |Dedup(a + b)| ==> Dedup(a + b)[i] !in a
    decreases |b|
  {
    if b == [] {
      assert a + b == a;
    } else {
      var b' := b[..|b| - 1];
      DedupAppend(a, b');
      assert (a + b)[..|a + b| - 1] == a + b';
      DedupSpec(a + b');
      DedupSpec(a);
    }
  }

  /**
   * The scoped queries come first, each once; then the base queries not
   * already present; together exactly the scoped and base queries.
   */
  lemma ScopedQueriesOrder(idea: string, components: seq<string>, alphaOnly: bool)
    ensures var scoped := ScopedQueries(idea, components);
      var base := GetSearchQueries(idea, alphaOnly);
      var r := ComponentScopedQueries(idea, components, alphaOnly);
      && NoDuplicates(r)
      && (forall q :: q in r <==> q in scoped || q in base)
      && (forall i :: 0 <= i < |r| ==> (r[i] in scoped <==> i < |Dedup(scoped)|))
  {
    var scoped := ScopedQueries(idea, components);
    var base := GetSearchQueries(idea, alphaOnly);
    DedupSpec(scoped + base);
    DedupSpec(scoped);
    DedupAppend(scoped, base);
    var r := Dedup(scoped + base);
    forall i | 0 <= i < |Dedup(scoped)|
      ensures r[i] in scoped
    {
      assert r[i] == Dedup(scoped)[i];
    }
  }

  // ---------------------------------------------------------------------
  // Formatters
  // ---------------------------------------------------------------------

  function ToolDescription(tool: string): string
  {
    if tool == "web_search" then "Web search for research and market data"
    else if tool == "github" then "GitHub code search for prior art analysis"
    else if tool == "tavily" then "Academic research search via Tavily"
    else if tool == "filesystem" then "File system operations for data access"
    else tool + " tool"
  }

  function ToolLine(tool: string): string
  {
    "- " + tool + ": " + ToolDescription(tool)
  }

  const NoToolsText := "None (operating without MCP tools)"

  function ToolLines(tools: seq<string>): (r: seq<string>)
    ensures |r| == |tools|
    ensures forall i :: 0 <= i < |tools| ==> r[i] == ToolLine(tools[i])
  {
    seq(|tools|, i requires 0 <= i < |tools| => ToolLine(tools[i]))
  }

  /** `format_available_tools(tools)`. */
  method FormatAvailableTools(tools: seq<string>) returns (text: string)
    ensures tools == [] ==> text == NoToolsText
    ensures tools != [] ==> text == Join("\n", ToolLines(tools))
    ensures text == AvailableToolsText(tools)
  {
    if tools == [] {
      return NoToolsText;
    }
    var formatted: seq<string> := [];
    for i := 0 to |tools|
      invariant formatted == ToolLines(tools[..i])
    {
      formatted := formatted + [ToolLine(tools[i])];
    }
    assert tools[..|tools|] == tools;
    text := Join("\n", formatted);
  }

  /** The text `format_available_tools(tools)` produces. */
  function AvailableToolsText(tools: seq<string>): string
  {
    if tools == [] then NoToolsText else Join("\n", ToolLines(tools))
  }

  const AlphaModeNote := "ALPHA-ONLY MODE:\n"
    + "- Only include these fields: 'alphas', 'universe', 'alpha-only'\n"
    + "- Do NOT include: '$schema', '$id', 'title', 'schemaVersion', 'misc', 'inspiration', or any other fields\n"
    + "- Set 'alpha-only': true\n"
    + "- Include exactly 1 alpha (new or amend) and 1 existing universe\n"

  /** `get_alpha_mode_note(alpha_only)`. */
  function AlphaNote(alphaOnly: bool): string
  {
    if alphaOnly then AlphaModeNote else ""
  }

  /** An unknown tool is described as "<tool> tool". */
  lemma UnknownToolLine(tool: string)
    requires tool !in ["web_search", "github", "tavily", "filesystem"]
    ensures ToolLine(tool) == "- " + tool + ": " + tool + " tool"
  {
  }

  /** One formatted entry of `format_web_results`. */
  function WebEntry(r: ResearchResult): string
  {
    "\n- " + r.title + " (" + r.source + ")\n  " + Take(r.content, 500) + "...\n"
  }

  function WebEntries(results: seq<ResearchResult>, limit: nat): (r: seq<string>)
    ensures |r| == if limit < |results| then limit else |results|
    ensures forall i :: 0 <= i < |r| ==> r[i] == WebEntry(results[i])
  {
    var n := if limit < |results| then limit else |results|;
    seq(n, i requires 0 <= i < n => WebEntry(results[i]))
  }

  function Concat(xs: seq<string>): string
  {
    if xs == [] then "" else Concat(xs[..|xs| - 1]) + xs[|xs| - 1]
  }

  /** `format_web_results(results, limit)`: at most `limit` entries, contents cut to 500 characters. */
  method FormatWebResults(results: seq<ResearchResult>, limit: nat) returns (text: string)
    ensures text == Concat(WebEntries(results, limit))
  {
    var entries := WebEntries(results, limit);
    text := "";
    var n := if limit < |results| then limit else |results|;
    for i := 0 to n
      invariant text == Concat(entries[..i])
    {
      assert entries[..i + 1][..i] == entries[..i];
      text := text + WebEntry(results[i]);
    }
    assert entries[..n] == entries;
  }

  /** Each web entry carries at most 500 characters of content. */
  lemma WebEntryContentBound(r: ResearchResult)
    ensures |Take(r.content, 500)| <= 500
    ensures WebEntry(r) == "\n- " + r.title + " (" + r.source + ")\n  " + r.content[..|Take(r.content, 500)|] + "...\n"
  {
  }

  const ValidationErrorsHeader := "\n\nVALIDATION ERRORS TO FIX:\n"
  const ValidationErrorsFooter := "\n\nPlease fix these validation errors in the output.\n"

  /** `format_validation_errors(errors)`. */
  function FormatValidationErrors(errors: seq<string>): (text: string)
    ensures errors == [] <==> text == ""
    ensures errors != [] ==> StartsWith(text, ValidationErrorsHeader)
  {
    if errors == [] then ""
    else ValidationErrorsHeader + Join("\n", errors) + ValidationErrorsFooter
  }

  const NoCriticismText := "No critical analysis performed."

  /** The criticism text as the summary quotes it: at most 800 characters plus a marker. */
  function TruncatedCriticism(text: string): (r: string)
    ensures |text| <= 800 ==> r == text
    ensures |text| > 800 ==> r == text[..800] + "... [truncated]" && |r| == 815
  {
    if |text| > 800 then text[..800] + "... [truncated]" else text
  }

  /** `format_criticism_summary(criticism_results)`; `None` is an empty dict. */
  function FormatCriticismSummary(results: Option<CriticismResults>): (text: string)
    ensures results.None? <==> text == NoCriticismText
  {
    match results
    case None => NoCriticismText
    case Some(c) =>
      "\nResearch Quality Assessment: " + c.researchQuality
      + "\nViability Score: " + ScoreText(c.viabilityScore)
      + "/100\nCritical Analysis: " + TruncatedCriticism(c.criticismText) + "\n"
  }
}
