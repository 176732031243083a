// `GenerationAgent`: collect context from earlier hypotheses, search the
// literature (falling back to a plain two-provider search), summarise what
// was found and accept the model's hypothesis only when it is long enough.
//
// Search outcomes and the model's reply are inputs: `None` stands for a call
// that raised.

module GenerationAgent {
  import opened Wrappers
  import opened Text
  import opened Papers
  import BaseAgent

  /** An entry of `existing_hypotheses`: a dict (its "content" value if the
      key is present, its string form, and its two literature lists, [] when
      missing or empty), or some other value with its string form. */
  datatype Existing =
    | Record(content: Option<string>, repr: string, sources: seq<Paper>, used: seq<Paper>)
    | Other(repr: string)

  /** `hyp.get("content", str(hyp))`, or `str(hyp)` for a non-dict. */
  function ContentOf(h: Existing): string {
    match h
    case Record(content, repr, _, _) => content.GetOr(repr)
    case Other(repr) => repr
  }

  /** The papers a hypothesis contributes: `literature_sources` when
      non-empty, else `literature_used`; nothing for a non-dict. */
  function PapersOf(h: Existing): seq<Paper> {
    match h
    case Record(_, _, sources, used) => if sources != [] then sources else used
    case Other(_) => []
  }

  /** `existing_papers` after the collection loop. */
  function ExistingPapers(hs: seq<Existing>): seq<Paper>
    decreases |hs|
  {
    if hs == [] then [] else ExistingPapers(hs[..|hs| - 1]) + PapersOf(hs[|hs| - 1])
  }

  /** The loop of `execute` that builds `existing_contents`. */
  method CollectContents(hs: seq<Existing>) returns (contents: seq<string>)
    ensures |contents| == |hs|
    ensures forall i :: 0 <= i < |hs| ==> contents[i] == ContentOf(hs[i])
  {
    contents := [];
    var i := 0;
    while i < |hs|
      invariant 0 <= i <= |hs| && |contents| == i
      invariant forall k :: 0 <= k < i ==> contents[k] == ContentOf(hs[k])
    {
      contents := contents + [ContentOf(hs[i])];
      i := i + 1;
    }
  }

  /** The loop of `_search_literature_with_strategy` that builds
      `existing_papers`. */
  method CollectExistingPapers(hs: seq<Existing>) returns (papers: seq<Paper>)
    ensures papers == ExistingPapers(hs)
  {
    papers := [];
    var i := 0;
    while i < |hs|
      invariant 0 <= i <= |hs|
      invariant papers == ExistingPapers(hs[..i])
    {
      assert hs[..i + 1][..i] == hs[..i];
      papers := papers + PapersOf(hs[i]);
      i := i + 1;
    }
    assert hs[..i] == hs;
  }

  /** The papers of consecutive groups of hypotheses are concatenated. */
  lemma {:induction false} ExistingPapersAppend(a: seq<Existing>, b: seq<Existing>)
    ensures ExistingPapers(a + b) == ExistingPapers(a) + ExistingPapers(b)
    decreases |b|
  {
    if b == [] {
      assert a + b == a;
    } else {
      var pre, last := b[..|b| - 1], b[|b| - 1];
      ExistingPapersAppend(a, pre);
      assert (a + b)[..|a + b| - 1] == a + pre;
      assert (a + b)[|a + b| - 1] == last;
      assert ExistingPapers(b) == ExistingPapers(pre) + PapersOf(last);
    }
  }

  /** Every existing paper comes from the preferred list of some hypothesis. */
  lemma {:induction false} ExistingPapersFrom(hs: seq<Existing>)
    ensures forall p :: p in ExistingPapers(hs) ==> exists i :: 0 <= i < |hs| && p in PapersOf(hs[i])
    decreases |hs|
  {
    if hs != [] {
      var pre := hs[..|hs| - 1];
      ExistingPapersFrom(pre);
      forall p | p in ExistingPapers(hs)
        ensures exists i :: 0 <= i < |hs| && p in PapersOf(hs[i])
      {
        if p in ExistingPapers(pre) {
          var i :| 0 <= i < |pre| && p in PapersOf(pre[i]);
          assert hs[i] == pre[i];
        } else {
          assert p in PapersOf(hs[|hs| - 1]);
        }
      }
    }
  }

  // ---------------------------------------------------------------------
  // Fallback search
  // ---------------------------------------------------------------------

  const FallbackCap: nat := 15

  /** A provider result kept by the fallback: a list, or nothing when the
      call raised. */
  function Listed(result: Option<seq<Paper>>): seq<Paper> {
    match result
    case Some(papers) => papers
    case None => []
  }

  function MockGoalTitle(goal: string): string {
    "Mock Paper: Research Approaches to " + goal
  }

  function MockGoalAbstract(goal: string): string {
    "This paper discusses various methodological approaches and theoretical frameworks relevant to "
      + goal + "..."
  }

  /** The single mock paper used when both providers come back empty. */
  function MockGoalPaper(goal: string): (p: Paper)
    ensures p.source == "mock" && p.title == MockGoalTitle(goal)
  {
    NewPaper(MockGoalTitle(goal), "mock", MockGoalAbstract(goal), [], "", "", "", 0.8)
  }

  /** The list results, perplexity first, or the mock paper when there are
      none, cut to 15. */
  function Combined(perplexity: Option<seq<Paper>>, pubmed: Option<seq<Paper>>, mock: Paper): seq<Paper> {
    var combined := Listed(perplexity) + Listed(pubmed);
    Take(if combined == [] then [mock] else combined, FallbackCap)
  }

  /** What `_fallback_literature_search` returns. */
  function FallbackResult(perplexity: Option<seq<Paper>>, pubmed: Option<seq<Paper>>, goal: string): seq<Paper> {
    Combined(perplexity, pubmed, MockGoalPaper(goal))
  }

  /** The combining steps of `_fallback_literature_search`: extend with each
      list result, perplexity first, substitute the mock paper when nothing
      came back, keep 15. */
  method Combine(perplexity: Option<seq<Paper>>, pubmed: Option<seq<Paper>>, mock: Paper)
    returns (papers: seq<Paper>)
    ensures papers == Combined(perplexity, pubmed, mock)
    ensures 1 <= |papers| <= FallbackCap
  {
    var combined: seq<Paper> := [];
    if perplexity.Some? {
      combined := combined + perplexity.value;
    }
    if pubmed.Some? {
      combined := combined + pubmed.value;
    }
    if combined == [] {
      combined := [mock];
    }
    papers := Take(combined, FallbackCap);
  }

  /** `_fallback_literature_search` with both provider outcomes given. */
  method FallbackLiteratureSearch(perplexity: Option<seq<Paper>>, pubmed: Option<seq<Paper>>, goal: string)
    returns (papers: seq<Paper>)
    ensures papers == FallbackResult(perplexity, pubmed, goal)
    ensures 1 <= |papers| <= FallbackCap
  {
    papers := Combine(perplexity, pubmed, MockGoalPaper(goal));
  }

  /** The fallback keeps the provider papers in order, perplexity before
      pubmed, up to 15 of them, and uses the mock paper when both lists are
      empty or failed. */
  lemma FallbackOrder(perplexity: Option<seq<Paper>>, pubmed: Option<seq<Paper>>, mock: Paper)
    ensures var r := Combined(perplexity, pubmed, mock);
      var combined := Listed(perplexity) + Listed(pubmed);
      (combined == [] ==> r == [mock])
      && (combined != [] ==> r == combined[..|r|] && |r| == if |combined| < 15 then |combined| else 15)
      && (|Listed(perplexity)| >= 15 ==> r == Listed(perplexity)[..15])
  {
    var r := Combined(perplexity, pubmed, mock);
    var a := Listed(perplexity);
    var combined := a + Listed(pubmed);
    if |a| >= 15 {
      assert combined[..15] == a[..15];
    }
  }

  /** `_search_literature_with_strategy`: the strategic search, given the
      existing papers, or the fallback when it raised. */
  method SearchLiterature(hs: seq<Existing>, strategic: seq<Paper> -> Option<seq<Paper>>,
                          perplexity: Option<seq<Paper>>, pubmed: Option<seq<Paper>>, goal: string)
    returns (literature: seq<Paper>)
    ensures match strategic(ExistingPapers(hs))
      case Some(found) => literature == found
      case None => literature == FallbackResult(perplexity, pubmed, goal)
  {
    var existing := CollectExistingPapers(hs);
    var found := strategic(existing);
    if found.Some? {
      literature := found.value;
    } else {
      literature := FallbackLiteratureSearch(perplexity, pubmed, goal);
    }
  }

  // ---------------------------------------------------------------------
  // Literature and history summaries
  // ---------------------------------------------------------------------

  const SummaryCount: nat := 8
  const AbstractWidth: nat := 200
  const HistoryCount: nat := 3

  /** The abstract, else the summary, else "No abstract available" (an
      empty value counts as missing). */
  function AbstractOf(abstractValue: string, summaryValue: string): string {
    if abstractValue != "" then abstractValue
    else if summaryValue != "" then summaryValue
    else "No abstract available"
  }

  /** `text[:200] + "..."` for text over 200 characters. */
  function Shorten(text: string): (r: string)
    ensures |r| <= AbstractWidth + 3
    ensures |text| <= AbstractWidth ==> r == text
    ensures |text| > AbstractWidth ==> |r| == AbstractWidth + 3 && r[..AbstractWidth] == text[..AbstractWidth]
                                        && r[AbstractWidth..] == "..."
  {
    if |text| > AbstractWidth then text[..AbstractWidth] + "..." else text
  }

  /** ` [SOURCE]` or ` [SOURCE/search_type]`. */
  function SourceTag(source: string, searchType: string): string {
    " [" + Upper(source) + (if searchType != "" then "/" + searchType else "") + "]"
  }

  /** One line of the literature summary. Papers carry their abstract under
      "abstract" (the `summary` field here) and no separate "summary" key. */
  function SummaryLine(p: Paper): string {
    "- " + SourceTag(p.source, p.searchType.GetOr("")) + " " + p.title + ": " + Shorten(AbstractOf(p.summary, ""))
  }

  /** The loop over `literature[:8]` that builds `literature_summaries`. */
  method SummarizeLiterature(literature: seq<Paper>) returns (lines: seq<string>)
    ensures |lines| == if |literature| < SummaryCount then |literature| else SummaryCount
    ensures forall i :: 0 <= i < |lines| ==> lines[i] == SummaryLine(literature[i])
  {
    var shown := Take(literature, SummaryCount);
    lines := [];
    var i := 0;
    while i < |shown|
      invariant 0 <= i <= |shown| && |lines| == i
      invariant forall k :: 0 <= k < i ==> lines[k] == SummaryLine(literature[k])
    {
      lines := lines + [SummaryLine(shown[i])];
      i := i + 1;
    }
  }

  /** `"\n".join(f"- {h}" for h in existing[-3:])`, or "" with no history. */
  function HistorySummary(existing: seq<string>): string {
    if existing == [] then ""
    else
      var last := TakeLast(existing, HistoryCount);
      Join("\n", seq(|last|, i requires 0 <= i < |last| => "- " + last[i]))
  }

  /** Only the last three contents reach the summary. */
  lemma HistoryLastThree(older: seq<string>, recent: seq<string>)
    requires |recent| >= HistoryCount
    ensures HistorySummary(older + recent) == HistorySummary(recent)
  {
    var all := older + recent;
    assert TakeLast(all, HistoryCount) == TakeLast(recent, HistoryCount);
  }

  /** A short history is shown in full, one bullet per entry. */
  lemma HistoryShort(existing: seq<string>)
    requires 0 < |existing| <= HistoryCount
    ensures HistorySummary(existing) == Join("\n", seq(|existing|, i requires 0 <= i < |existing| => "- " + existing[i]))
  {
    assert TakeLast(existing, HistoryCount) == existing;
  }

  // ---------------------------------------------------------------------
  // The hypothesis text
  // ---------------------------------------------------------------------

  const MinLength: nat := 100

  /** The three fixed pieces of the fallback template around the goal. */
  datatype Piece = Opening | Middle | Closing

  function PieceText(k: Piece): string {
    match k
    case Opening => "\nHypothesis: Novel approach to "
    case Middle =>
      "\n\nApproach: Systematic investigation using established scientific methodologies\nTarget: Core challenges related to "
    case Closing =>
      "\nMechanism: Evidence-based theoretical framework from current literature\nRationale: This represents a novel application based on emerging research trends and addresses gaps in current understanding\nExperimental Design: Structured investigation with appropriate controls and validation methods\n\n"
  }

  function FallbackNote(): string {
    "Note: This is a fallback hypothesis generated due to API limitations.\n"
  }

  predicate EndsWith(s: string, suffix: string) {
    |suffix| <= |s| && s[|s| - |suffix|..] == suffix
  }

  /** The fallback hypothesis of `_generate_hypothesis`. */
  function FallbackHypothesis(goal: string): string {
    var head := PieceText(Opening) + goal + PieceText(Middle);
    head + goal + (PieceText(Closing) + FallbackNote())
  }

  /** A goal placed twice into a template is contained in it, and the
      template's last piece ends it. */
  lemma TemplateShape(opening: string, middle: string, closing: string, note: string, goal: string)
    ensures Contains(opening + goal + middle + goal + (closing + note), goal)
    ensures EndsWith(opening + goal + middle + goal + (closing + note), note)
  {
    var head := opening + goal + middle;
    var tail := closing + note;
    ContainsMiddle(head, goal, tail);
    var r := head + goal + tail;
    assert r == (head + goal + closing) + note;
  }

  /** The fallback names the goal and ends with the fallback note. */
  lemma FallbackShape(goal: string)
    ensures Contains(FallbackHypothesis(goal), goal)
    ensures EndsWith(FallbackHypothesis(goal), FallbackNote())
  {
    TemplateShape(PieceText(Opening), PieceText(Middle), PieceText(Closing), FallbackNote(), goal);
  }

  /** The stripped reply when it has at least 100 characters, otherwise
      (or when the call raised) the given fallback. */
  function Accept(reply: Option<string>, fallback: string): (r: string)
    ensures reply.Some? && |Strip(reply.value)| >= MinLength ==> r == Strip(reply.value)
    ensures (reply.None? || |Strip(reply.value)| < MinLength) ==> r == fallback
  {
    match reply
    case Some(text) => if |Strip(text)| >= MinLength then Strip(text) else fallback
    case None => fallback
  }

  /** The hypothesis `_generate_hypothesis` returns. */
  function HypothesisText(reply: Option<string>, goal: string): string {
    Accept(reply, FallbackHypothesis(goal))
  }

  // ---------------------------------------------------------------------
  // execute
  // ---------------------------------------------------------------------

  datatype Generation = Generation(hypothesis: string, literatureUsed: seq<Paper>, iteration: int,
                                   agent: string, researchGoal: string)

  /** `execute` (the prompt wording left out): the literature search, then
      the hypothesis; the result keeps the first eight papers, and the agent
      records a successful execution. `inputText` and `render` give the
      string forms `str(input_data)` and `str(result)`. */
  method Execute(agent: BaseAgent.Agent, timestamp: string, inputText: string, render: Generation -> string,
                 goal: string, iteration: int, hs: seq<Existing>,
                 strategic: seq<Paper> -> Option<seq<Paper>>,
                 perplexity: Option<seq<Paper>>, pubmed: Option<seq<Paper>>, reply: Option<string>)
    returns (result: Generation)
    modifies agent
    ensures var literature := match strategic(ExistingPapers(hs))
                              case Some(found) => found
                              case None => FallbackResult(perplexity, pubmed, goal);
      result.literatureUsed == Take(literature, SummaryCount)
    ensures result.hypothesis == HypothesisText(reply, goal)
    ensures result.iteration == iteration && result.researchGoal == goal && result.agent == agent.name
    ensures agent.history == old(agent.history) + [BaseAgent.SuccessRecord(agent.name, timestamp, |inputText|, |render(result)|)]
    ensures BaseAgent.Successes(agent.history) == BaseAgent.Successes(old(agent.history)) + 1
  {
    var literature := SearchLiterature(hs, strategic, perplexity, pubmed, goal);
    var contents := CollectContents(hs);
    var lines := SummarizeLiterature(literature);
    var hypothesis := HypothesisText(reply, goal);
    var used: seq<Paper> := [];
    if literature != [] {
      used := Take(literature, SummaryCount);
    }
    assert used == Take(literature, SummaryCount);
    result := Generation(hypothesis, used, iteration, agent.name, goal);
    agent.LogExecution(timestamp, inputText, render(result));
  }
}
