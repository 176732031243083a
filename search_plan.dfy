/** How the literature service plans a search: the variation angle chosen
    for each hypothesis, the research-domain context, the fallback plan
    used when no language model answers, and the extraction of a JSON plan
    from a model reply. Replies are inputs; `None` stands for a call that
    raised. JSON decoding is an oracle. */
module SearchPlan {
  import opened Wrappers
  import opened Text

  // ---------------------------------------------------------------------
  // Variation strategy
  // ---------------------------------------------------------------------

  const Strategies: seq<string> := [
    "Focus on FOUNDATIONAL LITERATURE - emphasize seminal papers, established theories, and core principles",
    "Focus on RECENT ADVANCES - emphasize cutting-edge research, novel methodologies, and emerging trends",
    "Focus on INTERDISCIPLINARY CONNECTIONS - emphasize cross-domain research, hybrid approaches, and novel applications",
    "Focus on METHODOLOGICAL INNOVATIONS - emphasize new techniques, experimental approaches, and analytical methods",
    "Focus on CRITICAL PERSPECTIVES - emphasize challenges, limitations, alternative viewpoints, and contrarian evidence",
    "Focus on REVIEW PAPERS - emphasize comprehensive reviews, meta-analyses, and systematic studies",
    "Focus on CASE STUDIES - emphasize practical applications, real-world implementations, and specific examples",
    "Focus on THEORETICAL FRAMEWORKS - emphasize conceptual models, theoretical foundations, and analytical frameworks",
    "Focus on COMPARATIVE STUDIES - emphasize comparative analyses, benchmarking studies, and evaluation research",
    "Focus on EMERGING TOPICS - emphasize frontier research, speculative approaches, and future directions"
  ]

  const GlobalPrefix := ". This is global hypothesis "
  const GlobalSuffix := " across all iterations - ensure literature selection is COMPLETELY DISTINCT from all previous hypotheses."

  /** `(iteration - 1) * total_hypotheses + hypothesis_index` (any sign). */
  function GlobalIndex(index: int, total: int, iteration: int): int {
    (iteration - 1) * total + index
  }

  /** `global % 10` with Python's `%`: for a positive divisor it agrees with
      Dafny's Euclidean remainder, so a negative global index still picks a
      strategy in 0..9. */
  function StrategyIndex(g: int): (k: nat)
    ensures k < 10 && (g - k) % 10 == 0
  {
    g % 10
  }

  /** `_get_variation_instructions` */
  function VariationInstructions(index: int, total: int, iteration: int): (r: string)
    ensures StartsWith(r, Strategies[StrategyIndex(GlobalIndex(index, total, iteration))])
  {
    var g := GlobalIndex(index, total, iteration);
    var base := Strategies[StrategyIndex(g)];
    assert (base + GlobalPrefix + IntToString(g + 1) + GlobalSuffix)[..|base|] == base;
    base + GlobalPrefix + IntToString(g + 1) + GlobalSuffix
  }

  /** Global indices that agree modulo 10 get the same angle. */
  lemma VariationCycles(i1: int, t1: int, it1: int, i2: int, t2: int, it2: int)
    requires GlobalIndex(i1, t1, it1) % 10 == GlobalIndex(i2, t2, it2) % 10
    ensures StartsWith(VariationInstructions(i1, t1, it1), Strategies[GlobalIndex(i1, t1, it1) % 10])
    ensures StartsWith(VariationInstructions(i2, t2, it2), Strategies[GlobalIndex(i1, t1, it1) % 10])
  {
  }

  /** The text names the 1-based global index, so two different global
      indices never get the same instructions. */
  lemma VariationDistinct(i1: int, t1: int, it1: int, i2: int, t2: int, it2: int)
    requires GlobalIndex(i1, t1, it1) != GlobalIndex(i2, t2, it2)
    ensures VariationInstructions(i1, t1, it1) != VariationInstructions(i2, t2, it2)
  {
    var g1, g2 := GlobalIndex(i1, t1, it1), GlobalIndex(i2, t2, it2);
    var n1, n2 := IntToString(g1 + 1), IntToString(g2 + 1);
    if VariationInstructions(i1, t1, it1) == VariationInstructions(i2, t2, it2) {
      IntToStringNoSpace(g1 + 1);
      IntToStringNoSpace(g2 + 1);
      NumberDetermined(Strategies[StrategyIndex(g1)], Strategies[StrategyIndex(g2)], n1, n2);
      IntToStringInjective(g1 + 1, g2 + 1);
    }
  }

  lemma IntToStringNoSpace(i: int)
    ensures forall k :: 0 <= k < |IntToString(i)| ==> IntToString(i)[k] != ' '
  {
    if i < 0 {
      assert forall k :: 1 <= k < |IntToString(i)| ==> IntToString(i)[k] == NatToString(-i)[k - 1];
    }
  }

  /** The number of non-space characters at the end of `x`. */
  function TrailingRun(x: string): (k: nat)
    ensures k <= |x|
  {
    if |x| == 0 || x[|x| - 1] == ' ' then 0 else 1 + TrailingRun(x[..|x| - 1])
  }

  lemma {:induction false} TrailingRunAfterSpace(a: string, n: string)
    requires forall k :: 0 <= k < |n| ==> n[k] != ' '
    ensures TrailingRun(a + " " + n) == |n|
  {
    if n != [] {
      var m := n[..|n| - 1];
      assert (a + " " + n)[..|a + " " + n| - 1] == a + " " + m;
      TrailingRunAfterSpace(a, m);
    }
  }

  /** The number between the fixed prefix (ending in a space) and the fixed
      suffix is determined by the text when it holds no space. */
  lemma NumberDetermined(b1: string, b2: string, n1: string, n2: string)
    requires forall k :: 0 <= k < |n1| ==> n1[k] != ' '
    requires forall k :: 0 <= k < |n2| ==> n2[k] != ' '
    requires b1 + GlobalPrefix + n1 + GlobalSuffix == b2 + GlobalPrefix + n2 + GlobalSuffix
    ensures n1 == n2
  {
    var x1, x2 := b1 + GlobalPrefix + n1, b2 + GlobalPrefix + n2;
    assert x1 == (x1 + GlobalSuffix)[..|x1|];
    assert x2 == (x2 + GlobalSuffix)[..|x2|];
    var head := GlobalPrefix[..|GlobalPrefix| - 1];
    assert GlobalPrefix == head + " ";
    assert x1 == (b1 + head) + " " + n1;
    assert x2 == (b2 + head) + " " + n2;
    TrailingRunAfterSpace(b1 + head, n1);
    TrailingRunAfterSpace(b2 + head, n2);
    assert n1 == x1[|x1| - |n1|..];
    assert n2 == x2[|x2| - |n2|..];
  }

  // ---------------------------------------------------------------------
  // Domain context
  // ---------------------------------------------------------------------

  /** The parts of a domain context the model uses (the prompt-only parts,
      core entities and hypothesis structure, are not modelled). */
  datatype DomainContext = DomainContext(
    field: string,
    expertRole: string,
    searchFocus: string,
    enhancementTerms: seq<string>)

  /** `_get_default_domain_context` */
  const DefaultContext := DomainContext(
    "general scientific research",
    "scientific researcher",
    "scientific methodology, research approaches, systematic investigation",
    ["scientific research", "research methodology", "systematic investigation"])

  /** The keys of the `contexts` table, "medicine" included. */
  const KnownDomains: seq<string> :=
    ["medicine", "physics", "chemistry", "computer_science", "biology", "environmental_science", "climate_science"]

  /** `_get_domain_context`: the table lookup with the default context for
      any other domain name. */
  function GetDomainContext(domain: string): (c: DomainContext)
    ensures |c.enhancementTerms| == 3
    ensures domain !in KnownDomains ==> c == DefaultContext
    ensures domain == "medicine" ==> c == DefaultContext
    ensures domain in KnownDomains[1..] ==> c != DefaultContext
  {
    if domain == "physics" then
      DomainContext("physics research", "physics researcher",
        "theoretical physics, experimental physics, computational physics",
        ["physics", "theoretical physics", "experimental physics"])
    else if domain == "chemistry" then
      DomainContext("chemistry research", "chemistry researcher",
        "chemical synthesis, reaction mechanisms, catalysis",
        ["chemistry", "chemical synthesis", "reaction mechanisms"])
    else if domain == "computer_science" then
      DomainContext("computer science research", "computer science researcher",
        "computational methods, algorithms, systems research",
        ["computer science", "algorithms", "computational methods"])
    else if domain == "biology" then
      DomainContext("biological research", "biological researcher",
        "molecular biology, cellular biology, systems biology",
        ["biology", "molecular biology", "biological systems"])
    else if domain == "environmental_science" then
      DomainContext("environmental science research", "environmental science researcher",
        "environmental impact, sustainability, ecological systems",
        ["environmental science", "sustainability", "ecological systems"])
    else if domain == "climate_science" then
      DomainContext("climate science research", "climate science researcher",
        "climate change, atmospheric science, climate modeling",
        ["climate science", "climate change", "atmospheric science"])
    else DefaultContext
  }

  /** `_detect_domain_context`: the default without a model or when the
      call raises, otherwise the stripped, lower-cased reply looked up. */
  function DetectDomainContext(hasModel: bool, reply: Option<string>): (c: DomainContext)
    ensures |c.enhancementTerms| == 3
    ensures !hasModel || reply.None? ==> c == DefaultContext
    ensures hasModel && reply.Some? && Lower(Strip(reply.value)) !in KnownDomains ==> c == DefaultContext
  {
    if !hasModel then DefaultContext
    else match reply {
      case None => DefaultContext
      case Some(r) => GetDomainContext(Lower(Strip(r)))
    }
  }

  // ---------------------------------------------------------------------
  // Search plans
  // ---------------------------------------------------------------------

  /** One entry of a query list (the free-text rationale is not modelled). */
  datatype Query = Query(query: string, priority: string, kind: string, keywords: seq<string>)

  datatype ConceptMap = ConceptMap(primaryFocus: string, targetDomain: string, methodology: string)

  /** A search strategy: the three query lists and the concept map. */
  datatype Plan = Plan(perplexity: seq<Query>, pubmed: seq<Query>, scholar: seq<Query>, concepts: ConceptMap)

  /** The focus phrase of the fallback plan. */
  function Focus(iteration: int): (f: string)
    ensures iteration == 1 ==> f == "primary research"
    ensures iteration == 2 ==> f == "mechanisms methods"
    ensures iteration != 1 && iteration != 2 ==> f == "applications theory"
  {
    if iteration == 1 then "primary research"
    else if iteration == 2 then "mechanisms methods"
    else "applications theory"
  }

  /** The exact PubMed query of the fallback plan. It contains " AND ",
      so the PubMed search sends it unchanged. */
  function PubmedExactQuery(hypothesis: string, first: string, second: string): (q: string)
    ensures Contains(q, " AND ")
    ensures StartsWith(q, "(" + hypothesis + ")")
  {
    var left, right := "(" + hypothesis + ")", "(" + first + " OR " + second + ")";
    ContainsMiddle(left, " AND ", right);
    assert (left + " AND " + right)[..|left|] == left;
    left + " AND " + right
  }

  /** The expanded PubMed query of the fallback plan: any of the first
      three words, and the focus or a generic term. */
  function PubmedExpandedQuery(base: seq<string>, focus: string): (q: string)
    ensures Contains(q, " AND ")
  {
    var left, right := "(" + Join(" OR ", Take(base, 3)) + ")", "(" + focus + " OR research OR study)";
    ContainsMiddle(left, " AND ", right);
    left + " AND " + right
  }

  /** `_fallback_search_strategy`; the context's enhancement terms must be
      non-empty (Python indexes the first one). */
  function FallbackSearchStrategy(hypothesis: string, iteration: int, ctx: DomainContext): (p: Plan)
    requires |ctx.enhancementTerms| >= 1
    ensures |p.perplexity| == 2 && |p.pubmed| == 2 && |p.scholar| == 1
    ensures forall q :: q in p.pubmed ==> Contains(q.query, " AND ")
    ensures p.pubmed[0].keywords == Take(Words(hypothesis), 5)
    ensures p.concepts.methodology == Focus(iteration) && p.concepts.targetDomain == hypothesis
  {
    var base := Take(Words(hypothesis), 5);
    var focus := Focus(iteration);
    var terms := ctx.enhancementTerms;
    var second := if |terms| > 1 then terms[1] else "research";
    Plan(
      [Query(hypothesis + " " + focus + " applications", "high", "primary", []),
       Query(terms[0] + " " + Join(" ", Take(base, 3)) + " " + focus, "medium", "secondary", [])],
      [Query(PubmedExactQuery(hypothesis, terms[0], second), "high", "exact", base),
       Query(PubmedExpandedQuery(base, focus), "medium", "expanded", base + Words(focus))],
      [Query(hypothesis + " " + terms[0], "medium", "academic", [])],
      ConceptMap(if |base| > 0 then base[0] else "unknown", hypothesis, focus))
  }

  /** The first fallback query to each provider starts with the hypothesis. */
  lemma FallbackLeadsWithHypothesis(hypothesis: string, iteration: int, ctx: DomainContext)
    requires |ctx.enhancementTerms| >= 1
    ensures StartsWith(FallbackSearchStrategy(hypothesis, iteration, ctx).perplexity[0].query, hypothesis)
    ensures StartsWith(FallbackSearchStrategy(hypothesis, iteration, ctx).scholar[0].query, hypothesis)
  {
    var p := FallbackSearchStrategy(hypothesis, iteration, ctx);
    assert p.perplexity[0].query[..|hypothesis|] == hypothesis;
    assert p.scholar[0].query[..|hypothesis|] == hypothesis;
  }

  /** The JSON slice of `extract_search_strategy`: from the first '{' to
      the last '}' inclusive, when the last '}' comes after the first '{'. */
  function ExtractJson(s: string): (r: Option<string>)
    ensures r.Some? <==> exists i, j :: 0 <= i < j < |s| && s[i] == '{' && s[j] == '}'
    ensures r.Some? ==> exists a, b ::
      0 <= a < b < |s| && r.value == s[a..b + 1]
      && s[a] == '{' && '{' !in s[..a] && s[b] == '}' && '}' !in s[b + 1..]
  {
    var start := IndexOf(s, '{');
    var last := LastIndexOf(s, '}');
    JsonBounds(s);
    if start >= 0 && last > start then
      JsonSlice(s, start, last);
      Some(s[start..last + 1])
    else None
  }

  /** The slice between a first opening and a last closing brace is a
      witness for the shape promised by `ExtractJson`. */
  lemma JsonSlice(s: string, a: int, b: int)
    requires 0 <= a < b < |s| && s[a] == '{' && '{' !in s[..a] && s[b] == '}' && '}' !in s[b + 1..]
    ensures exists i, j ::
      0 <= i < j < |s| && s[a..b + 1] == s[i..j + 1]
      && s[i] == '{' && '{' !in s[..i] && s[j] == '}' && '}' !in s[j + 1..]
  {
    assert s[a..b + 1] == s[a..b + 1];
  }

  lemma JsonBounds(s: string)
    ensures (IndexOf(s, '{') >= 0 && LastIndexOf(s, '}') > IndexOf(s, '{'))
      <==> exists i, j :: 0 <= i < j < |s| && s[i] == '{' && s[j] == '}'
  {
    var a, b := IndexOf(s, '{'), LastIndexOf(s, '}');
    if exists i, j :: 0 <= i < j < |s| && s[i] == '{' && s[j] == '}' {
      var i, j :| 0 <= i < j < |s| && s[i] == '{' && s[j] == '}';
      IndexOfFirst(s, '{', i);
      LastIndexOfLast(s, '}', j);
    }
  }

  /** `extract_search_strategy`: the decoded plan when every model call
      answers and the slice decodes, otherwise the fallback plan (with the
      default context when there is no model). */
  function ExtractSearchStrategy(hypothesis: string, iteration: int, hasModel: bool,
                                 domainReply: Option<string>, analysisReply: Option<string>,
                                 strategyReply: Option<string>, decode: string -> Option<Plan>): (p: Plan)
    ensures !hasModel ==> p == FallbackSearchStrategy(hypothesis, iteration, DefaultContext)
    ensures hasModel && (analysisReply.None? || strategyReply.None?) ==>
      p == FallbackSearchStrategy(hypothesis, iteration, DetectDomainContext(true, domainReply))
    ensures hasModel && analysisReply.Some? && strategyReply.Some? ==>
      match ExtractJson(strategyReply.value) {
        case None => p == FallbackSearchStrategy(hypothesis, iteration, DetectDomainContext(true, domainReply))
        case Some(js) => decode(js).Some? ==> p == decode(js).value
      }
    ensures (hasModel && analysisReply.Some? && strategyReply.Some? && ExtractJson(strategyReply.value).Some?
             && decode(ExtractJson(strategyReply.value).value).None?) ==>
      p == FallbackSearchStrategy(hypothesis, iteration, DetectDomainContext(true, domainReply))
  {
    if !hasModel then FallbackSearchStrategy(hypothesis, iteration, DefaultContext)
    else
      var ctx := DetectDomainContext(true, domainReply);
      if analysisReply.None? || strategyReply.None? then FallbackSearchStrategy(hypothesis, iteration, ctx)
      else match ExtractJson(strategyReply.value) {
        case None => FallbackSearchStrategy(hypothesis, iteration, ctx)
        case Some(js) =>
          match decode(js) {
            case None => FallbackSearchStrategy(hypothesis, iteration, ctx)
            case Some(plan) => plan
          }
      }
  }

  /** A reply without a closing brace after its first opening brace always
      falls back. */
  lemma NoBracesFallsBack(hypothesis: string, iteration: int, domainReply: Option<string>,
                          analysis: string, reply: string, decode: string -> Option<Plan>)
    requires '{' !in reply
    ensures ExtractSearchStrategy(hypothesis, iteration, true, domainReply, Some(analysis), Some(reply), decode)
      == FallbackSearchStrategy(hypothesis, iteration, DetectDomainContext(true, domainReply))
  {
  }
}
