// `LiteratureService.search_with_strategy`: run the planned queries against
// the three providers, tag every paper with the query that found it, drop
// duplicate titles, order by search priority and cut to `limit`.
//
// Each provider search is a parameter `(query, limit) -> papers`; the
// concrete searches are `Perplexity.SearchAcademic`, `Providers.SearchPubmed`
// and `Providers.SearchGoogleScholar` applied to their network replies.

module LiteratureService {
  import opened Wrappers
  import opened Text
  import opened Papers
  import opened SearchPlan

  const PerplexityCap: nat := 3
  const PubmedCap: nat := 3
  const ScholarCap: nat := 2
  const PerplexityLimit: nat := 5
  const PubmedLimit: nat := 5
  const ScholarLimit: nat := 3

  /** The three providers a plan addresses. */
  datatype Provider = PerplexitySearch | PubmedSearch | ScholarSearch

  /** The provider's prefix in `search_type`. */
  function Name(provider: Provider): (name: string)
    ensures name != ""
  {
    match provider
    case PerplexitySearch => "perplexity"
    case PubmedSearch => "pubmed"
    case ScholarSearch => "scholar"
  }

  /** The three assignments of the tagging loop. */
  function Tag(p: Paper, provider: Provider, q: Query): Paper {
    p.(searchType := Some(Name(provider) + "_" + q.kind),
       searchPriority := Some(q.priority),
       searchQuery := Some(q.query))
  }

  /** What the tagging loop leaves in the papers of one query. */
  function TagAll(ps: seq<Paper>, provider: Provider, q: Query): (r: seq<Paper>)
    ensures |r| == |ps|
  {
    seq(|ps|, i requires 0 <= i < |ps| => Tag(ps[i], provider, q))
  }

  /** The papers one provider loop appends, query by query. */
  function Gather(provider: Provider, queries: seq<Query>, search: (string, nat) -> seq<Paper>, n: nat): seq<Paper>
    decreases |queries|
  {
    if queries == [] then []
    else
      var q := queries[|queries| - 1];
      Gather(provider, queries[..|queries| - 1], search, n) + TagAll(search(q.query, n), provider, q)
  }

  /** `all_papers` after the three provider loops. */
  function Collected(plan: Plan, academic: (string, nat) -> seq<Paper>, pubmed: (string, nat) -> seq<Paper>,
                     scholar: (string, nat) -> seq<Paper>): seq<Paper>
  {
    Gather(PerplexitySearch, Take(plan.perplexity, PerplexityCap), academic, PerplexityLimit)
      + Gather(PubmedSearch, Take(plan.pubmed, PubmedCap), pubmed, PubmedLimit)
      + Gather(ScholarSearch, Take(plan.scholar, ScholarCap), scholar, ScholarLimit)
  }

  /** The queries the provider loops actually run. */
  function UsedQueries(plan: Plan): seq<Query> {
    Take(plan.perplexity, PerplexityCap) + Take(plan.pubmed, PubmedCap) + Take(plan.scholar, ScholarCap)
  }

  /** What `search_with_strategy` returns for a plan. */
  function StrategyResult(plan: Plan, limit: nat, academic: (string, nat) -> seq<Paper>,
                          pubmed: (string, nat) -> seq<Paper>, scholar: (string, nat) -> seq<Paper>): seq<Paper>
  {
    Take(Prioritize(Dedup(Collected(plan, academic, pubmed, scholar))), limit)
  }

  // ---------------------------------------------------------------------
  // The loops
  // ---------------------------------------------------------------------

  /** The inner loop: tag each paper of one query. */
  method TagPapers(found: seq<Paper>, provider: Provider, q: Query) returns (tagged: seq<Paper>)
    ensures tagged == TagAll(found, provider, q)
  {
    tagged := [];
    var j := 0;
    while j < |found|
      invariant 0 <= j <= |found| && |tagged| == j
      invariant forall k :: 0 <= k < j ==> tagged[k] == Tag(found[k], provider, q)
    {
      tagged := tagged + [Tag(found[j], provider, q)];
      j := j + 1;
    }
  }

  /** One provider loop: `for query_info in queries[:cap]`, search with
      limit `n`, tag, extend. */
  method RunQueries(provider: Provider, queries: seq<Query>, cap: nat, n: nat,
                    search: (string, nat) -> seq<Paper>) returns (papers: seq<Paper>)
    ensures papers == Gather(provider, Take(queries, cap), search, n)
  {
    var qs := Take(queries, cap);
    papers := [];
    var i := 0;
    while i < |qs|
      invariant 0 <= i <= |qs|
      invariant papers == Gather(provider, qs[..i], search, n)
    {
      var q := qs[i];
      var found := search(q.query, n);
      var tagged := TagPapers(found, provider, q);
      assert qs[..i + 1][..i] == qs[..i];
      papers := papers + tagged;
      i := i + 1;
    }
    assert qs[..i] == qs;
  }

  /** The searches, deduplication, prioritisation and truncation of
      `search_with_strategy` for a given plan. */
  method RunPlan(plan: Plan, limit: nat, academic: (string, nat) -> seq<Paper>,
                 pubmed: (string, nat) -> seq<Paper>, scholar: (string, nat) -> seq<Paper>)
    returns (papers: seq<Paper>)
    ensures papers == StrategyResult(plan, limit, academic, pubmed, scholar)
    ensures |papers| <= limit
  {
    var all: seq<Paper> := [];
    var found := RunQueries(PerplexitySearch, plan.perplexity, PerplexityCap, PerplexityLimit, academic);
    all := all + found;
    found := RunQueries(PubmedSearch, plan.pubmed, PubmedCap, PubmedLimit, pubmed);
    all := all + found;
    found := RunQueries(ScholarSearch, plan.scholar, ScholarCap, ScholarLimit, scholar);
    all := all + found;
    assert all == Collected(plan, academic, pubmed, scholar);
    var unique := DeduplicatePapers(all);
    var prioritized := Prioritize(unique);
    papers := Take(prioritized, limit);
  }

  /** `search_with_strategy`: extract the plan, then run it. */
  method SearchWithStrategy(hypothesis: string, iteration: int, hasModel: bool,
                            domainReply: Option<string>, analysisReply: Option<string>,
                            strategyReply: Option<string>, decode: string -> Option<Plan>, limit: nat,
                            academic: (string, nat) -> seq<Paper>, pubmed: (string, nat) -> seq<Paper>,
                            scholar: (string, nat) -> seq<Paper>) returns (papers: seq<Paper>)
    ensures papers == StrategyResult(ExtractSearchStrategy(hypothesis, iteration, hasModel, domainReply,
                                                           analysisReply, strategyReply, decode),
                                     limit, academic, pubmed, scholar)
    ensures |papers| <= limit
  {
    var plan := ExtractSearchStrategy(hypothesis, iteration, hasModel, domainReply, analysisReply,
                                      strategyReply, decode);
    papers := RunPlan(plan, limit, academic, pubmed, scholar);
  }

  // ---------------------------------------------------------------------
  // Properties
  // ---------------------------------------------------------------------

  /** Every paper a provider loop appends is a paper the provider returned
      for one of the queries it ran, tagged with that query. */
  lemma {:induction false} GatherTagged(provider: Provider, queries: seq<Query>,
                                        search: (string, nat) -> seq<Paper>, n: nat)
    ensures forall x :: x in Gather(provider, queries, search, n) ==>
      exists q, p :: q in queries && p in search(q.query, n) && x == Tag(p, provider, q)
    decreases |queries|
  {
    if queries != [] {
      var pre := queries[..|queries| - 1];
      var q := queries[|queries| - 1];
      GatherTagged(provider, pre, search, n);
      var tail := TagAll(search(q.query, n), provider, q);
      forall x | x in Gather(provider, queries, search, n)
        ensures exists q, p :: q in queries && p in search(q.query, n) && x == Tag(p, provider, q)
      {
        if x in Gather(provider, pre, search, n) {
          var q', p' :| q' in pre && p' in search(q'.query, n) && x == Tag(p', provider, q');
          assert q' in queries;
        } else {
          assert x in tail;
          var i :| 0 <= i < |tail| && tail[i] == x;
          assert x == Tag(search(q.query, n)[i], provider, q);
          assert q in queries;
        }
      }
    }
  }

  /** Every collected paper is a provider's paper tagged with one of the
      first 3 Perplexity, 3 PubMed or 2 Scholar queries. */
  lemma CollectedTagged(plan: Plan, academic: (string, nat) -> seq<Paper>, pubmed: (string, nat) -> seq<Paper>,
                        scholar: (string, nat) -> seq<Paper>)
    ensures forall x :: x in Collected(plan, academic, pubmed, scholar) ==>
      exists provider, q, p :: q in UsedQueries(plan) && x == Tag(p, provider, q)
  {
    var a := Take(plan.perplexity, PerplexityCap);
    var b := Take(plan.pubmed, PubmedCap);
    var c := Take(plan.scholar, ScholarCap);
    GatherTagged(PerplexitySearch, a, academic, PerplexityLimit);
    GatherTagged(PubmedSearch, b, pubmed, PubmedLimit);
    GatherTagged(ScholarSearch, c, scholar, ScholarLimit);
    var u := UsedQueries(plan);
    forall x | x in Collected(plan, academic, pubmed, scholar)
      ensures exists provider, q, p :: q in u && x == Tag(p, provider, q)
    {
      if x in Gather(PerplexitySearch, a, academic, PerplexityLimit) {
        var q, p :| q in a && p in academic(q.query, PerplexityLimit) && x == Tag(p, PerplexitySearch, q);
        assert q in u;
      } else if x in Gather(PubmedSearch, b, pubmed, PubmedLimit) {
        var q, p :| q in b && p in pubmed(q.query, PubmedLimit) && x == Tag(p, PubmedSearch, q);
        assert q in u;
      } else {
        var q, p :| q in c && p in scholar(q.query, ScholarLimit) && x == Tag(p, ScholarSearch, q);
        assert q in u;
      }
    }
  }

  /** A provider that respects its limit makes one loop append at most
      `n` papers per query. */
  lemma {:induction false} GatherBound(provider: Provider, queries: seq<Query>,
                                       search: (string, nat) -> seq<Paper>, n: nat)
    requires forall q :: q in queries ==> |search(q.query, n)| <= n
    ensures |Gather(provider, queries, search, n)| <= |queries| * n
    decreases |queries|
  {
    if queries != [] {
      var m := |queries| - 1;
      GatherBound(provider, queries[..m], search, n);
      assert queries[m] in queries;
      var rest := Gather(provider, queries[..m], search, n);
      var tail := TagAll(search(queries[m].query, n), provider, queries[m]);
      assert |Gather(provider, queries, search, n)| == |rest| + |tail|;
      MulStep(m, n);
    }
  }

  lemma MulStep(m: nat, n: nat)
    ensures (m + 1) * n == m * n + n
  {
  }

  /** With providers that respect their limits, at most 3*5 + 3*5 + 2*3 = 36
      papers are collected. */
  lemma CollectedBound(plan: Plan, academic: (string, nat) -> seq<Paper>, pubmed: (string, nat) -> seq<Paper>,
                       scholar: (string, nat) -> seq<Paper>)
    requires forall q :: |academic(q, PerplexityLimit)| <= PerplexityLimit
    requires forall q :: |pubmed(q, PubmedLimit)| <= PubmedLimit
    requires forall q :: |scholar(q, ScholarLimit)| <= ScholarLimit
    ensures |Collected(plan, academic, pubmed, scholar)| <= 36
  {
    GatherBound(PerplexitySearch, Take(plan.perplexity, PerplexityCap), academic, PerplexityLimit);
    GatherBound(PubmedSearch, Take(plan.pubmed, PubmedCap), pubmed, PubmedLimit);
    GatherBound(ScholarSearch, Take(plan.scholar, ScholarCap), scholar, ScholarLimit);
  }

  /** A loop only asks for `n` papers per query. */
  lemma {:induction false} GatherUsesLimit(provider: Provider, queries: seq<Query>,
                                           s1: (string, nat) -> seq<Paper>, s2: (string, nat) -> seq<Paper>, n: nat)
    requires forall q :: q in queries ==> s1(q.query, n) == s2(q.query, n)
    ensures Gather(provider, queries, s1, n) == Gather(provider, queries, s2, n)
    decreases |queries|
  {
    if queries != [] {
      GatherUsesLimit(provider, queries[..|queries| - 1], s1, s2, n);
    }
  }

  /** The result depends on the plan only through its first 3/3/2 queries
      and on the providers only through their answers at limits 5/5/3. */
  lemma ResultDependsOnCaps(p1: Plan, p2: Plan, limit: nat,
                            a1: (string, nat) -> seq<Paper>, a2: (string, nat) -> seq<Paper>,
                            b1: (string, nat) -> seq<Paper>, b2: (string, nat) -> seq<Paper>,
                            c1: (string, nat) -> seq<Paper>, c2: (string, nat) -> seq<Paper>)
    requires Take(p1.perplexity, 3) == Take(p2.perplexity, 3)
    requires Take(p1.pubmed, 3) == Take(p2.pubmed, 3)
    requires Take(p1.scholar, 2) == Take(p2.scholar, 2)
    requires forall q :: a1(q, 5) == a2(q, 5)
    requires forall q :: b1(q, 5) == b2(q, 5)
    requires forall q :: c1(q, 3) == c2(q, 3)
    ensures StrategyResult(p1, limit, a1, b1, c1) == StrategyResult(p2, limit, a2, b2, c2)
  {
    GatherUsesLimit(PerplexitySearch, Take(p1.perplexity, 3), a1, a2, 5);
    GatherUsesLimit(PubmedSearch, Take(p1.pubmed, 3), b1, b2, 5);
    GatherUsesLimit(ScholarSearch, Take(p1.scholar, 2), c1, c2, 3);
  }

  /** The result holds at most `limit` papers, in non-increasing order of
      priority score, each of them a collected (tagged) paper. */
  lemma ResultFromCollected(plan: Plan, limit: nat, academic: (string, nat) -> seq<Paper>,
                            pubmed: (string, nat) -> seq<Paper>, scholar: (string, nat) -> seq<Paper>)
    ensures var r := StrategyResult(plan, limit, academic, pubmed, scholar);
      |r| <= limit
      && (forall k, l :: 0 <= k < l < |r| ==> PriorityScore(r[k]) >= PriorityScore(r[l]))
      && (forall x :: x in r ==> x in Collected(plan, academic, pubmed, scholar))
  {
    var all := Collected(plan, academic, pubmed, scholar);
    var u := Dedup(all);
    var s := Prioritize(u);
    DedupSubsequence(all);
    SubsequenceMembers(u, all);
    PrioritizePermutes(u);
    forall x | x in Take(s, limit)
      ensures x in all
    {
      assert x in multiset(s);
    }
  }

  /** No two titled papers of the result share a title key. */
  lemma ResultDistinctTitles(plan: Plan, limit: nat, academic: (string, nat) -> seq<Paper>,
                             pubmed: (string, nat) -> seq<Paper>, scholar: (string, nat) -> seq<Paper>)
    ensures DistinctTitles(StrategyResult(plan, limit, academic, pubmed, scholar))
  {
    var all := Collected(plan, academic, pubmed, scholar);
    DedupDistinctTitles(all);
    PrioritizeKeepsDistinct(Dedup(all));
  }

  /** The result is non-empty when `limit >= 1` and some PubMed query is
      planned: the PubMed search never comes back empty. */
  lemma ResultNonEmpty(plan: Plan, limit: nat, academic: (string, nat) -> seq<Paper>,
                       pubmed: (string, nat) -> seq<Paper>, scholar: (string, nat) -> seq<Paper>)
    requires limit >= 1 && plan.pubmed != []
    requires forall q :: pubmed(q, PubmedLimit) != []
    ensures StrategyResult(plan, limit, academic, pubmed, scholar) != []
  {
    var b := Take(plan.pubmed, PubmedCap);
    var all := Collected(plan, academic, pubmed, scholar);
    assert |Gather(PubmedSearch, b, pubmed, PubmedLimit)| > 0;
    assert |all| > 0;
    DedupKeepsFirst(all);
  }
}
