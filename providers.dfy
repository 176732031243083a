/** The three literature providers of the literature service: the mock
    result generators used whenever a provider is unavailable, the mapping
    of Serper (Google Scholar) results, and the PubMed query preparation and
    batched fetch. Every network call is an input: `None` stands for a call
    that raised, and XML parsing of PubMed records is an oracle. */
module Providers {
  import opened Wrappers
  import opened Text
  import opened Papers
  import opened Mocks

  // ---------------------------------------------------------------------
  // Google Scholar via Serper
  // ---------------------------------------------------------------------

  /** One entry of Serper's `organic` list; a missing key is `None`. */
  datatype SerperResult = SerperResult(
    title: Option<string>,
    snippet: Option<string>,
    authors: Option<string>,
    summary: Option<string>,
    link: Option<string>,
    citedBy: Option<nat>)

  /** The paper one Serper result maps to, with the documented defaults. */
  function SerperPaper(r: SerperResult): (p: Paper)
    ensures p.source == "scholar" && p.year == "2024" && p.relevance == 0.85
    ensures r.title.None? ==> p.title == "Unknown Title"
    ensures r.title.Some? ==> p.title == r.title.value
    ensures p.citations == if r.citedBy.Some? then r.citedBy.value else 0
    ensures |p.authors| == 1
  {
    Paper(r.title.GetOr("Unknown Title"), "scholar", r.snippet.GetOr("No abstract available"),
          [r.authors.GetOr("Unknown Author")], r.summary.GetOr("Unknown Journal"), "2024",
          r.link.GetOr(""), 0.85, "", r.citedBy.GetOr(0), None, None, None)
  }

  /** `_parse_serper_response`: the first `limit` organic results, in order. */
  function ParseSerper(organic: seq<SerperResult>, limit: nat): (ps: seq<Paper>)
    ensures |ps| == if limit < |organic| then limit else |organic|
    ensures forall k :: 0 <= k < |ps| ==> ps[k] == SerperPaper(organic[k])
    ensures forall p :: p in ps ==> p.source == "scholar"
  {
    var kept := Take(organic, limit);
    seq(|kept|, k requires 0 <= k < |kept| => SerperPaper(kept[k]))
  }

  /** `search_google_scholar`: the mock without a key or when the request
      raises; otherwise the parsed results, which may be empty. */
  function SearchGoogleScholar(hasKey: bool, query: string, limit: nat,
                               response: Option<seq<SerperResult>>): (ps: seq<Paper>)
    ensures |ps| <= limit
    ensures forall p :: p in ps ==> p.source == "scholar"
    ensures (!hasKey || response.None?) ==> ps == MockScholar(query, limit)
    ensures hasKey && response.Some? ==> ps == ParseSerper(response.value, limit)
  {
    if !hasKey then MockScholar(query, limit)
    else match response {
      case None => MockScholar(query, limit)
      case Some(organic) => ParseSerper(organic, limit)
    }
  }

  // ---------------------------------------------------------------------
  // PubMed
  // ---------------------------------------------------------------------

  /** A query that `search_pubmed` sends as it is. */
  predicate IsFormatted(query: string) {
    Contains(query, " AND ") || Contains(query, " OR ") || '(' in query
  }

  /** The research fields `_enhance_pubmed_query` recognises, tried in
      this order; `General` is the default. */
  datatype Field = Medical | Computing | Physics | General

  /** The keywords that select a field. */
  function Triggers(f: Field): seq<string> {
    match f
    case Medical => ["drug", "repurpos", "therapeut", "clinical"]
    case Computing => ["algorithm", "computation", "software", "machine learning"]
    case Physics => ["physics", "quantum", "theoretical", "experimental"]
    case General => []
  }

  /** The group of terms each field adds to the query. */
  function GroupTerms(f: Field): string {
    match f
    case Medical => "(medical research OR clinical studies OR therapeutic approaches)"
    case Computing => "(computational methods OR algorithms OR machine learning)"
    case Physics => "(physics OR theoretical OR experimental)"
    case General => "(scientific research OR research methods OR scientific approaches)"
  }

  /** `any(term in s for term in terms)` */
  predicate MentionsAny(s: string, terms: seq<string>) {
    exists k :: 0 <= k < |terms| && Contains(s, terms[k])
  }

  /** The first field whose keywords occur in the lower-cased query. */
  function QueryField(query: string): (f: Field)
    ensures f == Medical <==> MentionsAny(Lower(query), Triggers(Medical))
    ensures f == Computing <==>
      !MentionsAny(Lower(query), Triggers(Medical)) && MentionsAny(Lower(query), Triggers(Computing))
    ensures f == Physics <==>
      !MentionsAny(Lower(query), Triggers(Medical)) && !MentionsAny(Lower(query), Triggers(Computing))
      && MentionsAny(Lower(query), Triggers(Physics))
    ensures f != General ==> MentionsAny(Lower(query), Triggers(f))
  {
    var q := Lower(query);
    if MentionsAny(q, Triggers(Medical)) then Medical
    else if MentionsAny(q, Triggers(Computing)) then Computing
    else if MentionsAny(q, Triggers(Physics)) then Physics
    else General
  }

  /** The publication-date filter appended to every enhanced query. */
  function DateFilter(): string {
    " AND (\"2014\"[Date - Publication] : \"3000\"[Date - Publication])"
  }

  /** `_enhance_pubmed_query`: the parenthesised query, its domain group and
      the publication-date filter, joined by " AND ". */
  function EnhancePubmedQuery(query: string): (r: string)
    ensures r == "(" + query + ")" + " AND " + (GroupTerms(QueryField(query)) + DateFilter())
    ensures IsFormatted(r)
  {
    var head, tail := "(" + query + ")", GroupTerms(QueryField(query)) + DateFilter();
    ContainsMiddle(head, " AND ", tail);
    head + " AND " + tail
  }

  /** The term `search_pubmed` first sends. */
  function PubmedTerm(query: string): (t: string)
    ensures IsFormatted(query) ==> t == query
    ensures !IsFormatted(query) ==> t == EnhancePubmedQuery(query)
    ensures IsFormatted(t)
  {
    if IsFormatted(query) then query else EnhancePubmedQuery(query)
  }

  /** Preparing a term once more changes nothing. */
  lemma PubmedTermIdempotent(query: string)
    ensures PubmedTerm(PubmedTerm(query)) == PubmedTerm(query)
  {
  }

  /** The retry term when the first search finds no ids. */
  function BroaderTerm(query: string): (t: string)
    ensures StartsWith(t, "(" + Join(" OR ", Take(Words(query), 3)) + ")")
  {
    var head := "(" + Join(" OR ", Take(Words(query), 3)) + ")";
    assert (head + " AND (research OR study OR investigation)")[..|head|] == head;
    head + " AND (research OR study OR investigation)"
  }

  const BatchSize: nat := 10

  /** The ids of batch `i` (a slice of at most ten ids starting at `i`). */
  function Batch(pmids: seq<string>, i: nat): (b: seq<string>)
    requires i <= |pmids|
    ensures |b| <= BatchSize && i + |b| <= |pmids| && b == pmids[i..i + |b|]
    ensures i < |pmids| ==> |b| > 0
  {
    if i + BatchSize <= |pmids| then pmids[i..i + BatchSize] else pmids[i..]
  }

  /** The batch loop from batch offset `i` on, having collected `acc`:
      `None` when a fetch raises, else everything collected when the ids run
      out or `limit` papers are reached. */
  function FetchFrom(pmids: seq<string>, i: nat, limit: nat, acc: seq<Paper>,
                     fetch: seq<string> -> Option<seq<Paper>>): Option<seq<Paper>>
    requires i <= |pmids|
    decreases |pmids| - i
  {
    if i == |pmids| then Some(acc)
    else
      var b := Batch(pmids, i);
      match fetch(b) {
        case None => None
        case Some(got) =>
          var acc' := acc + got;
          if |acc'| >= limit || i + |b| == |pmids| then Some(acc')
          else FetchFrom(pmids, i + |b|, limit, acc', fetch)
      }
  }

  /** `search_pubmed` on its inputs: `esearch(term, retmax)` is the id search,
      `fetch(batch)` the parsed records of one batch. */
  function SearchPubmedSpec(query: string, limit: nat,
                            esearch: (string, nat) -> Option<seq<string>>,
                            fetch: seq<string> -> Option<seq<Paper>>): Option<seq<Paper>>
  {
    Found(PubmedTerm(query), BroaderTerm(query), limit, esearch, fetch)
  }

  /** The id search with `term`, retried with `broader` when it finds no
      ids, followed by the batch fetches; `None` when a call raises. */
  function Found(term: string, broader: string, limit: nat,
                 esearch: (string, nat) -> Option<seq<string>>,
                 fetch: seq<string> -> Option<seq<Paper>>): Option<seq<Paper>>
  {
    match esearch(term, limit + 5) {
      case None => None
      case Some(first) =>
        var ids := if first != [] then Some(first) else esearch(broader, limit + 5);
        match ids {
          case None => None
          case Some(pmids) =>
            if pmids == [] then Some([])
            else FetchFrom(pmids, 0, limit, [], fetch)
        }
    }
  }

  /** What `search_pubmed` returns: the mock when a call raises or nothing
      is found, else the first `limit` papers. */
  function PubmedResult(query: string, limit: nat, found: Option<seq<Paper>>): (ps: seq<Paper>)
    ensures |ps| <= limit
    ensures limit >= 1 ==> ps != []
    ensures found.Some? && found.value != [] ==> ps == Take(found.value, limit)
    ensures (found.None? || found.value == []) ==> ps == MockPubmed(query, limit)
  {
    match found {
      case Some(papers) => if papers != [] then Take(papers, limit) else MockPubmed(query, limit)
      case None => MockPubmed(query, limit)
    }
  }

  /** The batch loop of `search_pubmed`: `None` when a fetch raises. */
  method FetchBatches(pmids: seq<string>, limit: nat, fetch: seq<string> -> Option<seq<Paper>>)
    returns (collected: Option<seq<Paper>>)
    ensures collected == FetchFrom(pmids, 0, limit, [], fetch)
  {
    var papers: seq<Paper> := [];
    var i := 0;
    while i < |pmids|
      invariant 0 <= i <= |pmids|
      invariant FetchFrom(pmids, 0, limit, [], fetch) == FetchFrom(pmids, i, limit, papers, fetch)
      decreases |pmids| - i
    {
      var b := Batch(pmids, i);
      var got := fetch(b);
      if got.None? {
        return None;
      }
      papers := papers + got.value;
      i := i + |b|;
      if |papers| >= limit {
        return Some(papers);
      }
    }
    return Some(papers);
  }

  /** `search_pubmed`: prepare the term, search ids (once more with the
      broader term when none are found), then fetch batches of ten ids
      until `limit` papers are collected. */
  method SearchPubmed(query: string, limit: nat,
                      esearch: (string, nat) -> Option<seq<string>>,
                      fetch: seq<string> -> Option<seq<Paper>>) returns (papers: seq<Paper>)
    ensures papers == PubmedResult(query, limit, SearchPubmedSpec(query, limit, esearch, fetch))
    ensures |papers| <= limit
    ensures limit >= 1 ==> papers != []
  {
    var found := FindPapers(PubmedTerm(query), BroaderTerm(query), limit, esearch, fetch);
    papers := PubmedResult(query, limit, found);
  }

  /** The id searches and the batch loop of `search_pubmed`. */
  method FindPapers(term: string, broader: string, limit: nat,
                    esearch: (string, nat) -> Option<seq<string>>,
                    fetch: seq<string> -> Option<seq<Paper>>) returns (found: Option<seq<Paper>>)
    ensures found == Found(term, broader, limit, esearch, fetch)
  {
    var ids := esearch(term, limit + 5);
    if ids.Some? && ids.value == [] {
      ids := esearch(broader, limit + 5);
    }
    found := None;
    if ids.Some? {
      if ids.value == [] {
        found := Some([]);
      } else {
        found := FetchBatches(ids.value, limit, fetch);
      }
    }
  }

  /** When no fetch raises, the batch loop returns a result. */
  lemma {:induction false} FetchSucceeds(pmids: seq<string>, i: nat, limit: nat, acc: seq<Paper>,
                                         fetch: seq<string> -> Option<seq<Paper>>)
    requires i <= |pmids|
    requires forall j :: i <= j < |pmids| ==> fetch(Batch(pmids, j)).Some?
    ensures FetchFrom(pmids, i, limit, acc, fetch).Some?
    decreases |pmids| - i
  {
    if i < |pmids| {
      var b := Batch(pmids, i);
      var acc' := acc + fetch(b).value;
      if !(|acc'| >= limit || i + |b| == |pmids|) {
        FetchSucceeds(pmids, i + |b|, limit, acc', fetch);
      }
    }
  }

  /** The batch loop only appends: what was collected stays a prefix. */
  lemma {:induction false} FetchExtends(pmids: seq<string>, i: nat, limit: nat, acc: seq<Paper>,
                                        fetch: seq<string> -> Option<seq<Paper>>)
    requires i <= |pmids|
    ensures FetchFrom(pmids, i, limit, acc, fetch).Some? ==>
      acc <= FetchFrom(pmids, i, limit, acc, fetch).value
    decreases |pmids| - i
  {
    if i < |pmids| {
      var b := Batch(pmids, i);
      match fetch(b) {
        case None =>
        case Some(got) =>
          var acc' := acc + got;
          if !(|acc'| >= limit || i + |b| == |pmids|) {
            FetchExtends(pmids, i + |b|, limit, acc', fetch);
          }
      }
    }
  }

  /** Once `limit` papers are collected no further batch is fetched. */
  lemma FetchStopsAtLimit(pmids: seq<string>, i: nat, limit: nat, acc: seq<Paper>,
                          fetch: seq<string> -> Option<seq<Paper>>)
    requires i < |pmids|
    requires fetch(Batch(pmids, i)).Some? && |acc + fetch(Batch(pmids, i)).value| >= limit
    ensures FetchFrom(pmids, i, limit, acc, fetch) == Some(acc + fetch(Batch(pmids, i)).value)
  {
  }
}
