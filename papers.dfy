/** The paper records the literature service passes around, and the two
    post-processing steps every strategy-driven search ends with:
    deduplication by title and a stable sort by search priority. */
module Papers {
  import opened Wrappers
  import opened Text
  import opened Sorting

  /** A paper dict. Keys a provider does not set are "" (or 0, or None for
      the three search tags, which `search_with_strategy` adds). */
  datatype Paper = Paper(
    title: string,
    source: string,
    summary: string,
    authors: seq<string>,
    journal: string,
    year: string,
    url: string,
    relevance: real,
    pmid: string,
    citations: nat,
    searchType: Option<string>,
    searchPriority: Option<string>,
    searchQuery: Option<string>)

  /** A paper with the given provider fields and no search tags. */
  function NewPaper(title: string, source: string, summary: string, authors: seq<string>,
                    journal: string, year: string, url: string, relevance: real): Paper
  {
    Paper(title, source, summary, authors, journal, year, url, relevance, "", 0, None, None, None)
  }

  // ---------------------------------------------------------------------
  // Deduplication
  // ---------------------------------------------------------------------

  /** `paper.get("title", "").lower().strip()` */
  function NormalTitle(title: string): string {
    Strip(Lower(title))
  }

  /** A paper whose normalised title is non-empty. */
  predicate Titled(p: Paper) {
    NormalTitle(p.title) != ""
  }

  /** The first 50 characters of the normalised title. */
  function TitleKey(title: string): (key: string)
    ensures |key| <= 50
  {
    Take(NormalTitle(title), 50)
  }

  /** `title[:50] if title else f"untitled_{len(unique_papers)}"` */
  function DedupKey(title: string, kept: nat): (key: string)
    ensures NormalTitle(title) != "" ==> key == TitleKey(title) && key != ""
    ensures NormalTitle(title) == "" ==> key == "untitled_" + NatToString(kept)
  {
    var t := NormalTitle(title);
    if t == "" then "untitled_" + NatToString(kept) else Take(t, 50)
  }

  /** The loop state of `_deduplicate_papers`. */
  datatype DedupState = DedupState(unique: seq<Paper>, seen: set<string>)

  /** One loop iteration, for a key function of the title and the number of
      papers kept so far (the loop uses `DedupKey`; the general facts below
      hold for any key function). */
  function StepBy(key: (string, nat) -> string, st: DedupState, p: Paper): DedupState {
    var k := key(p.title, |st.unique|);
    if k in st.seen then st else DedupState(st.unique + [p], st.seen + {k})
  }

  /** The state after the loop has visited every paper of `ps`. */
  function ScanBy(key: (string, nat) -> string, ps: seq<Paper>): DedupState {
    if |ps| == 0 then DedupState([], {})
    else StepBy(key, ScanBy(key, ps[..|ps| - 1]), ps[|ps| - 1])
  }

  function Dedup(ps: seq<Paper>): seq<Paper> {
    ScanBy(DedupKey, ps).unique
  }

  lemma ScanBySnoc(key: (string, nat) -> string, ps: seq<Paper>, p: Paper)
    ensures ScanBy(key, ps + [p]) == StepBy(key, ScanBy(key, ps), p)
  {
    assert (ps + [p])[..|ps|] == ps;
  }

  lemma ScanByPrefix(key: (string, nat) -> string, ps: seq<Paper>, i: nat)
    requires i < |ps|
    ensures ScanBy(key, ps[..i + 1]) == StepBy(key, ScanBy(key, ps[..i]), ps[i])
  {
    assert ps[..i + 1][..i] == ps[..i];
  }

  /** `_deduplicate_papers`: one pass with a set of seen keys. */
  method DeduplicatePapers(papers: seq<Paper>) returns (unique: seq<Paper>)
    ensures unique == Dedup(papers)
  {
    unique := [];
    var seen: set<string> := {};
    var i := 0;
    while i < |papers|
      invariant 0 <= i <= |papers|
      invariant DedupState(unique, seen) == ScanBy(DedupKey, papers[..i])
    {
      ScanByPrefix(DedupKey, papers, i);
      var key := DedupKey(papers[i].title, |unique|);
      if key !in seen {
        seen := seen + {key};
        unique := unique + [papers[i]];
      }
      i := i + 1;
    }
    assert papers[..i] == papers;
  }

  /** The key the `j`-th kept paper was admitted under. */
  function KeyAt(key: (string, nat) -> string, u: seq<Paper>, j: nat): string
    requires j < |u|
  {
    key(u[j].title, j)
  }

  /** No two kept papers were admitted under the same key. */
  predicate DistinctKeys(key: (string, nat) -> string, u: seq<Paper>) {
    forall j, l :: 0 <= j < l < |u| ==> KeyAt(key, u, j) != KeyAt(key, u, l)
  }

  /** `seen_titles` holds exactly the admission keys of the kept papers. */
  ghost predicate Consistent(key: (string, nat) -> string, st: DedupState) {
    DistinctKeys(key, st.unique)
    && forall k :: k in st.seen <==> exists j :: 0 <= j < |st.unique| && KeyAt(key, st.unique, j) == k
  }

  lemma StepConsistent(key: (string, nat) -> string, st: DedupState, p: Paper)
    requires Consistent(key, st)
    ensures Consistent(key, StepBy(key, st, p))
  {
    var k0 := key(p.title, |st.unique|);
    if k0 !in st.seen {
      var a := st.unique;
      var u := a + [p];
      var seen := st.seen + {k0};
      assert KeyAt(key, u, |a|) == k0;
      forall j | 0 <= j < |a|
        ensures KeyAt(key, u, j) == KeyAt(key, a, j) && KeyAt(key, a, j) in st.seen
      {
        assert u[j] == a[j];
      }
      assert DistinctKeys(key, u) by {
        forall j, l | 0 <= j < l < |u|
          ensures KeyAt(key, u, j) != KeyAt(key, u, l)
        {
          if l < |a| {
            assert KeyAt(key, a, j) != KeyAt(key, a, l);
          }
        }
      }
      forall k
        ensures k in seen <==> exists j :: 0 <= j < |u| && KeyAt(key, u, j) == k
      {
        if k == k0 {
          assert KeyAt(key, u, |a|) == k;
        } else if k in st.seen {
          var j :| 0 <= j < |a| && KeyAt(key, a, j) == k;
          assert KeyAt(key, u, j) == k;
        }
        if exists j :: 0 <= j < |u| && KeyAt(key, u, j) == k {
          var j :| 0 <= j < |u| && KeyAt(key, u, j) == k;
          if j < |a| {
            assert k in st.seen;
          } else {
            assert k == k0;
          }
        }
      }
      assert StepBy(key, st, p) == DedupState(u, seen);
    }
  }

  /** The loop keeps `seen_titles` in step with the kept papers. */
  lemma {:induction false} ScanConsistent(key: (string, nat) -> string, ps: seq<Paper>)
    ensures Consistent(key, ScanBy(key, ps))
  {
    if |ps| > 0 {
      ScanConsistent(key, ps[..|ps| - 1]);
      StepConsistent(key, ScanBy(key, ps[..|ps| - 1]), ps[|ps| - 1]);
    }
  }

  /** `u` is `ps` with some entries left out, order kept. */
  predicate SubsequenceOf<T(==)>(u: seq<T>, ps: seq<T>)
    decreases |ps|
  {
    if |u| == 0 then true
    else if |ps| == 0 then false
    else ((u[|u| - 1] == ps[|ps| - 1] && SubsequenceOf(u[..|u| - 1], ps[..|ps| - 1]))
      || SubsequenceOf(u, ps[..|ps| - 1]))
  }

  lemma {:induction false} ScanSubsequence(key: (string, nat) -> string, ps: seq<Paper>)
    ensures SubsequenceOf(ScanBy(key, ps).unique, ps)
  {
    if |ps| > 0 {
      var prev := ps[..|ps| - 1];
      ScanSubsequence(key, prev);
      var u := ScanBy(key, prev).unique;
      if ScanBy(key, ps).unique != u {
        assert ScanBy(key, ps).unique == u + [ps[|ps| - 1]];
        assert (u + [ps[|ps| - 1]])[..|u|] == u;
      }
    }
  }

  /** Deduplication only drops papers; the survivors keep their order. */
  lemma DedupSubsequence(ps: seq<Paper>)
    ensures SubsequenceOf(Dedup(ps), ps)
  {
    ScanSubsequence(DedupKey, ps);
  }

  /** A title whose key does not depend on how many papers were kept. */
  ghost predicate FixedKey(key: (string, nat) -> string, t: string) {
    forall m: nat, n: nat :: key(t, m) == key(t, n)
  }

  lemma {:induction false} ScanCovers(key: (string, nat) -> string, ps: seq<Paper>)
    ensures forall i :: 0 <= i < |ps| && FixedKey(key, ps[i].title) ==> key(ps[i].title, 0) in ScanBy(key, ps).seen
  {
    if |ps| > 0 {
      var prev := ps[..|ps| - 1];
      ScanCovers(key, prev);
      assert forall i :: 0 <= i < |prev| ==> prev[i] == ps[i];
    }
  }

  /** A titled paper's key is its title key, whatever the count. */
  lemma TitledFixed(t: string)
    requires NormalTitle(t) != ""
    ensures FixedKey(DedupKey, t) && DedupKey(t, 0) == TitleKey(t)
  {
  }

  /** Every titled paper's key is taken by some kept paper: a dropped
      titled paper was shadowed by one kept before it. */
  lemma DedupCovers(ps: seq<Paper>, i: nat)
    requires i < |ps| && Titled(ps[i])
    ensures exists j :: 0 <= j < |Dedup(ps)| && KeyAt(DedupKey, Dedup(ps), j) == TitleKey(ps[i].title)
  {
    TitledFixed(ps[i].title);
    KeptKeyFor(DedupKey, ps, i);
    var u := ScanBy(DedupKey, ps).unique;
    var j :| 0 <= j < |u| && KeyAt(DedupKey, u, j) == DedupKey(ps[i].title, 0);
    assert KeyAt(DedupKey, Dedup(ps), j) == TitleKey(ps[i].title);
  }

  lemma KeptKeyFor(key: (string, nat) -> string, ps: seq<Paper>, i: nat)
    requires i < |ps| && FixedKey(key, ps[i].title)
    ensures exists j :: 0 <= j < |ScanBy(key, ps).unique| && KeyAt(key, ScanBy(key, ps).unique, j) == key(ps[i].title, 0)
  {
    ScanCovers(key, ps);
    ScanConsistent(key, ps);
  }

  /** Every seen key is the key of some visited paper. */
  lemma {:induction false} SeenKeysOrigin(key: (string, nat) -> string, ps: seq<Paper>)
    ensures forall k :: k in ScanBy(key, ps).seen ==>
      exists h, n: nat :: 0 <= h < |ps| && key(ps[h].title, n) == k
  {
    if |ps| > 0 {
      var prev := ps[..|ps| - 1];
      SeenKeysOrigin(key, prev);
      forall k | k in ScanBy(key, ps).seen
        ensures exists h, n: nat :: 0 <= h < |ps| && key(ps[h].title, n) == k
      {
        if k in ScanBy(key, prev).seen {
          var h, n: nat :| 0 <= h < |prev| && key(prev[h].title, n) == k;
          assert ps[h] == prev[h];
        } else {
          assert key(ps[|ps| - 1].title, |ScanBy(key, prev).unique|) == k;
        }
      }
    }
  }

  /** The kept list only grows as the loop advances. */
  lemma {:induction false} ScanPrefixGrows(key: (string, nat) -> string, ps: seq<Paper>, k: nat)
    requires k <= |ps|
    ensures forall p :: p in ScanBy(key, ps[..k]).unique ==> p in ScanBy(key, ps).unique
    decreases |ps| - k
  {
    if k < |ps| {
      ScanPrefixGrows(key, ps, k + 1);
      ScanByPrefix(key, ps, k);
    } else {
      assert ps[..k] == ps;
    }
  }

  /** A paper whose key no earlier paper can produce is kept. */
  lemma FirstKept(key: (string, nat) -> string, ps: seq<Paper>, i: nat)
    requires i < |ps| && FixedKey(key, ps[i].title)
    requires forall h, n: nat :: 0 <= h < i ==> key(ps[h].title, n) != key(ps[i].title, 0)
    ensures ps[i] in ScanBy(key, ps).unique
  {
    var pre := ps[..i];
    SeenKeysOrigin(key, pre);
    forall h, n: nat | 0 <= h < |pre|
      ensures key(pre[h].title, n) != key(ps[i].title, 0)
    {
      assert pre[h] == ps[h];
    }
    assert key(ps[i].title, |ScanBy(key, pre).unique|) == key(ps[i].title, 0);
    ScanByPrefix(key, ps, i);
    ScanPrefixGrows(key, ps, i + 1);
  }

  /** The first paper with a given title key is kept, unless its key has
      the shape of an `untitled_` key. */
  lemma FirstTitledKept(ps: seq<Paper>, i: nat)
    requires i < |ps| && Titled(ps[i]) && !StartsWith(TitleKey(ps[i].title), "untitled_")
    requires forall h :: 0 <= h < i && Titled(ps[h]) ==> TitleKey(ps[h].title) != TitleKey(ps[i].title)
    ensures ps[i] in Dedup(ps)
  {
    var t := ps[i].title;
    TitledFixed(t);
    forall h, n: nat | 0 <= h < i
      ensures DedupKey(ps[h].title, n) != DedupKey(t, 0)
    {
      if !Titled(ps[h]) {
        var k := DedupKey(ps[h].title, n);
        assert k[..9] == "untitled_";
      }
    }
    FirstKept(DedupKey, ps, i);
  }

  /** A list whose admission keys are distinct passes through unchanged. */
  lemma {:induction false} DistinctKeysPass(key: (string, nat) -> string, u: seq<Paper>)
    requires DistinctKeys(key, u)
    ensures ScanBy(key, u).unique == u
    ensures forall k :: k in ScanBy(key, u).seen <==> exists j :: 0 <= j < |u| && KeyAt(key, u, j) == k
  {
    if |u| > 0 {
      var prev := u[..|u| - 1];
      forall j | 0 <= j < |prev|
        ensures KeyAt(key, prev, j) == KeyAt(key, u, j)
      {
      }
      DistinctKeysPass(key, prev);
      var k0 := key(u[|u| - 1].title, |prev|);
      assert k0 == KeyAt(key, u, |u| - 1);
      assert k0 !in ScanBy(key, prev).seen;
      assert prev + [u[|u| - 1]] == u;
      forall k
        ensures k in ScanBy(key, u).seen <==> exists j :: 0 <= j < |u| && KeyAt(key, u, j) == k
      {
        if k in ScanBy(key, u).seen && k != k0 {
          var j :| 0 <= j < |prev| && KeyAt(key, prev, j) == k;
          assert KeyAt(key, u, j) == k;
        }
        if exists j :: 0 <= j < |u| && KeyAt(key, u, j) == k {
          var j :| 0 <= j < |u| && KeyAt(key, u, j) == k;
          if j < |prev| {
            assert KeyAt(key, prev, j) == k;
          }
        }
      }
    }
  }

  /** Deduplicating an already deduplicated list changes nothing. */
  lemma DedupIdempotent(ps: seq<Paper>)
    ensures Dedup(Dedup(ps)) == Dedup(ps)
  {
    ScanConsistent(DedupKey, ps);
    DistinctKeysPass(DedupKey, Dedup(ps));
  }

  /** The first paper is always kept. */
  lemma DedupKeepsFirst(ps: seq<Paper>)
    requires |ps| > 0
    ensures ps[0] in Dedup(ps)
  {
    ScanByPrefix(DedupKey, ps, 0);
    ScanPrefixGrows(DedupKey, ps, 1);
  }

  /** Every member of a subsequence is a member of the whole. */
  lemma {:induction false} SubsequenceMembers<T>(u: seq<T>, ps: seq<T>)
    requires SubsequenceOf(u, ps)
    ensures forall x :: x in u ==> x in ps
    decreases |ps|
  {
    if |u| > 0 {
      var pre := ps[..|ps| - 1];
      if u[|u| - 1] == ps[|ps| - 1] && SubsequenceOf(u[..|u| - 1], pre) {
        SubsequenceMembers(u[..|u| - 1], pre);
        assert u == u[..|u| - 1] + [u[|u| - 1]];
      } else {
        SubsequenceMembers(u, pre);
      }
      assert ps == pre + [ps[|ps| - 1]];
    }
  }

  /** No two titled papers of `u` share a title key. */
  predicate DistinctTitles(u: seq<Paper>) {
    forall j, l :: 0 <= j < |u| && 0 <= l < |u| && j != l && Titled(u[j]) && Titled(u[l]) ==>
      TitleKey(u[j].title) != TitleKey(u[l].title)
  }

  /** Deduplication leaves at most one titled paper per title key. */
  lemma DedupDistinctTitles(ps: seq<Paper>)
    ensures DistinctTitles(Dedup(ps))
  {
    var u := Dedup(ps);
    ScanConsistent(DedupKey, ps);
    forall j, l | 0 <= j < |u| && 0 <= l < |u| && j != l && Titled(u[j]) && Titled(u[l])
      ensures TitleKey(u[j].title) != TitleKey(u[l].title)
    {
      assert KeyAt(DedupKey, u, j) != KeyAt(DedupKey, u, l);
    }
  }

  // ---------------------------------------------------------------------
  // Prioritisation
  // ---------------------------------------------------------------------

  /** `priority_scores.get(priority, 2)` in tenths, "medium" when untagged. */
  function BaseScore(priority: Option<string>): (score: int)
    ensures score == 30 || score == 20 || score == 10
    ensures score == 30 <==> priority == Some("high")
    ensures score == 10 <==> priority == Some("low")
  {
    match priority {
      case None => 20
      case Some(pr) => if pr == "high" then 30 else if pr == "medium" then 20 else if pr == "low" then 10 else 20
    }
  }

  /** `priority_score` in tenths: base, +1 for "primary" or else +0.5 for
      "exact", +0.2 for "pubmed". */
  function PriorityScore(p: Paper): (score: int)
    ensures 10 <= score <= 42
  {
    var t := p.searchType.GetOr("");
    BaseScore(p.searchPriority)
      + (if Contains(t, "primary") then 10 else if Contains(t, "exact") then 5 else 0)
      + (if Contains(t, "pubmed") then 2 else 0)
  }

  function PriorityKeys(ps: seq<Paper>): (keys: seq<real>)
    ensures |keys| == |ps| && forall i :: 0 <= i < |ps| ==> keys[i] == PriorityScore(ps[i]) as real
  {
    seq(|ps|, i requires 0 <= i < |ps| => PriorityScore(ps[i]) as real)
  }

  /** `sorted(papers, key=priority_score, reverse=True)` */
  function Prioritize(ps: seq<Paper>): (r: seq<Paper>)
    ensures |r| == |ps|
    ensures forall k, l :: 0 <= k < l < |r| ==> PriorityScore(r[k]) >= PriorityScore(r[l])
  {
    var keys := PriorityKeys(ps);
    var o := OrderDesc(keys);
    assert forall k, l :: 0 <= k < l < |o| ==> Before(keys, o[k], o[l]);
    Permute(ps, o)
  }

  /** Prioritisation reorders and neither adds nor drops a paper. */
  lemma PrioritizePermutes(ps: seq<Paper>)
    ensures multiset(Prioritize(ps)) == multiset(ps)
  {
    OrderDescMultiset(PriorityKeys(ps), ps);
  }

  /** Papers of equal score keep their input order: position `k` of the
      output comes from an earlier input position than position `l`. */
  lemma PrioritizeStable(ps: seq<Paper>, k: nat, l: nat)
    requires k < l < |ps|
    ensures var o := OrderDesc(PriorityKeys(ps));
      Prioritize(ps)[k] == ps[o[k]] && Prioritize(ps)[l] == ps[o[l]]
      && (PriorityScore(ps[o[k]]) == PriorityScore(ps[o[l]]) ==> o[k] < o[l])
  {
    var o := OrderDesc(PriorityKeys(ps));
    assert Before(PriorityKeys(ps), o[k], o[l]);
  }

  /** Reordering keeps distinct title keys distinct. */
  lemma PrioritizeKeepsDistinct(ps: seq<Paper>)
    requires DistinctTitles(ps)
    ensures DistinctTitles(Prioritize(ps))
  {
    var keys := PriorityKeys(ps);
    var o := OrderDesc(keys);
    OrderedDistinct(keys, o);
    var r := Prioritize(ps);
    assert forall k :: 0 <= k < |r| ==> r[k] == ps[o[k]];
  }

  /** A high-priority primary search result outranks every untagged paper. */
  lemma HighPrimaryFirst(p: Paper, q: Paper)
    requires p.searchPriority == Some("high") && p.searchType.Some? && Contains(p.searchType.value, "primary")
    requires q.searchPriority == None && q.searchType == None
    ensures PriorityScore(p) > PriorityScore(q)
  {
    assert !Contains("", "pubmed") && !Contains("", "primary") && !Contains("", "exact");
  }
}
