// `AgentOrchestrator`: the research loop that runs generation, reflection
// and ranking for a number of iterations, numbers the hypotheses, keeps
// their scores, reviews and ranks up to date and reports progress events;
// and the registry written by `create_research_session`.
//
// The three agents are oracles (`None` stands for a call that raised); the
// websocket manager is reduced to whether it is present and the trace of
// events it is asked to broadcast.

module Orchestrator {
  import opened Wrappers
  import opened Text
  import opened Papers
  import opened Sorting
  import opened GenerationAgent

  /** A hypothesis record of the session. */
  datatype Hyp = Hyp(id: string, content: string, iteration: nat, sources: seq<Paper>,
                     score: real, review: string, rank: Option<nat>)

  /** The input of one `generation_agent.execute` call (the timestamp is
      left out). */
  datatype GenerationRequest = GenerationRequest(goal: string, iteration: nat, index: nat, total: nat,
                                                 existing: seq<Hyp>)

  /** What the orchestrator reads from a reflection result. */
  datatype Reflection = Reflection(review: string, score: real)

  /** One entry of `ranking_input`. */
  datatype RankInput = RankInput(id: string, content: string, score: real)

  datatype Agents = Agents(
    generate: GenerationRequest -> Option<Generation>,
    reflect: (string, string, nat) -> Option<Reflection>,
    rank: (seq<RankInput>, string, nat) -> Option<seq<string>>)

  // ---------------------------------------------------------------------
  // Hypothesis ids
  // ---------------------------------------------------------------------

  /** `f"hyp_{session_id}_{iteration}"` */
  function IdPrefix(sid: string, iteration: nat): string {
    "hyp_" + sid + "_" + NatToString(iteration)
  }

  /** `f"hyp_{session_id}_{iteration}_{serial}"` */
  function HypId(sid: string, iteration: nat, serial: nat): string {
    IdPrefix(sid, iteration) + "_" + NatToString(serial)
  }

  /** The number of digits at the end of `x`. */
  function TrailingDigits(x: string): (k: nat)
    ensures k <= |x|
  {
    if |x| == 0 || !IsDigit(x[|x| - 1]) then 0 else 1 + TrailingDigits(x[..|x| - 1])
  }

  lemma {:induction false} TrailingDigitsAfter(a: string, d: string)
    requires forall k :: 0 <= k < |d| ==> IsDigit(d[k])
    ensures TrailingDigits(a + "_" + d) == |d|
  {
    if d != [] {
      var m := d[..|d| - 1];
      assert (a + "_" + d)[..|a + "_" + d| - 1] == a + "_" + m;
      TrailingDigitsAfter(a, m);
    }
  }

  /** The serial number can be read back from an id. */
  lemma HypIdSerial(s1: string, i1: nat, n1: nat, s2: string, i2: nat, n2: nat)
    requires HypId(s1, i1, n1) == HypId(s2, i2, n2)
    ensures n1 == n2
  {
    var d1, d2 := NatToString(n1), NatToString(n2);
    var x := HypId(s1, i1, n1);
    TrailingDigitsAfter(IdPrefix(s1, i1), d1);
    TrailingDigitsAfter(IdPrefix(s2, i2), d2);
    assert d1 == x[|x| - |d1|..];
    assert d2 == x[|x| - |d2|..];
    NatToStringInjective(n1, n2);
  }

  /** `id` is the id of a hypothesis numbered below `m`. */
  ghost predicate IdBelow(sid: string, id: string, m: nat) {
    exists it: nat, n: nat :: n < m && id == HypId(sid, it, n)
  }

  /** Ids are pairwise distinct and every one is numbered below the length
      of the list. */
  ghost predicate WellNumbered(sid: string, hs: seq<Hyp>) {
    (forall j, l :: 0 <= j < l < |hs| ==> hs[j].id != hs[l].id)
    && forall j :: 0 <= j < |hs| ==> IdBelow(sid, hs[j].id, |hs|)
  }

  /** Lists with the same ids at the same positions are numbered alike. */
  lemma SameIdsNumbered(sid: string, hs: seq<Hyp>, gs: seq<Hyp>)
    requires WellNumbered(sid, hs)
    requires |gs| == |hs| && forall j :: 0 <= j < |hs| ==> gs[j].id == hs[j].id
    ensures WellNumbered(sid, gs)
  {
    forall j | 0 <= j < |gs|
      ensures IdBelow(sid, gs[j].id, |gs|)
    {
      assert IdBelow(sid, hs[j].id, |hs|);
    }
  }

  // ---------------------------------------------------------------------
  // Generation phase
  // ---------------------------------------------------------------------

  /** `new_hypothesis`: score 0.0, empty review, no rank. */
  function NewHyp(sid: string, iteration: nat, serial: nat, g: Generation): Hyp {
    Hyp(HypId(sid, iteration, serial), g.hypothesis, iteration, g.literatureUsed, 0.0, "", None)
  }

  /** The first `k` hypotheses of an iteration, or `None` when one of their
      generation calls raised. */
  function Generated(sid: string, goal: string, iteration: nat, per: nat, prior: seq<Hyp>, k: nat,
                     generate: GenerationRequest -> Option<Generation>): Option<seq<Hyp>>
    decreases k
  {
    if k == 0 then Some([])
    else match Generated(sid, goal, iteration, per, prior, k - 1, generate)
      case None => None
      case Some(hs) =>
        match generate(GenerationRequest(goal, iteration, k - 1, per, prior + hs))
        case None => None
        case Some(g) => Some(hs + [NewHyp(sid, iteration, |prior| + k - 1, g)])
  }

  /** The `j`-th generation call gets index `j`, the iteration size and all
      earlier hypotheses; its result becomes record `j`, numbered
      `len(hypotheses) + j`. */
  lemma {:induction false} GeneratedShape(sid: string, goal: string, iteration: nat, per: nat, prior: seq<Hyp>,
                                          k: nat, generate: GenerationRequest -> Option<Generation>)
    requires Generated(sid, goal, iteration, per, prior, k, generate).Some?
    ensures var hs := Generated(sid, goal, iteration, per, prior, k, generate).value;
      |hs| == k
      && forall j :: 0 <= j < k ==>
        var g := generate(GenerationRequest(goal, iteration, j, per, prior + hs[..j]));
        g.Some? && hs[j] == NewHyp(sid, iteration, |prior| + j, g.value)
  {
    if k > 0 {
      GeneratedShape(sid, goal, iteration, per, prior, k - 1, generate);
      var pre := Generated(sid, goal, iteration, per, prior, k - 1, generate).value;
      var hs := Generated(sid, goal, iteration, per, prior, k, generate).value;
      assert hs[..k - 1] == pre;
      forall j | 0 <= j < k - 1
        ensures hs[..j] == pre[..j]
      {
      }
    }
  }

  /** Once a generation call has raised, the phase has raised. */
  lemma {:induction false} GeneratedStaysFailed(sid: string, goal: string, iteration: nat, per: nat, prior: seq<Hyp>,
                                                k: nat, m: nat, generate: GenerationRequest -> Option<Generation>)
    requires k <= m && Generated(sid, goal, iteration, per, prior, k, generate).None?
    ensures Generated(sid, goal, iteration, per, prior, m, generate).None?
    decreases m - k
  {
    if k < m {
      GeneratedStaysFailed(sid, goal, iteration, per, prior, k + 1, m, generate);
    }
  }

  /** The new records extend a numbered list to a numbered list. */
  lemma GeneratedNumbered(sid: string, goal: string, iteration: nat, per: nat, prior: seq<Hyp>,
                          generate: GenerationRequest -> Option<Generation>)
    requires WellNumbered(sid, prior)
    requires Generated(sid, goal, iteration, per, prior, per, generate).Some?
    ensures var hs := Generated(sid, goal, iteration, per, prior, per, generate).value;
      |hs| == per && WellNumbered(sid, prior + hs)
  {
    var hs := Generated(sid, goal, iteration, per, prior, per, generate).value;
    GeneratedShape(sid, goal, iteration, per, prior, per, generate);
    var all := prior + hs;
    var m := |all|;
    assert forall j :: 0 <= j < per ==> hs[j].id == HypId(sid, iteration, |prior| + j);
    forall j | 0 <= j < m
      ensures IdBelow(sid, all[j].id, m)
    {
      if j < |prior| {
        assert IdBelow(sid, prior[j].id, |prior|);
      } else {
        assert all[j].id == HypId(sid, iteration, |prior| + (j - |prior|));
      }
    }
    forall j, l | 0 <= j < l < m
      ensures all[j].id != all[l].id
    {
      if l >= |prior| {
        var nl := |prior| + (l - |prior|);
        assert all[l].id == HypId(sid, iteration, nl);
        if j < |prior| {
          assert IdBelow(sid, prior[j].id, |prior|);
          var it: nat, n: nat :| n < |prior| && prior[j].id == HypId(sid, it, n);
          if all[j].id == all[l].id {
            HypIdSerial(sid, it, n, sid, iteration, nl);
          }
        } else {
          assert all[j].id == HypId(sid, iteration, |prior| + (j - |prior|));
          if all[j].id == all[l].id {
            HypIdSerial(sid, iteration, |prior| + (j - |prior|), sid, iteration, nl);
          }
        }
      }
    }
  }

  /** The generation loop of one iteration. */
  method GeneratePhase(sid: string, goal: string, iteration: nat, per: nat, prior: seq<Hyp>,
                       generate: GenerationRequest -> Option<Generation>) returns (result: Option<seq<Hyp>>)
    ensures result == Generated(sid, goal, iteration, per, prior, per, generate)
  {
    var current: seq<Hyp> := [];
    var idx := 0;
    while idx < per
      invariant 0 <= idx <= per
      invariant Generated(sid, goal, iteration, per, prior, idx, generate) == Some(current)
    {
      var g := generate(GenerationRequest(goal, iteration, idx, per, prior + current));
      if g.None? {
        GeneratedStaysFailed(sid, goal, iteration, per, prior, idx + 1, per, generate);
        return None;
      }
      current := current + [NewHyp(sid, iteration, |prior| + idx, g.value)];
      idx := idx + 1;
    }
    return Some(current);
  }

  // ---------------------------------------------------------------------
  // Reflection phase
  // ---------------------------------------------------------------------

  /** The records with review and score from their reflection calls, or
      `None` when one of the calls raised. */
  function Reviewed(hs: seq<Hyp>, goal: string, iteration: nat,
                    reflect: (string, string, nat) -> Option<Reflection>): (r: Option<seq<Hyp>>)
    ensures r.Some? <==> forall j :: 0 <= j < |hs| ==> reflect(hs[j].content, goal, iteration).Some?
    ensures r.Some? ==> |r.value| == |hs| && forall j :: 0 <= j < |hs| ==>
      var f := reflect(hs[j].content, goal, iteration).value;
      r.value[j] == hs[j].(review := f.review, score := f.score)
  {
    if forall j | 0 <= j < |hs| :: reflect(hs[j].content, goal, iteration).Some? then
      Some(seq(|hs|, j requires 0 <= j < |hs| =>
        var f := reflect(hs[j].content, goal, iteration).value;
        hs[j].(review := f.review, score := f.score)))
    else None
  }

  /** The reflection loop: one call per record, in order. */
  method ReflectPhase(hs: seq<Hyp>, goal: string, iteration: nat,
                      reflect: (string, string, nat) -> Option<Reflection>) returns (result: Option<seq<Hyp>>)
    ensures result == Reviewed(hs, goal, iteration, reflect)
  {
    var current := hs;
    var i := 0;
    while i < |hs|
      invariant 0 <= i <= |hs| && |current| == |hs|
      invariant forall j :: 0 <= j < i ==> reflect(hs[j].content, goal, iteration).Some?
      invariant forall j :: 0 <= j < |hs| ==> current[j] == if j < i then
          hs[j].(review := reflect(hs[j].content, goal, iteration).value.review,
                 score := reflect(hs[j].content, goal, iteration).value.score)
        else hs[j]
    {
      var f := reflect(current[i].content, goal, iteration);
      if f.None? {
        return None;
      }
      current := current[i := current[i].(review := f.value.review, score := f.value.score)];
      i := i + 1;
    }
    var expected := Reviewed(hs, goal, iteration, reflect);
    assert expected.Some? && |expected.value| == |current|;
    assert forall j :: 0 <= j < |hs| ==> current[j] == expected.value[j];
    assert current == expected.value;
    return Some(current);
  }

  // ---------------------------------------------------------------------
  // Ranking phase
  // ---------------------------------------------------------------------

  /** `ranking_input`: id, content and score of every record. */
  function RankingInput(hs: seq<Hyp>): (r: seq<RankInput>)
    ensures |r| == |hs| && forall j :: 0 <= j < |hs| ==>
      r[j] == RankInput(hs[j].id, hs[j].content, hs[j].score)
  {
    seq(|hs|, j requires 0 <= j < |hs| => RankInput(hs[j].id, hs[j].content, hs[j].score))
  }

  /** The position of the first record with `id`, searching from `from`. */
  function FirstWithId(hs: seq<Hyp>, id: string, from: nat): (r: Option<nat>)
    requires from <= |hs|
    ensures r.Some? ==> (from <= r.value < |hs| && hs[r.value].id == id
                         && forall k :: from <= k < r.value ==> hs[k].id != id)
    ensures r.None? ==> forall k :: from <= k < |hs| ==> hs[k].id != id
    decreases |hs| - from
  {
    if from == |hs| then None
    else if hs[from].id == id then Some(from)
    else FirstWithId(hs, id, from + 1)
  }

  /** The inner loop: the first record with `id` gets rank `r`. */
  function SetRank(hs: seq<Hyp>, id: string, r: nat): seq<Hyp> {
    match FirstWithId(hs, id, 0)
    case None => hs
    case Some(k) => hs[k := hs[k].(rank := Some(r))]
  }

  /** The outer loop over the first `|ids|` ranked ids: the entry at
      position `p` carries rank `p + 1`. */
  function Assigned(hs: seq<Hyp>, ids: seq<string>): seq<Hyp>
    decreases |ids|
  {
    if ids == [] then hs
    else SetRank(Assigned(hs, ids[..|ids| - 1]), ids[|ids| - 1], |ids|)
  }

  /** The rank a record with `id` ends up with: one more than the last
      position of `id` among the ranked ids, or `prev` if it is not there. */
  function RankOf(ids: seq<string>, id: string, prev: Option<nat>): Option<nat>
    decreases |ids|
  {
    if ids == [] then prev
    else if ids[|ids| - 1] == id then Some(|ids|)
    else RankOf(ids[..|ids| - 1], id, prev)
  }

  /** Ranks are assigned record by record: with distinct ids, every record
      keeps all its fields but its rank, which becomes `RankOf` its id. */
  lemma {:induction false} AssignedRanks(hs: seq<Hyp>, ids: seq<string>)
    requires forall j, l :: 0 <= j < l < |hs| ==> hs[j].id != hs[l].id
    ensures var r := Assigned(hs, ids);
      |r| == |hs| && forall j :: 0 <= j < |hs| ==> r[j] == hs[j].(rank := RankOf(ids, hs[j].id, hs[j].rank))
    decreases |ids|
  {
    if ids != [] {
      var pre := ids[..|ids| - 1];
      AssignedRanks(hs, pre);
      var a := Assigned(hs, pre);
      var id := ids[|ids| - 1];
      match FirstWithId(a, id, 0)
      case None =>
      case Some(k) =>
        forall j | 0 <= j < |hs|
          ensures Assigned(hs, ids)[j] == hs[j].(rank := RankOf(ids, hs[j].id, hs[j].rank))
        {
          if j != k {
            assert a[j].id == hs[j].id;
            assert hs[j].id != id;
          }
        }
    }
  }

  /** When the ranked ids are distinct, the id at position `p` gets rank
      `p + 1`; an id never ranked keeps the old rank. */
  lemma {:induction false} RankOfDistinct(ids: seq<string>, p: nat, prev: Option<nat>)
    requires p < |ids| && forall a, b :: 0 <= a < b < |ids| ==> ids[a] != ids[b]
    ensures RankOf(ids, ids[p], prev) == Some(p + 1)
    decreases |ids|
  {
    if p < |ids| - 1 {
      RankOfDistinct(ids[..|ids| - 1], p, prev);
    }
  }

  lemma {:induction false} RankOfAbsent(ids: seq<string>, id: string, prev: Option<nat>)
    requires id !in ids
    ensures RankOf(ids, id, prev) == prev
    decreases |ids|
  {
    if ids != [] {
      RankOfAbsent(ids[..|ids| - 1], id, prev);
    }
  }

  /** The inner `for hyp in hypotheses ... break` loop. */
  method RankFirst(hs: seq<Hyp>, id: string, r: nat) returns (result: seq<Hyp>)
    ensures result == SetRank(hs, id, r)
  {
    result := hs;
    var i := 0;
    while i < |hs|
      invariant 0 <= i <= |hs|
      invariant FirstWithId(hs, id, 0) == FirstWithId(hs, id, i)
    {
      if hs[i].id == id {
        result := hs[i := hs[i].(rank := Some(r))];
        return;
      }
      i := i + 1;
    }
  }

  /** The rank-assignment loop over `ranking_result["ranked_hypotheses"]`. */
  method AssignRanks(hs: seq<Hyp>, ids: seq<string>) returns (result: seq<Hyp>)
    ensures result == Assigned(hs, ids)
  {
    result := hs;
    var p := 0;
    while p < |ids|
      invariant 0 <= p <= |ids|
      invariant result == Assigned(hs, ids[..p])
    {
      assert ids[..p + 1][..p] == ids[..p];
      result := RankFirst(result, ids[p], p + 1);
      p := p + 1;
    }
    assert ids[..p] == ids;
  }

  /** The sort key of `sorted(..., key=lambda x: x.get("rank", 999))`,
      negated for the descending order of `Sorting`. */
  function RankKeys(hs: seq<Hyp>): (keys: seq<real>)
    requires forall j :: 0 <= j < |hs| ==> hs[j].rank.Some?
    ensures |keys| == |hs| && forall j :: 0 <= j < |hs| ==> keys[j] == -(hs[j].rank.value as real)
  {
    seq(|hs|, j requires 0 <= j < |hs| => -(hs[j].rank.value as real))
  }

  /** Every record has a rank. */
  predicate AllRanked(hs: seq<Hyp>)
    ensures AllRanked(hs) ==> forall j :: 0 <= j < |hs| ==> hs[j].rank.Some?
  {
    hs == [] || (hs[0].rank.Some? && AllRanked(hs[1..]))
  }

  lemma {:induction false} AllRankedWhenRanked(hs: seq<Hyp>)
    requires forall j :: 0 <= j < |hs| ==> hs[j].rank.Some?
    ensures AllRanked(hs)
  {
    if hs != [] {
      AllRankedWhenRanked(hs[1..]);
    }
  }

  /** Sorting at least two records by rank: `None` when a record has no rank
      (comparing `None` with a number raises `TypeError`), otherwise the
      stable ascending order by rank. */
  function SortedByRank(hs: seq<Hyp>): Option<seq<Hyp>> {
    if !AllRanked(hs) then None
    else Some(Permute(hs, OrderDesc(RankKeys(hs))))
  }

  /** The sort fails exactly when some record has no rank. */
  lemma SortedByRankFails(hs: seq<Hyp>)
    ensures SortedByRank(hs).None? <==> exists j :: 0 <= j < |hs| && hs[j].rank.None?
  {
    if forall j :: 0 <= j < |hs| ==> hs[j].rank.Some? {
      AllRankedWhenRanked(hs);
    }
  }

  /** The sort is a permutation, ascending by rank, and equal ranks keep
      their order. */
  lemma SortedByRankOrder(hs: seq<Hyp>)
    requires SortedByRank(hs).Some?
    ensures var r := SortedByRank(hs).value;
      multiset(r) == multiset(hs)
      && forall p, q :: 0 <= p < q < |r| ==> r[p].rank.value <= r[q].rank.value
  {
    var keys := RankKeys(hs);
    OrderDescMultiset(keys, hs);
    var o := OrderDesc(keys);
    forall p, q | 0 <= p < q < |o|
      ensures hs[o[p]].rank.value <= hs[o[q]].rank.value
    {
      assert Before(keys, o[p], o[q]);
    }
  }

  /** A strictly increasing list of `n` numbers in `1..n` is `1, 2, ..., n`. */
  lemma {:induction false} IncreasingFill(s: seq<nat>, n: nat)
    requires |s| == n
    requires forall k :: 0 <= k < n ==> 1 <= s[k] <= n
    requires forall k :: 0 <= k < n - 1 ==> s[k] < s[k + 1]
    ensures forall k :: 0 <= k < n ==> s[k] == k + 1
  {
    forall k | 0 <= k < n
      ensures s[k] == k + 1
    {
      IncreasingLower(s, k);
      IncreasingUpper(s, n, k);
    }
  }

  lemma {:induction false} IncreasingLower(s: seq<nat>, k: nat)
    requires k < |s| && 1 <= s[0]
    requires forall m :: 0 <= m < |s| - 1 ==> s[m] < s[m + 1]
    ensures k + 1 <= s[k]
  {
    if k > 0 {
      IncreasingLower(s, k - 1);
    }
  }

  lemma {:induction false} IncreasingUpper(s: seq<nat>, n: nat, k: nat)
    requires |s| == n && k < n && s[n - 1] <= n
    requires forall m :: 0 <= m < n - 1 ==> s[m] < s[m + 1]
    ensures s[k] <= k + 1
    decreases n - k
  {
    if k < n - 1 {
      IncreasingUpper(s, n, k + 1);
    }
  }

  /** The position of `id` in `ids`. */
  function IndexOf(ids: seq<string>, id: string): (p: nat)
    requires id in ids
    ensures p < |ids| && ids[p] == id
  {
    if ids[0] == id then 0 else 1 + IndexOf(ids[1..], id)
  }

  /** With a permutation of the ids, every record's rank is one more than
      the position of its id. */
  lemma RanksByPosition(hs: seq<Hyp>, ids: seq<string>)
    requires forall j, l :: 0 <= j < l < |hs| ==> hs[j].id != hs[l].id
    requires forall a, b :: 0 <= a < b < |ids| ==> ids[a] != ids[b]
    requires forall j :: 0 <= j < |hs| ==> hs[j].id in ids
    ensures var a := Assigned(hs, ids);
      |a| == |hs| && forall j :: 0 <= j < |hs| ==>
        a[j].id == hs[j].id && a[j].id in ids && a[j].rank == Some(IndexOf(ids, a[j].id) + 1)
  {
    AssignedRanks(hs, ids);
    forall j | 0 <= j < |hs|
      ensures RankOf(ids, hs[j].id, hs[j].rank) == Some(IndexOf(ids, hs[j].id) + 1)
    {
      RankOfDistinct(ids, IndexOf(ids, hs[j].id), hs[j].rank);
    }
  }

  /** Records with distinct ranks sort into strictly increasing rank. */
  lemma SortedRanksIncrease(a: seq<Hyp>)
    requires forall j :: 0 <= j < |a| ==> a[j].rank.Some?
    requires forall j, l :: 0 <= j < l < |a| ==> a[j].rank != a[l].rank
    ensures SortedByRank(a).Some?
    ensures var r := SortedByRank(a).value;
      |r| == |a| && (forall k :: 0 <= k < |r| ==> r[k] in a)
      && forall k :: 0 <= k < |r| - 1 ==> r[k].rank.value < r[k + 1].rank.value
  {
    AllRankedWhenRanked(a);
    var keys := RankKeys(a);
    var o := OrderDesc(keys);
    var r := Permute(a, o);
    assert SortedByRank(a) == Some(r);
    forall k | 0 <= k < |r| - 1
      ensures r[k].rank.value < r[k + 1].rank.value
    {
      assert Before(keys, o[k], o[k + 1]);
    }
    forall k | 0 <= k < |r|
      ensures r[k] in a
    {
      assert r[k] == a[o[k]];
    }
  }

  /** Records with the distinct ranks `1..n` sort into rank order. */
  lemma SortedByDistinctRanks(a: seq<Hyp>)
    requires forall j :: 0 <= j < |a| ==> a[j].rank.Some? && 1 <= a[j].rank.value <= |a|
    requires forall j, l :: 0 <= j < l < |a| ==> a[j].rank != a[l].rank
    ensures SortedByRank(a).Some?
    ensures var r := SortedByRank(a).value;
      |r| == |a| && forall k :: 0 <= k < |r| ==> r[k] in a && r[k].rank == Some(k + 1)
  {
    SortedRanksIncrease(a);
    var r := SortedByRank(a).value;
    var n := |a|;
    var ranks := seq(n, k requires 0 <= k < n => r[k].rank.value);
    forall k | 0 <= k < n
      ensures 1 <= ranks[k] <= n
    {
      var j :| 0 <= j < n && a[j] == r[k];
    }
    IncreasingFill(ranks, n);
    forall k | 0 <= k < n
      ensures r[k].rank == Some(k + 1)
    {
      assert ranks[k] == k + 1;
    }
  }

  /** When the ranking agent returns a permutation of the ids, the records
      come out in the agent's order with ranks `1, 2, ..., n`. */
  lemma RankedInAgentOrder(hs: seq<Hyp>, ids: seq<string>)
    requires forall j, l :: 0 <= j < l < |hs| ==> hs[j].id != hs[l].id
    requires forall a, b :: 0 <= a < b < |ids| ==> ids[a] != ids[b]
    requires |ids| == |hs| && forall j :: 0 <= j < |hs| ==> hs[j].id in ids
    ensures SortedByRank(Assigned(hs, ids)).Some?
    ensures var r := SortedByRank(Assigned(hs, ids)).value;
      |r| == |ids| && forall k :: 0 <= k < |r| ==> r[k].id == ids[k] && r[k].rank == Some(k + 1)
  {
    RanksByPosition(hs, ids);
    PositionRankedInOrder(Assigned(hs, ids), ids);
  }

  /** Records with distinct ids, each ranked one more than the position of
      its id among distinct `ids`, sort into the order of `ids`. */
  lemma PositionRankedInOrder(a: seq<Hyp>, ids: seq<string>)
    requires forall j, l :: 0 <= j < l < |a| ==> a[j].id != a[l].id
    requires forall x, y :: 0 <= x < y < |ids| ==> ids[x] != ids[y]
    requires |ids| == |a|
    requires forall j :: 0 <= j < |a| ==> a[j].id in ids && a[j].rank == Some(IndexOf(ids, a[j].id) + 1)
    ensures SortedByRank(a).Some?
    ensures var r := SortedByRank(a).value;
      |r| == |ids| && forall k :: 0 <= k < |r| ==> r[k].id == ids[k] && r[k].rank == Some(k + 1)
  {
    forall j, l | 0 <= j < l < |a|
      ensures a[j].rank != a[l].rank
    {
      assert ids[IndexOf(ids, a[j].id)] == a[j].id != a[l].id == ids[IndexOf(ids, a[l].id)];
    }
    SortedByDistinctRanks(a);
    var r := SortedByRank(a).value;
    forall k | 0 <= k < |r|
      ensures r[k].id == ids[k]
    {
      assert r[k] in a;
      var j :| 0 <= j < |a| && a[j] == r[k];
      assert IndexOf(ids, a[j].id) == k;
    }
  }

  /** The ranking phase on at least two records: `None` when the ranking
      agent raised or a record is left without a rank. */
  function Ranked(hs: seq<Hyp>, goal: string, iteration: nat,
                  rank: (seq<RankInput>, string, nat) -> Option<seq<string>>): Option<seq<Hyp>>
  {
    match rank(RankingInput(hs), goal, iteration)
    case None => None
    case Some(ids) => SortedByRank(Assigned(hs, ids))
  }

  /** The ranking phase: one agent call, rank assignment, re-sort. */
  method RankPhase(hs: seq<Hyp>, goal: string, iteration: nat,
                   rank: (seq<RankInput>, string, nat) -> Option<seq<string>>) returns (result: Option<seq<Hyp>>)
    ensures result == Ranked(hs, goal, iteration, rank)
  {
    var ranking := rank(RankingInput(hs), goal, iteration);
    if ranking.None? {
      return None;
    }
    var withRanks := AssignRanks(hs, ranking.value);
    if !AllRanked(withRanks) {
      return None;
    }
    return Some(Permute(withRanks, OrderDesc(RankKeys(withRanks))));
  }

  /** Rank assignment keeps the length and the ids. */
  lemma AssignedIds(hs: seq<Hyp>, ids: seq<string>)
    requires forall j, l :: 0 <= j < l < |hs| ==> hs[j].id != hs[l].id
    ensures var a := Assigned(hs, ids);
      |a| == |hs| && forall j :: 0 <= j < |hs| ==> a[j].id == hs[j].id
  {
    AssignedRanks(hs, ids);
  }

  /** The ranking phase is a permutation of the records, each with only its
      rank changed, ascending by rank. */
  lemma RankedPermutes(hs: seq<Hyp>, goal: string, iteration: nat,
                       rank: (seq<RankInput>, string, nat) -> Option<seq<string>>)
    requires forall j, l :: 0 <= j < l < |hs| ==> hs[j].id != hs[l].id
    requires Ranked(hs, goal, iteration, rank).Some?
    ensures var r := Ranked(hs, goal, iteration, rank).value;
      var ids := rank(RankingInput(hs), goal, iteration).value;
      multiset(r) == multiset(Assigned(hs, ids))
      && (forall k :: 0 <= k < |r| ==> r[k].rank.Some?)
      && forall p, q :: 0 <= p < q < |r| ==> r[p].rank.value <= r[q].rank.value
  {
    var ids := rank(RankingInput(hs), goal, iteration).value;
    SortedByRankOrder(Assigned(hs, ids));
    var r := Ranked(hs, goal, iteration, rank).value;
    forall k | 0 <= k < |r|
      ensures r[k].rank.Some?
    {
      assert r[k] in multiset(Assigned(hs, ids));
    }
  }

  /** The ranking phase keeps a numbered list numbered. */
  lemma RankedNumbered(sid: string, hs: seq<Hyp>, goal: string, iteration: nat,
                       rank: (seq<RankInput>, string, nat) -> Option<seq<string>>)
    requires WellNumbered(sid, hs)
    requires Ranked(hs, goal, iteration, rank).Some?
    ensures var r := Ranked(hs, goal, iteration, rank).value;
      |r| == |hs| && WellNumbered(sid, r)
  {
    var ids := rank(RankingInput(hs), goal, iteration).value;
    var a := Assigned(hs, ids);
    AssignedIds(hs, ids);
    SameIdsNumbered(sid, hs, a);
    var keys := RankKeys(a);
    var o := OrderDesc(keys);
    OrderedDistinct(keys, o);
    var r := Permute(a, o);
    assert r == Ranked(hs, goal, iteration, rank).value;
    forall j | 0 <= j < |r|
      ensures IdBelow(sid, r[j].id, |r|)
    {
      assert r[j] == a[o[j]];
      assert IdBelow(sid, a[o[j]].id, |a|);
    }
    forall j, l | 0 <= j < l < |r|
      ensures r[j].id != r[l].id
    {
      if o[j] < o[l] {
        assert a[o[j]].id != a[o[l]].id;
      } else {
        assert a[o[l]].id != a[o[j]].id;
      }
    }
  }

  // ---------------------------------------------------------------------
  // Iterations and the session
  // ---------------------------------------------------------------------

  datatype Stage = GenerationStage | ReflectionStage | RankingStage
  datatype Status = Running | Completed

  /** A broadcast: `broadcast_session_update(..., "iteration_start", ...)`
      or `broadcast_agent_update(..., stage, status, ...)` (payloads are
      left out). */
  datatype Event = IterationStart(iteration: nat) | AgentUpdate(stage: Stage, status: Status)

  /** Broadcasts happen only when a websocket manager is present. */
  function Emit(notify: bool, es: seq<Event>): seq<Event> {
    if notify then es else []
  }

  /** The hypothesis list after the phases of an iteration and the stage
      whose exception ended it, if any. */
  datatype PhaseResult = PhaseResult(hyps: seq<Hyp>, raised: Option<Stage>)

  /** The generation, reflection and (with more than one hypothesis)
      ranking phases of one iteration. */
  function Phases(sid: string, goal: string, iteration: nat, per: nat, hyps: seq<Hyp>, agents: Agents): PhaseResult
  {
    match Generated(sid, goal, iteration, per, hyps, per, agents.generate)
    case None => PhaseResult(hyps, Some(GenerationStage))
    case Some(made) => LaterPhases(goal, iteration, hyps, made, agents)
  }

  /** Reflection on the new records, then ranking of the whole list. */
  function LaterPhases(goal: string, iteration: nat, hyps: seq<Hyp>, made: seq<Hyp>, agents: Agents): PhaseResult
  {
    match Reviewed(made, goal, iteration, agents.reflect)
    case None => PhaseResult(hyps, Some(ReflectionStage))
    case Some(reviewed) => RankingPhase(goal, iteration, hyps + reviewed, agents.rank)
  }

  /** Ranking runs only when there is more than one hypothesis. */
  function RankingPhase(goal: string, iteration: nat, all: seq<Hyp>,
                        rank: (seq<RankInput>, string, nat) -> Option<seq<string>>): PhaseResult
  {
    if |all| <= 1 then PhaseResult(all, None)
    else match Ranked(all, goal, iteration, rank)
      case None => PhaseResult(all, Some(RankingStage))
      case Some(sorted) => PhaseResult(sorted, None)
  }

  /** The broadcasts of a completed iteration. */
  function IterationTrace(iteration: nat, ranked: bool): seq<Event> {
    [IterationStart(iteration), AgentUpdate(GenerationStage, Running),
     AgentUpdate(GenerationStage, Completed), AgentUpdate(ReflectionStage, Running),
     AgentUpdate(ReflectionStage, Completed)]
    + (if ranked then [AgentUpdate(RankingStage, Running), AgentUpdate(RankingStage, Completed)] else [])
  }

  /** The broadcasts made up to the stage that raised: each stage announces
      that it is running before its agent is called, and completes after. */
  function Broadcasts(iteration: nat, ranked: bool, raised: Option<Stage>): (es: seq<Event>)
    ensures es <= IterationTrace(iteration, ranked)
    ensures raised.None? ==> es == IterationTrace(iteration, ranked)
  {
    [IterationStart(iteration), AgentUpdate(GenerationStage, Running)]
    + if raised == Some(GenerationStage) then []
      else [AgentUpdate(GenerationStage, Completed), AgentUpdate(ReflectionStage, Running)]
           + ReflectionBroadcasts(ranked, raised)
  }

  /** The broadcasts after the reflection phase started. */
  function ReflectionBroadcasts(ranked: bool, raised: Option<Stage>): seq<Event> {
    if raised == Some(ReflectionStage) then []
    else [AgentUpdate(ReflectionStage, Completed)] + RankingBroadcasts(ranked, raised)
  }

  /** The broadcasts of the ranking phase, if it runs. */
  function RankingBroadcasts(ranked: bool, raised: Option<Stage>): seq<Event> {
    if !ranked then []
    else [AgentUpdate(RankingStage, Running)]
         + if raised == Some(RankingStage) then [] else [AgentUpdate(RankingStage, Completed)]
  }

  /** The state after an iteration: the hypothesis list, the broadcasts so
      far and the stage whose exception ended the session, if any. */
  datatype Step = Step(hyps: seq<Hyp>, events: seq<Event>, raised: Option<Stage>)

  /** One iteration of `run_research_session`'s loop. */
  function Iterate(sid: string, goal: string, iteration: nat, per: nat, hyps: seq<Hyp>,
                   agents: Agents, notify: bool): Step
  {
    var p := Phases(sid, goal, iteration, per, hyps, agents);
    Step(p.hyps, Emit(notify, Broadcasts(iteration, |hyps| + per > 1, p.raised)), p.raised)
  }

  /** The first `k` iterations of a loop whose body is `body`; the loop
      stops at the first exception. */
  function Run(k: nat, body: (nat, seq<Hyp>) -> Step): Step
    decreases k
  {
    if k == 0 then Step([], [], None)
    else
      var s := Run(k - 1, body);
      if s.raised.Some? then s
      else
        var t := body(k, s.hyps);
        Step(t.hyps, s.events + t.events, t.raised)
  }

  /** The body of `run_research_session`'s loop. */
  function Body(sid: string, goal: string, per: nat, agents: Agents, notify: bool): (nat, seq<Hyp>) -> Step {
    (iteration: nat, hyps: seq<Hyp>) => Iterate(sid, goal, iteration, per, hyps, agents, notify)
  }

  /** The first `k` iterations of a session. */
  function Session(sid: string, goal: string, per: nat, k: nat, agents: Agents, notify: bool): Step {
    Run(k, Body(sid, goal, per, agents, notify))
  }

  /** The broadcasts of `k` completed iterations of `per` hypotheses each:
      ranking runs once more than one hypothesis exists. */
  function FullTrace(k: nat, per: nat): seq<Event>
    decreases k
  {
    if k == 0 then [] else FullTrace(k - 1, per) + IterationTrace(k, k * per > 1)
  }

  lemma MulStep(m: nat, n: nat)
    ensures (m + 1) * n == m * n + n
  {
  }

  /** A completed iteration appends `per` hypotheses and keeps the list
      numbered. */
  lemma PhasesNumbered(sid: string, goal: string, iteration: nat, per: nat, hyps: seq<Hyp>, agents: Agents)
    requires WellNumbered(sid, hyps)
    ensures var t := Phases(sid, goal, iteration, per, hyps, agents);
      t.raised.None? ==> |t.hyps| == |hyps| + per && WellNumbered(sid, t.hyps)
  {
    var g := Generated(sid, goal, iteration, per, hyps, per, agents.generate);
    if g.Some? {
      GeneratedNumbered(sid, goal, iteration, per, hyps, agents.generate);
      var r := Reviewed(g.value, goal, iteration, agents.reflect);
      if r.Some? {
        var all := hyps + r.value;
        SameIdsNumbered(sid, hyps + g.value, all);
        if |all| > 1 && Ranked(all, goal, iteration, agents.rank).Some? {
          RankedNumbered(sid, all, goal, iteration, agents.rank);
        }
      }
    }
  }

  /** Rank assignment keeps the length. */
  lemma {:induction false} AssignedLength(hs: seq<Hyp>, ids: seq<string>)
    ensures |Assigned(hs, ids)| == |hs|
    decreases |ids|
  {
    if ids != [] {
      AssignedLength(hs, ids[..|ids| - 1]);
    }
  }

  /** A completed iteration appends `per` hypotheses. */
  lemma PhasesLength(sid: string, goal: string, iteration: nat, per: nat, hyps: seq<Hyp>, agents: Agents)
    ensures var t := Phases(sid, goal, iteration, per, hyps, agents);
      t.raised.None? ==> |t.hyps| == |hyps| + per
  {
    var g := Generated(sid, goal, iteration, per, hyps, per, agents.generate);
    if g.Some? {
      GeneratedShape(sid, goal, iteration, per, hyps, per, agents.generate);
      var r := Reviewed(g.value, goal, iteration, agents.reflect);
      if r.Some? {
        var all := hyps + r.value;
        var ranking := agents.rank(RankingInput(all), goal, iteration);
        if |all| > 1 && ranking.Some? {
          AssignedLength(all, ranking.value);
        }
      }
    }
  }

  /** A loop body that, when it completes, appends `per` records and keeps
      the list numbered. */
  ghost predicate KeepsNumbered(sid: string, per: nat, body: (nat, seq<Hyp>) -> Step) {
    forall iteration: nat, hyps: seq<Hyp> :: WellNumbered(sid, hyps) && body(iteration, hyps).raised.None? ==>
      |body(iteration, hyps).hyps| == |hyps| + per && WellNumbered(sid, body(iteration, hyps).hyps)
  }

  /** A loop body that, when it completes, appends `per` records. */
  ghost predicate Appends(per: nat, body: (nat, seq<Hyp>) -> Step) {
    forall iteration: nat, hyps: seq<Hyp> :: body(iteration, hyps).raised.None? ==>
      |body(iteration, hyps).hyps| == |hyps| + per
  }

  /** A loop body whose broadcasts are a prefix of the iteration's full
      trace, and all of it when the body completes. */
  ghost predicate Announces(per: nat, notify: bool, body: (nat, seq<Hyp>) -> Step) {
    forall iteration: nat, hyps: seq<Hyp> ::
      (body(iteration, hyps).raised.None? ==>
         body(iteration, hyps).events == Emit(notify, IterationTrace(iteration, |hyps| + per > 1)))
      && body(iteration, hyps).events <= Emit(notify, IterationTrace(iteration, |hyps| + per > 1))
  }

  lemma {:induction false} RunNumbered(sid: string, per: nat, k: nat, body: (nat, seq<Hyp>) -> Step)
    requires KeepsNumbered(sid, per, body)
    ensures Run(k, body).raised.None? ==> |Run(k, body).hyps| == k * per && WellNumbered(sid, Run(k, body).hyps)
  {
    if k > 0 {
      RunNumbered(sid, per, k - 1, body);
      MulStep(k - 1, per);
    }
  }

  /** Appending to a prefix and to the sequence keeps the prefix. */
  lemma PrefixAppend(x: seq<Event>, y: seq<Event>, z: seq<Event>)
    requires y <= z
    ensures x + y <= x + z
  {
    assert (x + z)[..|x + y|] == x + y;
  }

  lemma {:induction false} RunLength(per: nat, k: nat, body: (nat, seq<Hyp>) -> Step)
    requires Appends(per, body)
    ensures Run(k, body).raised.None? ==> |Run(k, body).hyps| == k * per
  {
    if k > 0 {
      RunLength(per, k - 1, body);
      MulStep(k - 1, per);
    }
  }

  /** An iteration's broadcasts, whether or not a manager is present, are a
      prefix of its full trace, and all of it when it completes. */
  lemma EmitBroadcasts(notify: bool, iteration: nat, ranked: bool, raised: Option<Stage>)
    ensures Emit(notify, Broadcasts(iteration, ranked, raised)) <= Emit(notify, IterationTrace(iteration, ranked))
    ensures raised.None? ==> Emit(notify, Broadcasts(iteration, ranked, raised)) == Emit(notify, IterationTrace(iteration, ranked))
  {
  }

  lemma {:induction false} RunEventsComplete(per: nat, notify: bool, k: nat, body: (nat, seq<Hyp>) -> Step)
    requires Appends(per, body) && Announces(per, notify, body)
    ensures Run(k, body).raised.None? ==> Run(k, body).events == Emit(notify, FullTrace(k, per))
  {
    if k > 0 {
      var s := Run(k - 1, body);
      if s.raised.None? {
        RunEventsComplete(per, notify, k - 1, body);
        RunLength(per, k - 1, body);
        MulStep(k - 1, per);
        var t := body(k, s.hyps);
        assert |s.hyps| + per == k * per;
      }
    }
  }

  lemma {:induction false} RunEventsPrefix(per: nat, notify: bool, k: nat, body: (nat, seq<Hyp>) -> Step)
    requires Appends(per, body) && Announces(per, notify, body)
    ensures Run(k, body).events <= Emit(notify, FullTrace(k, per))
  {
    if k > 0 {
      var s := Run(k - 1, body);
      var pre := Emit(notify, FullTrace(k - 1, per));
      var next := Emit(notify, IterationTrace(k, k * per > 1));
      assert Emit(notify, FullTrace(k, per)) == pre + next;
      if s.raised.None? {
        RunEventsComplete(per, notify, k - 1, body);
        RunLength(per, k - 1, body);
        MulStep(k - 1, per);
        var t := body(k, s.hyps);
        assert |s.hyps| + per == k * per;
        PrefixAppend(pre, t.events, next);
      } else {
        RunEventsPrefix(per, notify, k - 1, body);
        assert pre <= pre + next;
      }
    }
  }

  /** Once an iteration has raised, later iterations do not run. */
  lemma {:induction false} RunStaysRaised(k: nat, m: nat, body: (nat, seq<Hyp>) -> Step)
    requires k <= m && Run(k, body).raised.Some?
    ensures Run(m, body) == Run(k, body)
    decreases m - k
  {
    if k < m {
      RunStaysRaised(k + 1, m, body);
    }
  }

  /** The session's loop body keeps the list numbered. */
  lemma BodyKeepsNumbered(sid: string, goal: string, per: nat, agents: Agents, notify: bool)
    ensures KeepsNumbered(sid, per, Body(sid, goal, per, agents, notify))
  {
    forall iteration: nat, hyps: seq<Hyp> | WellNumbered(sid, hyps)
      ensures var t := Body(sid, goal, per, agents, notify)(iteration, hyps);
        t.raised.None? ==> |t.hyps| == |hyps| + per && WellNumbered(sid, t.hyps)
    {
      PhasesNumbered(sid, goal, iteration, per, hyps, agents);
    }
  }

  /** The session's loop body announces its stages. */
  lemma BodyAnnounces(sid: string, goal: string, per: nat, agents: Agents, notify: bool)
    ensures Announces(per, notify, Body(sid, goal, per, agents, notify))
  {
    forall iteration: nat, hyps: seq<Hyp>
      ensures var t := Body(sid, goal, per, agents, notify)(iteration, hyps);
        (t.raised.None? ==> t.events == Emit(notify, IterationTrace(iteration, |hyps| + per > 1)))
        && t.events <= Emit(notify, IterationTrace(iteration, |hyps| + per > 1))
    {
      var t := Iterate(sid, goal, iteration, per, hyps, agents, notify);
      EmitBroadcasts(notify, iteration, |hyps| + per > 1, t.raised);
    }
  }

  /** The session's loop body appends `per` records. */
  lemma BodyAppends(sid: string, goal: string, per: nat, agents: Agents, notify: bool)
    ensures Appends(per, Body(sid, goal, per, agents, notify))
  {
    forall iteration: nat, hyps: seq<Hyp>
      ensures var t := Body(sid, goal, per, agents, notify)(iteration, hyps);
        t.raised.None? ==> |t.hyps| == |hyps| + per
    {
      PhasesLength(sid, goal, iteration, per, hyps, agents);
    }
  }

  /** A session that completed `k` iterations holds `k * per` numbered
      hypotheses. */
  lemma SessionNumbered(sid: string, goal: string, per: nat, k: nat, agents: Agents, notify: bool)
    ensures var s := Session(sid, goal, per, k, agents, notify);
      s.raised.None? ==> |s.hyps| == k * per && WellNumbered(sid, s.hyps)
  {
    BodyKeepsNumbered(sid, goal, per, agents, notify);
    RunNumbered(sid, per, k, Body(sid, goal, per, agents, notify));
  }

  /** A completed session broadcast the full trace; one that raised
      broadcast a prefix of it. */
  lemma SessionEvents(sid: string, goal: string, per: nat, k: nat, agents: Agents, notify: bool)
    ensures var s := Session(sid, goal, per, k, agents, notify);
      (s.raised.None? ==> s.events == Emit(notify, FullTrace(k, per)))
      && s.events <= Emit(notify, FullTrace(k, per))
  {
    BodyAppends(sid, goal, per, agents, notify);
    BodyAnnounces(sid, goal, per, agents, notify);
    RunEventsComplete(per, notify, k, Body(sid, goal, per, agents, notify));
    RunEventsPrefix(per, notify, k, Body(sid, goal, per, agents, notify));
  }

  /** Without a websocket manager nothing is broadcast. */
  lemma SilentWithoutManager(sid: string, goal: string, per: nat, k: nat, agents: Agents)
    ensures Session(sid, goal, per, k, agents, false).events == []
  {
    SessionEvents(sid, goal, per, k, agents, false);
  }

  /** A completed session with at least two hypotheses has every one ranked,
      in ascending order of rank. */
  lemma SessionRanked(sid: string, goal: string, per: nat, k: nat, agents: Agents, notify: bool)
    requires Session(sid, goal, per, k, agents, notify).raised.None?
    requires |Session(sid, goal, per, k, agents, notify).hyps| > 1
    ensures var hs := Session(sid, goal, per, k, agents, notify).hyps;
      (forall j :: 0 <= j < |hs| ==> hs[j].rank.Some?)
      && forall p, q :: 0 <= p < q < |hs| ==> hs[p].rank.value <= hs[q].rank.value
  {
    var body := Body(sid, goal, per, agents, notify);
    var s := Run(k - 1, body);
    SessionNumbered(sid, goal, per, k - 1, agents, notify);
    assert Run(k, body).hyps == Phases(sid, goal, k, per, s.hyps, agents).hyps;
    var g := Generated(sid, goal, k, per, s.hyps, per, agents.generate).value;
    GeneratedNumbered(sid, goal, k, per, s.hyps, agents.generate);
    var r := Reviewed(g, goal, k, agents.reflect).value;
    var all := s.hyps + r;
    SameIdsNumbered(sid, s.hyps + g, all);
    RankedPermutes(all, goal, k, agents.rank);
  }

  /** The dictionary `run_research_session` returns. */
  datatype SessionResult = SessionResult(sessionId: string, researchGoal: string, hypotheses: seq<Hyp>,
                                         totalIterations: nat, status: string)

  /** The session either returns its result or re-raises the exception of a
      stage. */
  datatype Outcome = Finished(result: SessionResult) | Raised(stage: Stage)

  /** The outcome of a session of `k` iterations. */
  function SessionOutcome(sid: string, goal: string, per: nat, k: nat, agents: Agents, notify: bool): Outcome {
    var s := Session(sid, goal, per, k, agents, notify);
    match s.raised
    case Some(stage) => Raised(stage)
    case None => Finished(SessionResult(sid, goal, s.hyps, k, "completed"))
  }

  /** One iteration: the generation phase with its broadcasts, then the
      rest. */
  method RunIteration(sid: string, goal: string, iteration: nat, per: nat, hyps: seq<Hyp>,
                      agents: Agents, notify: bool) returns (step: Step)
    ensures step == Iterate(sid, goal, iteration, per, hyps, agents, notify)
  {
    var events := Emit(notify, [IterationStart(iteration), AgentUpdate(GenerationStage, Running)]);
    var made := GeneratePhase(sid, goal, iteration, per, hyps, agents.generate);
    if made.None? {
      return Step(hyps, events, Some(GenerationStage));
    }
    GeneratedShape(sid, goal, iteration, per, hyps, per, agents.generate);
    events := events + Emit(notify, [AgentUpdate(GenerationStage, Completed), AgentUpdate(ReflectionStage, Running)]);
    var rest := ReflectAndRank(goal, iteration, hyps, made.value, agents, notify);
    return Step(rest.hyps, events + rest.events, rest.raised);
  }

  /** The reflection phase with its broadcasts, then the ranking phase. */
  method ReflectAndRank(goal: string, iteration: nat, hyps: seq<Hyp>, made: seq<Hyp>, agents: Agents, notify: bool)
    returns (step: Step)
    ensures var p := LaterPhases(goal, iteration, hyps, made, agents);
      step == Step(p.hyps, Emit(notify, ReflectionBroadcasts(|hyps| + |made| > 1, p.raised)), p.raised)
  {
    var reviewed := ReflectPhase(made, goal, iteration, agents.reflect);
    if reviewed.None? {
      return Step(hyps, [], Some(ReflectionStage));
    }
    var events := Emit(notify, [AgentUpdate(ReflectionStage, Completed)]);
    var rest := RankStep(goal, iteration, hyps + reviewed.value, agents.rank, notify);
    return Step(rest.hyps, events + rest.events, rest.raised);
  }

  /** The ranking phase with its broadcasts, when there is more than one
      hypothesis. */
  method RankStep(goal: string, iteration: nat, all: seq<Hyp>,
                  rank: (seq<RankInput>, string, nat) -> Option<seq<string>>, notify: bool) returns (step: Step)
    ensures var p := RankingPhase(goal, iteration, all, rank);
      step == Step(p.hyps, Emit(notify, RankingBroadcasts(|all| > 1, p.raised)), p.raised)
  {
    if |all| <= 1 {
      return Step(all, [], None);
    }
    var events := Emit(notify, [AgentUpdate(RankingStage, Running)]);
    var sorted := RankPhase(all, goal, iteration, rank);
    if sorted.None? {
      return Step(all, events, Some(RankingStage));
    }
    events := events + Emit(notify, [AgentUpdate(RankingStage, Completed)]);
    return Step(sorted.value, events, None);
  }

  /** `run_research_session`: iterations `1..maxIterations`, stopping at the
      first exception; `events` are the broadcasts made on the way. */
  method RunResearchSession(sid: string, goal: string, maxIterations: nat, per: nat, agents: Agents, notify: bool)
    returns (outcome: Outcome, events: seq<Event>)
    ensures outcome == SessionOutcome(sid, goal, per, maxIterations, agents, notify)
    ensures events == Session(sid, goal, per, maxIterations, agents, notify).events
  {
    var hyps: seq<Hyp> := [];
    events := [];
    var iteration := 1;
    while iteration <= maxIterations
      invariant 1 <= iteration <= maxIterations + 1
      invariant Session(sid, goal, per, iteration - 1, agents, notify) == Step(hyps, events, None)
    {
      var step := Advance(sid, goal, iteration, per, hyps, events, agents, notify);
      events := events + step.events;
      if step.raised.Some? {
        RunStaysRaised(iteration, maxIterations, Body(sid, goal, per, agents, notify));
        return Raised(step.raised.value), events;
      }
      hyps := step.hyps;
      iteration := iteration + 1;
    }
    return Finished(SessionResult(sid, goal, hyps, maxIterations, "completed")), events;
  }

  /** One pass of the loop: iteration `k` after `k - 1` completed ones. */
  method Advance(sid: string, goal: string, k: nat, per: nat, hyps: seq<Hyp>, ghost events: seq<Event>,
                 agents: Agents, notify: bool) returns (step: Step)
    requires k >= 1 && Session(sid, goal, per, k - 1, agents, notify) == Step(hyps, events, None)
    ensures Session(sid, goal, per, k, agents, notify) == Step(step.hyps, events + step.events, step.raised)
  {
    step := RunIteration(sid, goal, k, per, hyps, agents, notify);
    assert step == Body(sid, goal, per, agents, notify)(k, hyps);
  }

  // ---------------------------------------------------------------------
  // The session registry
  // ---------------------------------------------------------------------

  datatype SessionStatus = Pending | SessionRunning | SessionCompleted | SessionError

  /** `ResearchSession` as stored in `active_sessions` (timestamps and the
      error message are left out). */
  datatype SessionRecord = SessionRecord(id: string, goal: string, status: SessionStatus, hypotheses: seq<Hyp>,
                                         iteration: nat, maxIterations: nat, perIteration: nat)

  /** `ResearchSessionCreate` */
  datatype SessionCreate = SessionCreate(goal: string, maxIterations: nat, perIteration: nat)

  class AgentOrchestrator {
    var activeSessions: map<string, SessionRecord>

    constructor ()
      ensures activeSessions == map[]
    {
      activeSessions := map[];
    }

    /** `create_research_session`: a pending record under a made id (the
        uuid is a parameter). The per-iteration count is not copied from
        the request, so the record keeps the model default of 1. */
    method CreateResearchSession(request: SessionCreate, freshId: string) returns (session: SessionRecord)
      modifies this
      ensures session == SessionRecord(freshId, request.goal, Pending, [], 0, request.maxIterations, 1)
      ensures activeSessions == old(activeSessions)[freshId := session]
    {
      session := SessionRecord(freshId, request.goal, Pending, [], 0, request.maxIterations, 1);
      activeSessions := activeSessions[freshId := session];
    }
  }
}
