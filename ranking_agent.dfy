/** The ranking agent: a round-robin tournament over all pairs of hypotheses
    judged by the language model, a stable descending sort of the points and
    1-based ranks. Points are kept as integer half-points (a win is 2, a tie
    gives 1 to each side). The model's reply for the pair (i, j) is the
    oracle `reply(i, j)`; `None` stands for a failed call. */
module RankingAgent {
  import opened Wrappers
  import opened Text
  import opened Sorting
  import BaseAgent

  datatype Winner = A | B | Tie

  /** What one comparison records: the two input positions, the winner and
      the reasoning text. */
  datatype Comparison = Comparison(a: nat, b: nat, winner: Winner, reasoning: string)

  /** An entry of `ranked_hypotheses`: the input record unchanged when no
      ranking ran, or a copy carrying `rank` and `ranking_score`. The score
      is in half-points; `floatScore` records whether Python holds it as a
      float (it took part in a tie) or as an int. */
  datatype Entry<T> =
    | Unranked(item: T)
    | Ranked(item: T, rank: nat, halfPoints: nat, floatScore: bool)

  datatype RankingResult<T> = RankingResult(
    ranked: seq<Entry<T>>,
    rationale: string,
    comparisons: seq<Comparison>,
    iteration: int,
    agent: string)

  const NoRankingRationale := "Only one hypothesis available, no ranking performed"
  const SingleRationale := "Only one hypothesis available for ranking."
  const FallbackReasoning := "Unable to perform detailed comparison due to API limitations."

  // ---------------------------------------------------------------------
  // Parsing one comparison reply
  // ---------------------------------------------------------------------

  datatype Verdict = Verdict(winner: Winner, reasoning: string)

  function WinnerText(t: string): Option<Winner> {
    if t == "A" then Some(A) else if t == "B" then Some(B) else if t == "TIE" then Some(Tie) else None
  }

  /** The winner a stripped line names, when it is a WINNER line with a
      valid (case-insensitive) A, B or TIE. */
  function LineWinner(line: string): Option<Winner> {
    if StartsWith(line, "WINNER:") then WinnerText(Upper(Strip(line[7..]))) else None
  }

  /** The effect of one stripped line on the verdict being built. */
  function Step(v: Verdict, line: string): Verdict {
    if StartsWith(line, "WINNER:") then
      (if LineWinner(line).Some? then v.(winner := LineWinner(line).value) else v)
    else if StartsWith(line, "REASONING:") then v.(reasoning := Strip(line[10..]))
    else if v.reasoning != "" && line != "" then v.(reasoning := v.reasoning + " " + line)
    else v
  }

  /** The verdict after reading `lines` in order, starting from a tie with
      no reasoning. */
  function Scan(lines: seq<string>): Verdict {
    if |lines| == 0 then Verdict(Tie, "")
    else Step(Scan(lines[..|lines| - 1]), Strip(lines[|lines| - 1]))
  }

  /** The verdict `_compare_hypotheses` returns for a reply, or the fixed
      tie when the call failed. */
  function ParseVerdict(reply: Option<string>): Verdict {
    match reply
    case None => Verdict(Tie, FallbackReasoning)
    case Some(text) =>
      var v := Scan(Split(text, '\n'));
      v.(reasoning := Strip(v.reasoning))
  }

  method CompareHypotheses(reply: Option<string>) returns (v: Verdict)
    ensures v == ParseVerdict(reply)
  {
    if reply.None? {
      return Verdict(Tie, FallbackReasoning);
    }
    v := ScanLines(Split(reply.value, '\n'));
    v := v.(reasoning := Strip(v.reasoning));
  }

  /** The line loop of `_compare_hypotheses`. */
  method ScanLines(lines: seq<string>) returns (v: Verdict)
    ensures v == Scan(lines)
  {
    v := Verdict(Tie, "");
    var k := 0;
    while k < |lines|
      invariant 0 <= k <= |lines|
      invariant v == Scan(lines[..k])
    {
      ScanSnoc(lines, k);
      v := ReadLine(v, Strip(lines[k]));
      k := k + 1;
    }
    assert lines[..|lines|] == lines;
  }

  /** One pass of the line loop on an already stripped line. */
  method ReadLine(v: Verdict, line: string) returns (r: Verdict)
    ensures r == Step(v, line)
  {
    r := v;
    if StartsWith(line, "WINNER:") {
      MarkerColon(line, "WINNER:");
      var w := WinnerText(Upper(Strip(AfterFirst(line, ':'))));
      if w.Some? {
        r := r.(winner := w.value);
      }
    } else if StartsWith(line, "REASONING:") {
      MarkerColon(line, "REASONING:");
      r := r.(reasoning := Strip(AfterFirst(line, ':')));
    } else if r.reasoning != "" && line != "" {
      r := r.(reasoning := r.reasoning + " " + line);
    }
  }

  /** For the WINNER: and REASONING: markers, `line.split(':', 1)[1]` is
      the text after the marker. */
  lemma MarkerColon(line: string, marker: string)
    requires marker == "WINNER:" || marker == "REASONING:"
    requires StartsWith(line, marker)
    ensures ':' in line && AfterFirst(line, ':') == line[|marker|..]
  {
    assert ':' !in marker[..|marker| - 1];
    AfterMarker(line, marker, ':');
  }

  lemma ScanSnoc(lines: seq<string>, k: nat)
    requires k < |lines|
    ensures Scan(lines[..k + 1]) == Step(Scan(lines[..k]), Strip(lines[k]))
  {
    assert lines[..k + 1][..k] == lines[..k];
  }

  /** Without a valid WINNER line the verdict stays a tie. */
  lemma {:induction false} NoWinnerLineIsTie(lines: seq<string>)
    requires forall k :: 0 <= k < |lines| ==> LineWinner(Strip(lines[k])).None?
    ensures Scan(lines).winner == Tie
  {
    if |lines| > 0 {
      NoWinnerLineIsTie(lines[..|lines| - 1]);
    }
  }

  /** The last valid WINNER line decides the winner. */
  lemma {:induction false} LastWinnerLineWins(lines: seq<string>, k: nat)
    requires k < |lines| && LineWinner(Strip(lines[k])).Some?
    requires forall l :: k < l < |lines| ==> LineWinner(Strip(lines[l])).None?
    ensures Scan(lines).winner == LineWinner(Strip(lines[k])).value
    decreases |lines|
  {
    StepWinner(Scan(lines[..|lines| - 1]), Strip(lines[|lines| - 1]));
    if k < |lines| - 1 {
      LastWinnerLineWins(lines[..|lines| - 1], k);
    }
  }

  /** Only a valid WINNER line changes the winner. */
  lemma StepWinner(v: Verdict, line: string)
    ensures Step(v, line).winner == if LineWinner(line).Some? then LineWinner(line).value else v.winner
  {
  }

  /** Reasoning only ever comes after a REASONING line: text before one (or
      in a reply without one) is dropped. */
  lemma ReasoningNeedsMarker(lines: seq<string>)
    requires forall k :: 0 <= k < |lines| ==> !StartsWith(Strip(lines[k]), "REASONING:")
    ensures Scan(lines).reasoning == ""
  {
    assert lines[..0] == [];
    ReasoningStaysEmpty(lines, 0);
  }

  /** A line that opens the reasoning. */
  predicate ReasoningMarked(line: string) {
    StartsWith(line, "REASONING:")
  }

  /** Once the reasoning is empty it stays empty until a REASONING line. */
  lemma {:induction false} ReasoningStaysEmpty(lines: seq<string>, k: nat)
    requires k <= |lines| && Scan(lines[..k]).reasoning == ""
    requires forall l :: k <= l < |lines| ==> !ReasoningMarked(Strip(lines[l]))
    ensures Scan(lines).reasoning == ""
    decreases |lines|
  {
    if k < |lines| {
      var prev := lines[..|lines| - 1];
      assert prev[..k] == lines[..k];
      ReasoningStaysEmpty(prev, k);
      StepKeepsEmpty(Scan(prev), Strip(lines[|lines| - 1]));
    } else {
      assert lines[..k] == lines;
    }
  }

  /** A line other than a REASONING line leaves an empty reasoning empty. */
  lemma StepKeepsEmpty(v: Verdict, line: string)
    requires v.reasoning == "" && !ReasoningMarked(line)
    ensures Step(v, line).reasoning == ""
  {
  }

  lemma StepBareReasoning(v: Verdict)
    ensures Step(v, "REASONING:") == v.(reasoning := "")
  {
    assert !StartsWith("REASONING:", "WINNER:") by {
      assert "REASONING:"[0] != "WINNER:"[0];
    }
    assert StartsWith("REASONING:", "REASONING:");
    assert "REASONING:"[10..] == "";
    assert Strip("") == "";
  }

  /** A bare "REASONING:" line empties the reasoning, and the lines after it
      are then discarded rather than appended. */
  lemma EmptyReasoningDiscardsFollowing(lines: seq<string>, k: nat)
    requires k < |lines| && Strip(lines[k]) == "REASONING:"
    requires forall l :: k < l < |lines| ==> !StartsWith(Strip(lines[l]), "REASONING:")
    ensures Scan(lines).reasoning == ""
  {
    ScanSnoc(lines, k);
    StepBareReasoning(Scan(lines[..k]));
    ReasoningStaysEmpty(lines, k + 1);
  }

  // ---------------------------------------------------------------------
  // The round robin
  // ---------------------------------------------------------------------

  /** The pairs (i, j) for lo <= j < hi, in increasing j. */
  function Row(i: nat, lo: nat, hi: nat): seq<(nat, nat)>
    decreases hi
  {
    if hi <= lo then [] else Row(i, lo, hi - 1) + [(i, hi - 1)]
  }

  /** The pairs visited by the first `r` passes of the outer loop. */
  function PairsUpTo(r: nat, n: nat): seq<(nat, nat)> {
    if r == 0 then [] else PairsUpTo(r - 1, n) + Row(r - 1, r, n)
  }

  /** Every pair i < j < n, in the order of the nested loops. */
  function Pairs(n: nat): seq<(nat, nat)> {
    PairsUpTo(n, n)
  }

  /** The verdict of the model for each pair, as `_compare_hypotheses`
      parses it. */
  function Judge(reply: (nat, nat) -> Option<string>): (nat, nat) -> Verdict {
    (i: nat, j: nat) => ParseVerdict(reply(i, j))
  }

  function Compare(p: (nat, nat), judge: (nat, nat) -> Verdict): Comparison {
    Comparison(p.0, p.1, judge(p.0, p.1).winner, judge(p.0, p.1).reasoning)
  }

  function CompareAll(ps: seq<(nat, nat)>, judge: (nat, nat) -> Verdict): (r: seq<Comparison>)
    ensures |r| == |ps|
  {
    seq(|ps|, k requires 0 <= k < |ps| => Compare(ps[k], judge))
  }

  /** `comps` records the comparisons of the pairs `ps`, one by one. */
  predicate Recorded(comps: seq<Comparison>, ps: seq<(nat, nat)>, judge: (nat, nat) -> Verdict) {
    |comps| == |ps| && forall k :: 0 <= k < |ps| ==> comps[k] == Compare(ps[k], judge)
  }

  /** The comparisons `_rank_hypotheses` records for n hypotheses, given
      the verdict for each pair. */
  function Tournament(n: nat, judge: (nat, nat) -> Verdict): seq<Comparison> {
    CompareAll(Pairs(n), judge)
  }

  /** Half-points one comparison gives to position x. */
  function Gain(c: Comparison, x: nat): nat {
    match c.winner
    case A => if x == c.a then 2 else 0
    case B => if x == c.b then 2 else 0
    case Tie => if x == c.a || x == c.b then 1 else 0
  }

  /** `hypothesis_scores[x]` after the comparisons, in half-points. */
  function Points(comps: seq<Comparison>, x: nat): nat {
    if |comps| == 0 then 0 else Points(comps[..|comps| - 1], x) + Gain(comps[|comps| - 1], x)
  }

  /** Whether position x took part in a tie, which makes its Python score a float. */
  predicate TieTouched(comps: seq<Comparison>, x: nat) {
    if |comps| == 0 then false
    else
      var c := comps[|comps| - 1];
      TieTouched(comps[..|comps| - 1], x) || (c.winner == Tie && (x == c.a || x == c.b))
  }

  function Scores(comps: seq<Comparison>, n: nat): (pts: seq<nat>)
    ensures |pts| == n && forall x :: 0 <= x < n ==> pts[x] == Points(comps, x)
  {
    seq(n, x requires 0 <= x => Points(comps, x))
  }

  function TieFlags(comps: seq<Comparison>, n: nat): (ties: seq<bool>)
    ensures |ties| == n && forall x :: 0 <= x < n ==> ties[x] == TieTouched(comps, x)
  {
    seq(n, x requires 0 <= x => TieTouched(comps, x))
  }

  function Keys(pts: seq<nat>): (keys: seq<real>)
    ensures |keys| == |pts| && forall x :: 0 <= x < |pts| ==> keys[x] == pts[x] as real
  {
    seq(|pts|, x requires 0 <= x < |pts| => pts[x] as real)
  }

  /** The ranked copies built from the final scores. */
  function RankedList<T>(hyps: seq<T>, comps: seq<Comparison>): (r: seq<Entry<T>>)
    ensures |r| == |hyps|
  {
    var pts := Scores(comps, |hyps|);
    var o := OrderDesc(Keys(pts));
    seq(|hyps|, k requires 0 <= k < |hyps| =>
      Ranked(hyps[o[k]], k + 1, pts[o[k]], TieTouched(comps, o[k])))
  }

  /** `hypothesis_scores` (in half-points) and the tie flags agree with
      the comparisons recorded so far. */
  predicate Tallied(comps: seq<Comparison>, pts: seq<nat>, ties: seq<bool>, n: nat) {
    pts == Scores(comps, n) && ties == TieFlags(comps, n)
  }

  /** Score update for one comparison: 1 point to the winner, or half a
      point to each side of a tie. */
  method Award(c: Comparison, pts: seq<nat>, ties: seq<bool>) returns (pts2: seq<nat>, ties2: seq<bool>)
    requires c.a < c.b < |pts| && |ties| == |pts|
    ensures |pts2| == |pts| && forall x :: 0 <= x < |pts| ==> pts2[x] == pts[x] + Gain(c, x)
    ensures |ties2| == |ties| &&
      forall x :: 0 <= x < |ties| ==> ties2[x] == (ties[x] || (c.winner == Tie && (x == c.a || x == c.b)))
  {
    pts2, ties2 := pts, ties;
    match c.winner {
      case A => pts2 := pts2[c.a := pts2[c.a] + 2];
      case B => pts2 := pts2[c.b := pts2[c.b] + 2];
      case Tie =>
        pts2 := pts2[c.a := pts2[c.a] + 1][c.b := pts2[c.b] + 1];
        ties2 := ties2[c.a := true][c.b := true];
    }
  }

  lemma TalliedSnoc(comps: seq<Comparison>, c: Comparison, pts: seq<nat>, ties: seq<bool>,
                    pts2: seq<nat>, ties2: seq<bool>, n: nat)
    requires Tallied(comps, pts, ties, n)
    requires |pts2| == n && forall x :: 0 <= x < n ==> pts2[x] == pts[x] + Gain(c, x)
    requires |ties2| == n &&
      forall x :: 0 <= x < n ==> ties2[x] == (ties[x] || (c.winner == Tie && (x == c.a || x == c.b)))
    ensures Tallied(comps + [c], pts2, ties2, n)
  {
    assert (comps + [c])[..|comps|] == comps;
    assert pts2 == Scores(comps + [c], n);
    assert ties2 == TieFlags(comps + [c], n);
  }

  /** One pass of the inner loop: compare i with j, record the comparison
      and update the scores. */
  method PlayPair(i: nat, j: nat, n: nat, reply: (nat, nat) -> Option<string>, ghost judge: (nat, nat) -> Verdict,
                  ghost ps: seq<(nat, nat)>, comps0: seq<Comparison>, pts0: seq<nat>, ties0: seq<bool>)
    returns (comps: seq<Comparison>, pts: seq<nat>, ties: seq<bool>)
    requires i < j < n && judge == Judge(reply)
    requires Recorded(comps0, ps, judge) && Tallied(comps0, pts0, ties0, n)
    ensures Recorded(comps, ps + [(i, j)], judge) && Tallied(comps, pts, ties, n)
  {
    var v := CompareHypotheses(reply(i, j));
    assert v == judge(i, j);
    var c := Comparison(i, j, v.winner, v.reasoning);
    pts, ties := Award(c, pts0, ties0);
    TalliedSnoc(comps0, c, pts0, ties0, pts, ties, n);
    comps := comps0 + [c];
  }

  /** One pass of the outer loop: hypothesis i against every later j. */
  method PlayRow(i: nat, n: nat, reply: (nat, nat) -> Option<string>, ghost judge: (nat, nat) -> Verdict,
                 comps0: seq<Comparison>, pts0: seq<nat>, ties0: seq<bool>)
    returns (comps: seq<Comparison>, pts: seq<nat>, ties: seq<bool>)
    requires i < n && judge == Judge(reply)
    requires comps0 == CompareAll(PairsUpTo(i, n), judge) && Tallied(comps0, pts0, ties0, n)
    ensures comps == CompareAll(PairsUpTo(i + 1, n), judge) && Tallied(comps, pts, ties, n)
  {
    comps, pts, ties := comps0, pts0, ties0;
    var j := i + 1;
    ghost var ps := PairsUpTo(i, n);
    assert ps + Row(i, i + 1, j) == ps;
    while j < n
      invariant i + 1 <= j <= n
      invariant ps == PairsUpTo(i, n) + Row(i, i + 1, j)
      invariant Recorded(comps, ps, judge) && Tallied(comps, pts, ties, n)
    {
      comps, pts, ties := PlayPair(i, j, n, reply, judge, ps, comps, pts, ties);
      assert Row(i, i + 1, j + 1) == Row(i, i + 1, j) + [(i, j)];
      ps := ps + [(i, j)];
      j := j + 1;
    }
    assert comps == CompareAll(ps, judge);
  }

  method RankHypotheses<T>(hyps: seq<T>, reply: (nat, nat) -> Option<string>)
    returns (ranked: seq<Entry<T>>, comps: seq<Comparison>)
    ensures comps == Tournament(|hyps|, Judge(reply))
    ensures ranked == RankedList(hyps, comps)
  {
    var n := |hyps|;
    var pts: seq<nat> := seq(n, _ => 0);
    var ties: seq<bool> := seq(n, _ => false);
    comps := [];
    assert pts == Scores(comps, n) && ties == TieFlags(comps, n);
    ghost var judge := Judge(reply);
    var i := 0;
    while i < n
      invariant 0 <= i <= n
      invariant comps == CompareAll(PairsUpTo(i, n), judge)
      invariant Tallied(comps, pts, ties, n)
    {
      comps, pts, ties := PlayRow(i, n, reply, judge, comps, pts, ties);
      i := i + 1;
    }
    ranked := RankedCopies(hyps, comps, pts, ties);
  }

  /** Copies of the hypotheses in descending score order, each with its
      rank and score. */
  method RankedCopies<T>(hyps: seq<T>, comps: seq<Comparison>, pts: seq<nat>, ties: seq<bool>)
    returns (ranked: seq<Entry<T>>)
    requires Tallied(comps, pts, ties, |hyps|)
    ensures ranked == RankedList(hyps, comps)
  {
    var n := |hyps|;
    var order := OrderDesc(Keys(pts));
    ranked := [];
    var k := 0;
    while k < n
      invariant 0 <= k <= n && |ranked| == k
      invariant forall m :: 0 <= m < k ==>
        ranked[m] == Ranked(hyps[order[m]], m + 1, pts[order[m]], ties[order[m]])
    {
      var idx := order[k];
      ranked := ranked + [Ranked(hyps[idx], k + 1, pts[idx], ties[idx])];
      k := k + 1;
    }
  }

  // ---------------------------------------------------------------------
  // Properties of the tournament
  // ---------------------------------------------------------------------

  lemma {:induction false} RowLength(i: nat, lo: nat, hi: nat)
    ensures |Row(i, lo, hi)| == if hi <= lo then 0 else hi - lo
    decreases hi
  {
    if hi > lo {
      RowLength(i, lo, hi - 1);
    }
  }

  lemma {:induction false} RowMembers(i: nat, lo: nat, hi: nat)
    ensures forall p :: p in Row(i, lo, hi) <==> p.0 == i && lo <= p.1 < hi
    decreases hi
  {
    if hi > lo {
      RowMembers(i, lo, hi - 1);
    }
  }

  lemma {:induction false} RowSorted(i: nat, lo: nat, hi: nat)
    ensures forall k, l :: 0 <= k < l < |Row(i, lo, hi)| ==> Row(i, lo, hi)[k].1 < Row(i, lo, hi)[l].1
    decreases hi
  {
    if hi > lo {
      RowSorted(i, lo, hi - 1);
      RowMembers(i, lo, hi - 1);
      var prev := Row(i, lo, hi - 1);
      forall k | 0 <= k < |prev|
        ensures prev[k].1 < hi - 1
      {
        assert prev[k] in prev;
      }
    }
  }

  lemma {:induction false} RowFirst(i: nat, lo: nat, hi: nat)
    ensures forall k :: 0 <= k < |Row(i, lo, hi)| ==> Row(i, lo, hi)[k].0 == i
    decreases hi
  {
    if hi > lo {
      RowFirst(i, lo, hi - 1);
    }
  }

  /** Strict lexicographic order on pairs. */
  predicate LexLess(p: (nat, nat), q: (nat, nat)) {
    p.0 < q.0 || (p.0 == q.0 && p.1 < q.1)
  }

  lemma {:induction false} PairsUpToCount(r: nat, n: nat)
    requires r <= n
    ensures 2 * |PairsUpTo(r, n)| == r * (2 * n - r - 1)
  {
    if r > 0 {
      PairsUpToCount(r - 1, n);
      RowLength(r - 1, r, n);
      assert (r - 1) * (2 * n - r) + 2 * (n - r) == r * (2 * n - r - 1);
    }
  }

  lemma {:induction false} PairsUpToBounds(r: nat, n: nat)
    ensures forall k :: 0 <= k < |PairsUpTo(r, n)| ==>
      PairsUpTo(r, n)[k].0 < r && PairsUpTo(r, n)[k].0 < PairsUpTo(r, n)[k].1 < n
  {
    if r > 0 {
      PairsUpToBounds(r - 1, n);
      RowMembers(r - 1, r, n);
      var prev: seq<(nat, nat)>, row: seq<(nat, nat)> := PairsUpTo(r - 1, n), Row(r - 1, r, n);
      forall k | 0 <= k < |prev + row|
        ensures (prev + row)[k].0 < r && (prev + row)[k].0 < (prev + row)[k].1 < n
      {
        if k < |prev| {
          assert (prev + row)[k] == prev[k];
        } else {
          assert (prev + row)[k] == row[k - |prev|];
          assert row[k - |prev|] in row;
        }
      }
    }
  }

  lemma {:induction false} PairsUpToMembers(r: nat, n: nat)
    ensures forall p :: p in PairsUpTo(r, n) <==> p.0 < r && p.0 < p.1 < n
  {
    if r > 0 {
      PairsUpToMembers(r - 1, n);
      RowMembers(r - 1, r, n);
      var prev: seq<(nat, nat)>, row: seq<(nat, nat)> := PairsUpTo(r - 1, n), Row(r - 1, r, n);
      assert forall p :: p in prev + row <==> p in prev || p in row;
    }
  }

  lemma {:induction false} PairsUpToSorted(r: nat, n: nat)
    ensures forall k, l :: 0 <= k < l < |PairsUpTo(r, n)| ==> LexLess(PairsUpTo(r, n)[k], PairsUpTo(r, n)[l])
  {
    if r > 0 {
      PairsUpToSorted(r - 1, n);
      PairsUpToBounds(r - 1, n);
      RowSorted(r - 1, r, n);
      RowFirst(r - 1, r, n);
      var prev: seq<(nat, nat)>, row: seq<(nat, nat)> := PairsUpTo(r - 1, n), Row(r - 1, r, n);
      forall k, l | 0 <= k < l < |prev + row|
        ensures LexLess((prev + row)[k], (prev + row)[l])
      {
        if l < |prev| {
          assert (prev + row)[k] == prev[k] && (prev + row)[l] == prev[l];
        } else if k < |prev| {
          assert (prev + row)[k] == prev[k] && (prev + row)[l] == row[l - |prev|];
        } else {
          assert (prev + row)[k] == row[k - |prev|] && (prev + row)[l] == row[l - |prev|];
        }
      }
    }
  }

  /** There are exactly n(n-1)/2 comparisons. */
  lemma PairsCount(n: nat)
    ensures 2 * |Pairs(n)| == n * (n - 1)
  {
    PairsUpToCount(n, n);
  }

  /** One comparison per pair i < j < n, in lexicographic (i, j) order. */
  lemma PairsAreAllPairsInOrder(n: nat)
    ensures forall p :: p in Pairs(n) <==> p.0 < p.1 < n
    ensures forall k, l :: 0 <= k < l < |Pairs(n)| ==> LexLess(Pairs(n)[k], Pairs(n)[l])
  {
    PairsUpToMembers(n, n);
    PairsUpToSorted(n, n);
  }

  /** Sum of the half-points over positions below n. */
  function TotalPoints(comps: seq<Comparison>, n: nat): nat {
    if n == 0 then 0 else TotalPoints(comps, n - 1) + Points(comps, n - 1)
  }

  function GainTotal(c: Comparison, n: nat): nat {
    if n == 0 then 0 else GainTotal(c, n - 1) + Gain(c, n - 1)
  }

  lemma {:induction false} GainTotalValue(c: Comparison, n: nat)
    requires c.a < c.b
    ensures GainTotal(c, n) == (if c.a < n then Gain(c, c.a) else 0) + (if c.b < n then Gain(c, c.b) else 0)
  {
    if n > 0 {
      GainTotalValue(c, n - 1);
    }
  }

  lemma {:induction false} TotalPointsAppend(comps: seq<Comparison>, c: Comparison, n: nat)
    ensures TotalPoints(comps + [c], n) == TotalPoints(comps, n) + GainTotal(c, n)
  {
    assert (comps + [c])[..|comps|] == comps;
    if n > 0 {
      TotalPointsAppend(comps, c, n - 1);
    }
  }

  /** Every comparison hands out exactly one point (two half-points), so the
      scores sum to the number of comparisons. */
  lemma {:induction false} PointsSum(comps: seq<Comparison>, n: nat)
    requires forall k :: 0 <= k < |comps| ==> comps[k].a < comps[k].b < n
    ensures TotalPoints(comps, n) == 2 * |comps|
  {
    if |comps| == 0 {
      if n > 0 {
        PointsSum(comps, n - 1);
      }
    } else {
      var prev, c := comps[..|comps| - 1], comps[|comps| - 1];
      PointsSum(prev, n);
      assert comps == prev + [c];
      TotalPointsAppend(prev, c, n);
      GainTotalValue(c, n);
    }
  }

  /** The tournament's scores add up to n(n-1)/2 points. */
  lemma TournamentPointsSum(n: nat, judge: (nat, nat) -> Verdict)
    ensures TotalPoints(Tournament(n, judge), n) == n * (n - 1)
  {
    PairsCount(n);
    PairsAreAllPairsInOrder(n);
    var t := Tournament(n, judge);
    forall k | 0 <= k < |t|
      ensures t[k].a < t[k].b < n
    {
      assert Pairs(n)[k] in Pairs(n);
    }
    PointsSum(t, n);
  }

  /** How many of the pairs involve position x. */
  function Involving(ps: seq<(nat, nat)>, x: nat): nat {
    if |ps| == 0 then 0
    else Involving(ps[..|ps| - 1], x) + (if ps[|ps| - 1].0 == x || ps[|ps| - 1].1 == x then 1 else 0)
  }

  lemma {:induction false} InvolvingAppend(ps: seq<(nat, nat)>, qs: seq<(nat, nat)>, x: nat)
    ensures Involving(ps + qs, x) == Involving(ps, x) + Involving(qs, x)
    decreases |qs|
  {
    if |qs| == 0 {
      assert ps + qs == ps;
    } else {
      assert (ps + qs)[..|ps + qs| - 1] == ps + qs[..|qs| - 1];
      InvolvingAppend(ps, qs[..|qs| - 1], x);
    }
  }

  lemma {:induction false} InvolvingRow(i: nat, lo: nat, hi: nat, x: nat)
    requires i < lo
    ensures Involving(Row(i, lo, hi), x) ==
      if x == i then (if hi <= lo then 0 else hi - lo) else if lo <= x < hi then 1 else 0
    decreases hi
  {
    if hi > lo {
      InvolvingRow(i, lo, hi - 1, x);
      assert Row(i, lo, hi)[..|Row(i, lo, hi)| - 1] == Row(i, lo, hi - 1);
    }
  }

  lemma {:induction false} InvolvingPairsUpTo(r: nat, n: nat, x: nat)
    requires r <= n && x < n
    ensures Involving(PairsUpTo(r, n), x) == if x < r then n - 1 else r
  {
    if r > 0 {
      var prev: seq<(nat, nat)>, row: seq<(nat, nat)> := PairsUpTo(r - 1, n), Row(r - 1, r, n);
      InvolvingPairsUpTo(r - 1, n, x);
      InvolvingAppend(prev, row, x);
      InvolvingRow(r - 1, r, n, x);
      if x < r - 1 {
        assert Involving(row, x) == 0;
      } else if x == r - 1 {
        assert Involving(prev, x) == r - 1 && Involving(row, x) == n - r;
      } else {
        assert Involving(prev, x) == r - 1 && Involving(row, x) == 1;
      }
    }
  }

  lemma {:induction false} PointsAtMostTwicePairs(ps: seq<(nat, nat)>, judge: (nat, nat) -> Verdict, x: nat)
    requires forall k :: 0 <= k < |ps| ==> ps[k].0 != ps[k].1
    ensures Points(CompareAll(ps, judge), x) <= 2 * Involving(ps, x)
  {
    if |ps| > 0 {
      var prev := ps[..|ps| - 1];
      PointsAtMostTwicePairs(prev, judge, x);
      assert CompareAll(ps, judge)[..|ps| - 1] == CompareAll(prev, judge);
    }
  }

  /** Each hypothesis scores between 0 and n-1 points. */
  lemma PointsBound(n: nat, judge: (nat, nat) -> Verdict, x: nat)
    requires x < n
    ensures Points(Tournament(n, judge), x) <= 2 * (n - 1)
  {
    PairsAreAllPairsInOrder(n);
    forall k | 0 <= k < |Pairs(n)|
      ensures Pairs(n)[k].0 != Pairs(n)[k].1
    {
      assert Pairs(n)[k] in Pairs(n);
    }
    PointsAtMostTwicePairs(Pairs(n), judge, x);
    InvolvingPairsUpTo(n, n, x);
  }

  /** The ranked output carries ranks 1..n in order. */
  lemma RankedListRanks<T>(hyps: seq<T>, comps: seq<Comparison>)
    ensures var r := RankedList(hyps, comps);
      forall k :: 0 <= k < |r| ==> r[k].Ranked? && r[k].rank == k + 1
  {
  }

  /** Scores are non-increasing down the ranked output. */
  lemma RankedListDescending<T>(hyps: seq<T>, comps: seq<Comparison>)
    ensures var r := RankedList(hyps, comps);
      forall k, l :: 0 <= k < l < |r| ==> r[k].halfPoints >= r[l].halfPoints
  {
    var pts := Scores(comps, |hyps|);
    var o := OrderDesc(Keys(pts));
    var r := RankedList(hyps, comps);
    forall k, l | 0 <= k < l < |r|
      ensures r[k].halfPoints >= r[l].halfPoints
    {
      assert Before(Keys(pts), o[k], o[l]);
    }
  }

  /** Every input hypothesis appears in the ranked output, unchanged and
      with its own score. */
  lemma RankedListComplete<T>(hyps: seq<T>, comps: seq<Comparison>, x: nat)
    requires x < |hyps|
    ensures var r := RankedList(hyps, comps);
      exists k :: 0 <= k < |r| && r[k].item == hyps[x] && r[k].halfPoints == Points(comps, x)
  {
    var pts := Scores(comps, |hyps|);
    var o := OrderDesc(Keys(pts));
    var r := RankedList(hyps, comps);
    assert x in o;
    var k :| 0 <= k < |o| && o[k] == x;
    assert r[k].item == hyps[x];
  }

  /** Each ranked entry is a distinct input: the output is a permutation. */
  lemma RankedListDistinct<T>(hyps: seq<T>, comps: seq<Comparison>, k: nat, l: nat)
    requires k < l < |hyps|
    ensures OrderDesc(Keys(Scores(comps, |hyps|)))[k] != OrderDesc(Keys(Scores(comps, |hyps|)))[l]
  {
    var o := OrderDesc(Keys(Scores(comps, |hyps|)));
    assert Before(Keys(Scores(comps, |hyps|)), o[k], o[l]);
  }

  /** Equal scores keep their input order (the sort is stable). */
  lemma RankedListStable<T>(hyps: seq<T>, comps: seq<Comparison>, k: nat, l: nat)
    requires k < l < |hyps|
    requires Points(comps, OrderDesc(Keys(Scores(comps, |hyps|)))[k]) == Points(comps, OrderDesc(Keys(Scores(comps, |hyps|)))[l])
    ensures OrderDesc(Keys(Scores(comps, |hyps|)))[k] < OrderDesc(Keys(Scores(comps, |hyps|)))[l]
  {
    var pts := Scores(comps, |hyps|);
    var o := OrderDesc(Keys(pts));
    assert Before(Keys(pts), o[k], o[l]);
  }

  /** Three hypotheses with A beating B, A tying C and B beating C: the
      scores are 1.5, 1 and 0.5 points and the order is A, B, C. */
  lemma ThreeWayScenario(comps: seq<Comparison>, ra: string, rb: string, rc: string)
    requires comps == [Comparison(0, 1, A, ra), Comparison(0, 2, Tie, rb), Comparison(1, 2, A, rc)]
    ensures Scores(comps, 3) == [3, 2, 1]
  {
    var c2 := comps[..2];
    var c1 := c2[..1];
    assert c2 == [Comparison(0, 1, A, ra), Comparison(0, 2, Tie, rb)];
    assert c1 == [Comparison(0, 1, A, ra)];
    assert c1[..0] == [];
    assert Points(c1, 0) == 2 && Points(c1, 1) == 0 && Points(c1, 2) == 0;
    assert Points(c2, 0) == 3 && Points(c2, 1) == 0 && Points(c2, 2) == 1;
    assert Points(comps, 0) == 3 && Points(comps, 1) == 2 && Points(comps, 2) == 1;
    assert Scores(comps, 3) == [Points(comps, 0), Points(comps, 1), Points(comps, 2)];
  }

  /** Scores 1.5, 1 and 0.5 rank the three hypotheses in input order. */
  lemma ThreeWayOrder()
    ensures OrderDesc(Keys([3, 2, 1])) == [0, 1, 2]
  {
    var keys := Keys([3, 2, 1]);
    assert keys == [3.0, 2.0, 1.0];
    assert OrderPrefix(keys, 1) == [0];
    assert OrderPrefix(keys, 2) == Insert(keys, [0], 1) == [0, 1];
    assert Insert(keys, [0, 1], 2) == [0] + Insert(keys, [1], 2);
  }

  /** With three hypotheses the pairs are (0,1), (0,2), (1,2). */
  lemma PairsOfThree()
    ensures Pairs(3) == [(0, 1), (0, 2), (1, 2)]
  {
    assert Row(0, 1, 3) == [(0, 1), (0, 2)];
    assert Row(1, 2, 3) == [(1, 2)];
  }

  // ---------------------------------------------------------------------
  // Rationale and execute
  // ---------------------------------------------------------------------

  /** `str(ranking_score)`: an int prints as "k", a float as "k.0" or "k.5". */
  function PointsText(h: nat, isFloat: bool): string {
    if isFloat then NatToString(h / 2) + (if h % 2 == 0 then ".0" else ".5")
    else NatToString(h / 2)
  }

  /** A rendered score determines the score it renders. */
  lemma PointsTextInjective(h1: nat, h2: nat, isFloat: bool)
    requires !isFloat ==> h1 % 2 == 0 && h2 % 2 == 0
    requires PointsText(h1, isFloat) == PointsText(h2, isFloat)
    ensures h1 == h2
  {
    var t1, t2 := PointsText(h1, isFloat), PointsText(h2, isFloat);
    if isFloat {
      var s1, s2 := NatToString(h1 / 2), NatToString(h2 / 2);
      assert |t1| == |s1| + 2 && |t2| == |s2| + 2;
      assert t1[..|s1|] == s1 && t2[..|s2|] == s2;
      assert t1[|s1|..] == t2[|s2|..];
    }
    NatToStringInjective(h1 / 2, h2 / 2);
  }

  function ScoreText<T>(e: Entry<T>): string {
    match e
    case Unranked(_) => "Unknown"
    case Ranked(_, _, h, f) => PointsText(h, f)
  }

  /** `_generate_ranking_rationale`: a fixed text for at most one entry,
      otherwise the stripped reply, or a fallback naming the top score. */
  function RankingRationale<T>(ranked: seq<Entry<T>>, reply: Option<string>): (r: string)
    ensures |ranked| <= 1 ==> r == SingleRationale
    ensures |ranked| > 1 && reply.Some? ==> r == Strip(reply.value)
    ensures |ranked| > 1 && reply.None? ==>
      r == "Hypothesis ranked highest based on pairwise comparisons (" + ScoreText(ranked[0]) + " wins)."
  {
    if |ranked| <= 1 then SingleRationale
    else if reply.Some? then Strip(reply.value)
    else "Hypothesis ranked highest based on pairwise comparisons (" + ScoreText(ranked[0]) + " wins)."
  }

  /** `execute`: fewer than two hypotheses are passed through unranked;
      otherwise the tournament runs and the rationale is generated. Either
      way the agent records a successful execution; `inputText` and
      `render` give `str(input_data)` and `str(result)`. */
  method Execute<T>(agent: BaseAgent.Agent, timestamp: string, inputText: string, render: RankingResult<T> -> string,
                    hyps: seq<T>, iteration: int, reply: (nat, nat) -> Option<string>, rationaleReply: Option<string>)
    returns (r: RankingResult<T>)
    modifies agent
    ensures |hyps| < 2 ==>
      && |r.ranked| == |hyps|
      && (forall k :: 0 <= k < |hyps| ==> r.ranked[k] == Unranked(hyps[k]))
      && r.rationale == NoRankingRationale && r.comparisons == []
    ensures |hyps| >= 2 ==>
      && r.comparisons == Tournament(|hyps|, Judge(reply))
      && r.ranked == RankedList(hyps, r.comparisons)
      && r.rationale == RankingRationale(r.ranked, rationaleReply)
    ensures r.iteration == iteration && r.agent == agent.name
    ensures agent.history == old(agent.history) + [BaseAgent.SuccessRecord(agent.name, timestamp, |inputText|, |render(r)|)]
    ensures BaseAgent.Successes(agent.history) == BaseAgent.Successes(old(agent.history)) + 1
  {
    if |hyps| < 2 {
      var passed := seq(|hyps|, k requires 0 <= k < |hyps| => Unranked(hyps[k]));
      r := RankingResult(passed, NoRankingRationale, [], iteration, agent.name);
    } else {
      var ranked, comps := RankHypotheses(hyps, reply);
      r := RankingResult(ranked, RankingRationale(ranked, rationaleReply), comps, iteration, agent.name);
    }
    agent.LogExecution(timestamp, inputText, render(r));
  }
}
