/** The reflection agent: the sectioned parser of a model review, the four
    quality dimensions, `execute` with its history record, and the ordering
    computed by `comparative_review`.
    Model replies are Options (None: the call raised); `float` is the
    oracle for Python's float(), None when it raises. */
module ReflectionAgent {
  import opened Wrappers
  import opened Text
  import opened Sorting
  import opened ClaudeService
  import BaseAgent

  /** The fixed texts the agent falls back on. */
  datatype Wording = FallbackReview | FallbackStrengths | FallbackWeaknesses | TooFewHypotheses | NoAnalysis

  function Message(w: Wording): string {
    match w
    case FallbackReview => "Unable to generate detailed review due to API limitations. Manual review recommended."
    case FallbackStrengths => "Hypothesis addresses the research goal"
    case FallbackWeaknesses => "Requires detailed scientific validation"
    case TooFewHypotheses => "Need at least 2 hypotheses for comparison"
    case NoAnalysis => "Comparative analysis could not be generated."
  }

  /** The review used when the model call raises. */
  const Fallback := ReflectionReview(0.5, Message(FallbackReview), Message(FallbackStrengths), Message(FallbackWeaknesses))

  /** `max(0.0, min(1.0, x))` */
  function Clamp(x: real): (r: real)
    ensures 0.0 <= r <= 1.0
    ensures 0.0 <= x <= 1.0 ==> r == x
    ensures x > 1.0 ==> r == 1.0
    ensures x < 0.0 ==> r == 0.0
  {
    if x > 1.0 then 1.0 else if x < 0.0 then 0.0 else x
  }

  /** A score text: clamped when it parses, 0.5 when float() raises. */
  function ParseScore(text: string, float: string -> Option<real>): (r: real)
    ensures 0.0 <= r <= 1.0
    ensures float(text).None? ==> r == 0.5
    ensures float(text).Some? && 0.0 <= float(text).value <= 1.0 ==> r == float(text).value
  {
    match float(text)
    case None => 0.5
    case Some(v) => Clamp(v)
  }

  // ---------------------------------------------------------------------
  // _review_hypothesis
  // ---------------------------------------------------------------------

  /** `current_section` */
  datatype Section = NoSection | ReviewSection | StrengthsSection | WeaknessesSection

  datatype ParseState = ParseState(score: real, review: string, strengths: string, weaknesses: string,
                                   section: Section)

  datatype ReflectionReview = ReflectionReview(score: real, review: string, strengths: string, weaknesses: string)

  const Initial := ParseState(0.5, "", "", "", NoSection)

  /** The accumulated text of a section. */
  function SectionText(st: ParseState, sec: Section): string
    requires sec != NoSection
  {
    match sec
    case ReviewSection => st.review
    case StrengthsSection => st.strengths
    case WeaknessesSection => st.weaknesses
  }

  /** The marker that opens a section. */
  function SectionKind(sec: Section): ReviewLine
    requires sec != NoSection
  {
    match sec
    case ReviewSection => ReviewTextLine
    case StrengthsSection => StrengthsLine
    case WeaknessesSection => WeaknessesLine
  }

  function MarkerLength(sec: Section): nat
    requires sec != NoSection
  {
    match sec
    case ReviewSection => 7
    case StrengthsSection => 10
    case WeaknessesSection => 11
  }

  /** Appends text to the open section; without one the text is dropped. */
  function Continue(st: ParseState, s: string): (r: ParseState)
    ensures r.score == st.score && r.section == st.section
    ensures forall sec :: sec != NoSection ==>
      SectionText(r, sec) == if sec == st.section then SectionText(st, sec) + s else SectionText(st, sec)
  {
    match st.section
    case NoSection => st
    case ReviewSection => st.(review := st.review + s)
    case StrengthsSection => st.(strengths := st.strengths + s)
    case WeaknessesSection => st.(weaknesses := st.weaknesses + s)
  }

  /** What one stripped line does to the parser's state. */
  function Step(st: ParseState, line: string, float: string -> Option<real>): ParseState {
    match ClassifyReviewLine(line)
    case ScoreLine => st.(score := ParseScore(Strip(line[6..]), float))
    case ReviewTextLine => st.(section := ReviewSection, review := Strip(line[7..]))
    case StrengthsLine => st.(section := StrengthsSection, strengths := Strip(line[10..]))
    case WeaknessesLine => st.(section := WeaknessesSection, weaknesses := Strip(line[11..]))
    case OtherLine => if line == "" then st else Continue(st, " " + line)
  }

  function Scan(lines: seq<string>, float: string -> Option<real>): ParseState {
    if |lines| == 0 then Initial
    else Step(Scan(lines[..|lines| - 1], float), Strip(lines[|lines| - 1]), float)
  }

  /** The review `_review_hypothesis` returns for a reply. */
  function ParseReflection(reply: Option<string>, float: string -> Option<real>): ReflectionReview {
    match reply
    case None => Fallback
    case Some(text) =>
      var st := Scan(Split(text, '\n'), float);
      ReflectionReview(st.score, Strip(st.review), Strip(st.strengths), Strip(st.weaknesses))
  }

  lemma ScanSnoc(lines: seq<string>, k: nat, float: string -> Option<real>)
    requires k < |lines|
    ensures Scan(lines[..k + 1], float) == Step(Scan(lines[..k], float), Strip(lines[k]), float)
  {
    assert lines[..k + 1][..k] == lines[..k];
  }

  /** `_review_hypothesis`: scans the reply with `current_section`. */
  method ReviewHypothesis(reply: Option<string>, float: string -> Option<real>) returns (r: ReflectionReview)
    ensures r == ParseReflection(reply, float)
  {
    if reply.None? {
      return Fallback;
    }
    var st := ScanLines(Split(reply.value, '\n'), float);
    r := ReflectionReview(st.score, Strip(st.review), Strip(st.strengths), Strip(st.weaknesses));
  }

  /** The loop over the reply's lines. */
  method ScanLines(lines: seq<string>, float: string -> Option<real>) returns (st: ParseState)
    ensures st == Scan(lines, float)
  {
    st := Initial;
    var k := 0;
    while k < |lines|
      invariant 0 <= k <= |lines|
      invariant st == Scan(lines[..k], float)
    {
      ScanSnoc(lines, k, float);
      st := Step(st, Strip(lines[k]), float);
      k := k + 1;
    }
    assert lines[..|lines|] == lines;
  }

  /** The score always lies in [0, 1], whatever the reply. */
  lemma {:induction false} ScoreInRange(lines: seq<string>, float: string -> Option<real>)
    ensures 0.0 <= Scan(lines, float).score <= 1.0
  {
    if |lines| > 0 {
      ScoreInRange(lines[..|lines| - 1], float);
    }
  }

  lemma ReviewScoreInRange(reply: Option<string>, float: string -> Option<real>)
    ensures 0.0 <= ParseReflection(reply, float).score <= 1.0
  {
    if reply.Some? {
      ScoreInRange(Split(reply.value, '\n'), float);
    }
  }

  /** Without a SCORE line the score is 0.5. */
  lemma {:induction false} NoScoreLineDefault(lines: seq<string>, float: string -> Option<real>)
    requires forall l :: 0 <= l < |lines| ==> ClassifyReviewLine(Strip(lines[l])) != ScoreLine
    ensures Scan(lines, float).score == 0.5
  {
    if |lines| > 0 {
      NoScoreLineDefault(lines[..|lines| - 1], float);
    }
  }

  /** The last SCORE line decides the score, clamped into [0, 1]. */
  lemma {:induction false} LastScoreLineWins(lines: seq<string>, k: nat, float: string -> Option<real>)
    requires k < |lines| && ClassifyReviewLine(Strip(lines[k])) == ScoreLine
    requires forall l :: k < l < |lines| ==> ClassifyReviewLine(Strip(lines[l])) != ScoreLine
    ensures Scan(lines, float).score == ParseScore(Strip(Strip(lines[k])[6..]), float)
    decreases |lines|
  {
    if k < |lines| - 1 {
      LastScoreLineWins(lines[..|lines| - 1], k, float);
    }
  }

  /** A one-line reply whose score is above 1, such as "SCORE: 1.7",
      gives the clamped score 1.0. */
  lemma OutOfRangeScoreClamped(line: string, v: real, float: string -> Option<real>)
    requires '\n' !in line && ClassifyReviewLine(Strip(line)) == ScoreLine
    requires float(Strip(Strip(line)[6..])) == Some(v) && v > 1.0
    ensures ParseReflection(Some(line), float).score == 1.0
  {
    SplitWithoutSeparator(line, '\n');
    var lines: seq<string> := [line];
    assert lines[..0] == [];
    assert Scan(lines, float) == Step(Initial, Strip(line), float);
  }

  /** Lines before the first section marker, or in a reply without one,
      are discarded: every section stays empty. */
  lemma {:induction false} NoMarkerNoText(lines: seq<string>, float: string -> Option<real>)
    requires forall l :: 0 <= l < |lines| ==>
      ClassifyReviewLine(Strip(lines[l])) == ScoreLine || ClassifyReviewLine(Strip(lines[l])) == OtherLine
    ensures var st := Scan(lines, float);
      st.section == NoSection && st.review == "" && st.strengths == "" && st.weaknesses == ""
  {
    if |lines| > 0 {
      NoMarkerNoText(lines[..|lines| - 1], float);
    }
  }

  /** The text a run of lines appends to an open section: each non-empty
      non-marker line, stripped, after one space. */
  function Continuation(lines: seq<string>): string {
    if |lines| == 0 then ""
    else Continuation(lines[..|lines| - 1]) + Appended(Strip(lines[|lines| - 1]))
  }

  /** What a line other than a section marker adds to the open section. */
  function Appended(line: string): string {
    if line != "" && ClassifyReviewLine(line) == OtherLine then " " + line else ""
  }

  lemma ContinuationSnoc(lines: seq<string>, k: nat)
    requires k < |lines| - 1
    ensures Continuation(lines[k + 1..]) ==
      Continuation(lines[..|lines| - 1][k + 1..]) + Appended(Strip(lines[|lines| - 1]))
  {
    var c := lines[k + 1..];
    assert c[..|c| - 1] == lines[..|lines| - 1][k + 1..];
    assert c[|c| - 1] == lines[|lines| - 1];
  }

  /** A SCORE line or a plain line keeps the open section and appends to it. */
  lemma StepKeepsSection(st: ParseState, line: string, sec: Section, float: string -> Option<real>)
    requires sec != NoSection && st.section == sec
    requires ClassifyReviewLine(line) == ScoreLine || ClassifyReviewLine(line) == OtherLine
    ensures Step(st, line, float).section == sec
    ensures SectionText(Step(st, line, float), sec) == SectionText(st, sec) + Appended(line)
  {
  }

  /** A section marker opens its section with the text after the marker. */
  lemma StepOpensSection(st: ParseState, line: string, sec: Section, float: string -> Option<real>)
    requires sec != NoSection && ClassifyReviewLine(line) == SectionKind(sec)
    ensures Step(st, line, float).section == sec
    ensures SectionText(Step(st, line, float), sec) == Strip(line[MarkerLength(sec)..])
  {
  }

  /** A section marker opens its section and replaces its text with the
      text after the marker; later lines, up to the next section marker,
      are appended, and SCORE lines leave the section open. */
  lemma {:induction false} SectionCollects(lines: seq<string>, k: nat, sec: Section, float: string -> Option<real>)
    requires sec != NoSection && k < |lines| && ClassifyReviewLine(Strip(lines[k])) == SectionKind(sec)
    requires forall l :: k < l < |lines| ==>
      ClassifyReviewLine(Strip(lines[l])) == ScoreLine || ClassifyReviewLine(Strip(lines[l])) == OtherLine
    ensures Scan(lines, float).section == sec
    ensures SectionText(Scan(lines, float), sec) ==
      Strip(Strip(lines[k])[MarkerLength(sec)..]) + Continuation(lines[k + 1..])
    decreases |lines|, 1
  {
    if k == |lines| - 1 {
      assert lines[k + 1..] == [];
      StepOpensSection(Scan(lines[..|lines| - 1], float), Strip(lines[k]), sec, float);
    } else {
      SectionCollectsNext(lines, k, sec, float);
    }
  }

  lemma {:induction false} SectionCollectsNext(lines: seq<string>, k: nat, sec: Section, float: string -> Option<real>)
    requires sec != NoSection && k < |lines| - 1 && ClassifyReviewLine(Strip(lines[k])) == SectionKind(sec)
    requires forall l :: k < l < |lines| ==>
      ClassifyReviewLine(Strip(lines[l])) == ScoreLine || ClassifyReviewLine(Strip(lines[l])) == OtherLine
    ensures Scan(lines, float).section == sec
    ensures SectionText(Scan(lines, float), sec) ==
      Strip(Strip(lines[k])[MarkerLength(sec)..]) + Continuation(lines[k + 1..])
    decreases |lines|, 0
  {
    var prev := lines[..|lines| - 1];
    assert prev[k] == lines[k];
    assert forall l :: k < l < |prev| ==> prev[l] == lines[l];
    SectionCollects(prev, k, sec, float);
    SectionCollectsStep(lines, k, sec, float);
  }

  lemma SectionCollectsStep(lines: seq<string>, k: nat, sec: Section, float: string -> Option<real>)
    requires sec != NoSection && k < |lines| - 1 && ClassifyReviewLine(Strip(lines[k])) == SectionKind(sec)
    requires ClassifyReviewLine(Strip(lines[|lines| - 1])) == ScoreLine
      || ClassifyReviewLine(Strip(lines[|lines| - 1])) == OtherLine
    requires Scan(lines[..|lines| - 1], float).section == sec
    requires SectionText(Scan(lines[..|lines| - 1], float), sec) ==
      Strip(Strip(lines[k])[MarkerLength(sec)..]) + Continuation(lines[..|lines| - 1][k + 1..])
    ensures Scan(lines, float).section == sec
    ensures SectionText(Scan(lines, float), sec) ==
      Strip(Strip(lines[k])[MarkerLength(sec)..]) + Continuation(lines[k + 1..])
  {
    var prev, last := lines[..|lines| - 1], Strip(lines[|lines| - 1]);
    var st := Scan(prev, float);
    var head := Strip(Strip(lines[k])[MarkerLength(sec)..]);
    assert Scan(lines, float) == Step(st, last, float);
    ContinuationSnoc(lines, k);
    StepKeepsSection(st, last, sec, float);
    AppendToSection(st, Step(st, last, float), sec, head, Continuation(prev[k + 1..]), Appended(last));
  }

  lemma AppendToSection(st: ParseState, st2: ParseState, sec: Section, head: string, c: string, a: string)
    requires sec != NoSection && SectionText(st, sec) == head + c
    requires SectionText(st2, sec) == SectionText(st, sec) + a
    ensures SectionText(st2, sec) == head + (c + a)
  {
    assert (head + c) + a == head + (c + a);
  }

  // ---------------------------------------------------------------------
  // _assess_quality_dimensions
  // ---------------------------------------------------------------------

  const Dimensions: seq<string> := ["novelty", "feasibility", "relevance", "specificity"]

  /** `float(response.strip().split()[0])`, clamped; 0.5 when the call
      raises, the reply has no token or the token does not parse. */
  function DimensionScore(reply: Option<string>, float: string -> Option<real>): (r: real)
    ensures 0.0 <= r <= 1.0
    ensures reply.None? ==> r == 0.5
  {
    match reply
    case None => 0.5
    case Some(text) =>
      var words := Words(Strip(text));
      if |words| == 0 then 0.5 else ParseScore(words[0], float)
  }

  /** The keys of `scores` are exactly `dims`, each scored from its own
      reply. */
  ghost predicate Scored(scores: map<string, real>, dims: seq<string>, reply: string -> Option<string>,
                         float: string -> Option<real>)
  {
    && (forall d :: d in scores <==> d in dims)
    && (forall d :: d in scores ==> scores[d] == DimensionScore(reply(d), float))
  }

  /** `_assess_quality_dimensions`: one model call per dimension. */
  method AssessQualityDimensions(reply: string -> Option<string>, float: string -> Option<real>)
    returns (scores: map<string, real>)
    ensures Scored(scores, Dimensions, reply, float)
    ensures forall d :: d in scores <==> d in Dimensions
    ensures forall d :: d in scores ==> scores[d] == DimensionScore(reply(d), float)
    ensures forall d :: d in scores ==> 0.0 <= scores[d] <= 1.0
  {
    scores := ScoreDimensions(Dimensions, reply, float);
  }

  /** The loop over the dimensions, one entry per dimension. */
  method ScoreDimensions(dims: seq<string>, reply: string -> Option<string>, float: string -> Option<real>)
    returns (scores: map<string, real>)
    ensures forall d :: d in scores <==> d in dims
    ensures forall d :: d in scores ==> scores[d] == DimensionScore(reply(d), float)
  {
    scores := map[];
    var i := 0;
    while i < |dims|
      invariant 0 <= i <= |dims|
      invariant forall d :: d in scores <==> d in dims[..i]
      invariant forall d :: d in scores ==> scores[d] == DimensionScore(reply(d), float)
    {
      var d := dims[i];
      assert dims[..i + 1] == dims[..i] + [d];
      scores := scores[d := DimensionScore(reply(d), float)];
      i := i + 1;
    }
    assert dims[..i] == dims;
  }

  /** Whatever surrounds it, the reply's first whitespace-separated token
      is the one parsed: "0.7", " 0.7\n", "0.7 because ..." all score "0.7". */
  lemma FirstTokenScores(lead: string, token: string, rest: string, float: string -> Option<real>)
    requires forall i :: 0 <= i < |lead| ==> IsSpace(lead[i])
    requires IsWord(token) && (rest == [] || IsSpace(rest[0]))
    ensures DimensionScore(Some(lead + token + rest), float) == ParseScore(token, float)
  {
    var t := Strip(lead + token + rest);
    StripKeepsWord(lead, token, rest);
    TakeWordPrefix(t, token);
    FirstWord(t);
  }

  /** `strip()` leaves the token at the front, followed by a space or nothing. */
  lemma StripKeepsWord(lead: string, token: string, rest: string)
    requires forall i :: 0 <= i < |lead| ==> IsSpace(lead[i])
    requires IsWord(token) && (rest == [] || IsSpace(rest[0]))
    ensures var t := Strip(lead + token + rest);
      |token| <= |t| && t[..|token|] == token && (|t| > |token| ==> IsSpace(t[|token|]))
  {
    var s := token + rest;
    assert lead + token + rest == lead + s;
    StripSpaces(lead, s);
    StripRightKeeps(token, rest);
  }

  /** `rstrip()` cannot cut into a word that a space or the end follows. */
  lemma StripRightKeeps(token: string, rest: string)
    requires IsWord(token) && (rest == [] || IsSpace(rest[0]))
    ensures var t := StripRight(token + rest);
      |token| <= |t| && t[..|token|] == token && (|t| > |token| ==> IsSpace(t[|token|]))
  {
    var s := token + rest;
    var n := |token|;
    assert !IsSpace(s[n - 1]);
    var t := StripRight(s);
    assert n <= |t|;
    assert t[..n] == s[..n];
    assert s[..n] == token;
  }

  /** The first word of a string that starts with a non-space. */
  lemma FirstWord(t: string)
    requires t != [] && !IsSpace(t[0])
    ensures |Words(t)| > 0 && Words(t)[0] == TakeWord(t)
  {
    assert StripLeft(t) == t;
  }

  /** Leading whitespace is what lstrip removes. */
  lemma {:induction false} StripSpaces(lead: string, s: string)
    requires forall i :: 0 <= i < |lead| ==> IsSpace(lead[i])
    requires s != [] && !IsSpace(s[0])
    ensures StripLeft(lead + s) == s
    decreases |lead|
  {
    if lead == [] {
      assert lead + s == s;
    } else {
      assert (lead + s)[1..] == lead[1..] + s;
      StripSpaces(lead[1..], s);
    }
  }

  lemma {:induction false} TakeWordPrefix(t: string, w: string)
    requires IsWord(w) && |w| <= |t| && t[..|w|] == w && (|t| > |w| ==> IsSpace(t[|w|]))
    ensures TakeWord(t) == w
    decreases |w|
  {
    if |w| > 1 {
      assert t[1..][..|w| - 1] == w[1..];
      TakeWordPrefix(t[1..], w[1..]);
    } else {
      assert t[0] == w[0];
    }
  }

  // ---------------------------------------------------------------------
  // execute
  // ---------------------------------------------------------------------

  /** The result of `execute` (the timestamp echo left out). */
  datatype Reflection = Reflection(review: string, score: real, strengths: string, weaknesses: string,
                                   qualityDimensions: map<string, real>, iteration: int, agent: string,
                                   hypothesisId: Option<string>)

  /** What `execute` returns for the given replies: the review fields of
      the parsed review, the four dimension scores, and the passed-through
      iteration, agent name and hypothesis id. */
  ghost predicate Reflects(result: Reflection, name: string, iteration: int, hypothesisId: Option<string>,
                     reviewReply: Option<string>, dimensionReply: string -> Option<string>,
                     float: string -> Option<real>)
  {
    var rv := ParseReflection(reviewReply, float);
    && result.review == rv.review && result.score == rv.score
    && result.strengths == rv.strengths && result.weaknesses == rv.weaknesses
    && Scored(result.qualityDimensions, Dimensions, dimensionReply, float)
    && result.iteration == iteration && result.agent == name && result.hypothesisId == hypothesisId
  }

  /** The body of `execute` up to the logging: the review and the quality
      dimensions of one hypothesis. */
  method Reflect(name: string, iteration: int, hypothesisId: Option<string>, reviewReply: Option<string>,
                 dimensionReply: string -> Option<string>, float: string -> Option<real>)
    returns (result: Reflection)
    ensures Reflects(result, name, iteration, hypothesisId, reviewReply, dimensionReply, float)
    ensures 0.0 <= result.score <= 1.0
  {
    var review := ReviewHypothesis(reviewReply, float);
    ReviewScoreInRange(reviewReply, float);
    var quality := AssessQualityDimensions(dimensionReply, float);
    result := Reflection(review.review, review.score, review.strengths, review.weaknesses,
                         quality, iteration, name, hypothesisId);
  }

  /** `execute`: the reflection of one hypothesis, with a successful
      execution recorded by the agent. `inputText` and `render` give
      `str(input_data)` and `str(result)`. */
  method Execute(agent: BaseAgent.Agent, timestamp: string, inputText: string, render: Reflection -> string,
                 iteration: int, hypothesisId: Option<string>, reviewReply: Option<string>,
                 dimensionReply: string -> Option<string>, float: string -> Option<real>)
    returns (result: Reflection)
    modifies agent
    ensures Reflects(result, agent.name, iteration, hypothesisId, reviewReply, dimensionReply, float)
    ensures 0.0 <= result.score <= 1.0
    ensures agent.history == old(agent.history) + [BaseAgent.SuccessRecord(agent.name, timestamp, |inputText|, |render(result)|)]
    ensures BaseAgent.Successes(agent.history) == BaseAgent.Successes(old(agent.history)) + 1
  {
    result := Reflect(agent.name, iteration, hypothesisId, reviewReply, dimensionReply, float);
    agent.LogExecution(timestamp, inputText, render(result));
  }

  // ---------------------------------------------------------------------
  // comparative_review
  // ---------------------------------------------------------------------

  datatype Comparative = Comparative(reviews: seq<Reflection>, analysis: string,
                                     rankedOrder: seq<nat>, bestIndex: nat)

  function ReviewScores(reviews: seq<Reflection>): (keys: seq<real>)
    ensures |keys| == |reviews| && forall i :: 0 <= i < |reviews| ==> keys[i] == reviews[i].score
  {
    seq(|reviews|, i requires 0 <= i < |reviews| => reviews[i].score)
  }

  /** `max(range(n), key=...)`: the first index with the largest key. */
  function MaxIndex(keys: seq<real>): (b: nat)
    requires |keys| > 0
    ensures b < |keys|
    ensures forall j :: 0 <= j < |keys| ==> keys[j] <= keys[b]
    ensures forall j :: 0 <= j < b ==> keys[j] < keys[b]
  {
    if |keys| == 1 then 0
    else
      var b := MaxIndex(keys[..|keys| - 1]);
      assert forall j :: 0 <= j < |keys| - 1 ==> keys[..|keys| - 1][j] == keys[j];
      if keys[|keys| - 1] > keys[b] then |keys| - 1 else b
  }

  /** `comparative_review`, given the reviews of the hypotheses in order and
      the reply to the comparative-analysis request. */
  /** What `comparative_review` returns for the finished reviews. */
  function ComparativeResult(reviews: seq<Reflection>, analysis: Option<string>): (r: Result<Comparative>)
    ensures r.Failure? <==> |reviews| < 2
    ensures r.Failure? ==> r.error == Message(TooFewHypotheses)
    ensures r.Success? ==>
      var keys := ReviewScores(reviews);
      && r.value.reviews == reviews
      && |r.value.rankedOrder| == |reviews| && Ordered(keys, r.value.rankedOrder)
      && (forall x: nat :: x in r.value.rankedOrder <==> x < |reviews|)
      && r.value.bestIndex < |reviews|
      && (forall j :: 0 <= j < |reviews| ==> keys[j] <= keys[r.value.bestIndex])
      && (forall j :: 0 <= j < r.value.bestIndex ==> keys[j] < keys[r.value.bestIndex])
  {
    if |reviews| < 2 then Failure(Message(TooFewHypotheses))
    else
      var keys := ReviewScores(reviews);
      Success(Comparative(reviews, analysis.GetOr(Message(NoAnalysis)), OrderDesc(keys), MaxIndex(keys)))
  }

  /** The success records that `execute` appends for the reviews, in order. */
  function ReviewRecords(name: string, texts: seq<string>, inputText: (string, int) -> string,
                         timestamp: nat -> string, render: Reflection -> string, reviews: seq<Reflection>)
    : seq<BaseAgent.ExecutionRecord>
    requires |reviews| == |texts|
  {
    seq(|texts|, k requires 0 <= k < |texts| =>
      BaseAgent.SuccessRecord(name, timestamp(k), |inputText(texts[k], k + 1)|, |render(reviews[k])|))
  }

  /** `comparative_review`: `execute` on each hypothesis text in turn, as
      iteration i + 1 with no hypothesis id, then the comparison of the
      reviews. Fewer than two hypotheses raise before any review is
      recorded. `inputText` gives `str(input_data)` for a text and an
      iteration; the model replies of the i-th review are parameters. */
  method ComparativeReview(agent: BaseAgent.Agent, texts: seq<string>, inputText: (string, int) -> string,
                           timestamp: nat -> string, render: Reflection -> string,
                           reviewReply: nat -> Option<string>, dimensionReply: nat -> string -> Option<string>,
                           float: string -> Option<real>, analysis: Option<string>)
    returns (r: Result<Comparative>)
    modifies agent
    ensures r.Failure? <==> |texts| < 2
    ensures r.Failure? ==> r.error == Message(TooFewHypotheses) && agent.history == old(agent.history)
    ensures r.Success? ==>
      && |r.value.reviews| == |texts|
      && r == ComparativeResult(r.value.reviews, analysis)
      && ReviewedAll(r.value.reviews, agent.name, reviewReply, dimensionReply, float)
      && agent.history == old(agent.history) + ReviewRecords(agent.name, texts, inputText, timestamp, render, r.value.reviews)
      && BaseAgent.Successes(agent.history) == BaseAgent.Successes(old(agent.history)) + |texts|
  {
    if |texts| < 2 {
      return Failure(Message(TooFewHypotheses));
    }
    var reviews := ReviewEach(agent, texts, inputText, timestamp, render, reviewReply, dimensionReply, float);
    r := ComparativeResult(reviews, analysis);
  }

  /** The loop of `comparative_review`: one `execute` per text, in order. */
  method ReviewEach(agent: BaseAgent.Agent, texts: seq<string>, inputText: (string, int) -> string,
                    timestamp: nat -> string, render: Reflection -> string,
                    reviewReply: nat -> Option<string>, dimensionReply: nat -> string -> Option<string>,
                    float: string -> Option<real>)
    returns (reviews: seq<Reflection>)
    modifies agent
    ensures |reviews| == |texts|
    ensures ReviewedAll(reviews, agent.name, reviewReply, dimensionReply, float)
    ensures agent.history == old(agent.history) + ReviewRecords(agent.name, texts, inputText, timestamp, render, reviews)
    ensures BaseAgent.Successes(agent.history) == BaseAgent.Successes(old(agent.history)) + |texts|
  {
    ghost var h0 := agent.history;
    reviews := [];
    var i := 0;
    while i < |texts|
      invariant 0 <= i <= |texts| && |reviews| == i
      invariant ReviewedAll(reviews, agent.name, reviewReply, dimensionReply, float)
      invariant agent.history == h0 + ReviewRecords(agent.name, texts[..i], inputText, timestamp, render, reviews)
      invariant BaseAgent.Successes(agent.history) == BaseAgent.Successes(h0) + i
    {
      ghost var done := ReviewRecords(agent.name, texts[..i], inputText, timestamp, render, reviews);
      var review := Execute(agent, timestamp(i), inputText(texts[i], i + 1), render, i + 1, None,
                            reviewReply(i), dimensionReply(i), float);
      ReviewedSnoc(reviews, review, agent.name, reviewReply, dimensionReply, float);
      RecordsSnoc(agent.name, texts, i, inputText, timestamp, render, reviews, review);
      AppendAssoc(h0, done, BaseAgent.SuccessRecord(agent.name, timestamp(i), |inputText(texts[i], i + 1)|, |render(review)|));
      reviews := reviews + [review];
      i := i + 1;
    }
    assert texts[..i] == texts;
  }

  /** The i-th review reflects the i-th replies, as iteration i + 1. */
  ghost predicate ReviewedAll(reviews: seq<Reflection>, name: string, reviewReply: nat -> Option<string>,
                              dimensionReply: nat -> string -> Option<string>, float: string -> Option<real>)
  {
    forall k :: 0 <= k < |reviews| ==>
      Reflects(reviews[k], name, k + 1, None, reviewReply(k), dimensionReply(k), float)
  }

  lemma ReviewedSnoc(reviews: seq<Reflection>, review: Reflection, name: string, reviewReply: nat -> Option<string>,
                     dimensionReply: nat -> string -> Option<string>, float: string -> Option<real>)
    requires ReviewedAll(reviews, name, reviewReply, dimensionReply, float)
    requires Reflects(review, name, |reviews| + 1, None, reviewReply(|reviews|), dimensionReply(|reviews|), float)
    ensures ReviewedAll(reviews + [review], name, reviewReply, dimensionReply, float)
  {
    var rs := reviews + [review];
    forall k | 0 <= k < |rs|
      ensures Reflects(rs[k], name, k + 1, None, reviewReply(k), dimensionReply(k), float)
    {
      if k < |reviews| {
        assert rs[k] == reviews[k];
      }
    }
  }

  lemma AppendAssoc(h0: seq<BaseAgent.ExecutionRecord>, done: seq<BaseAgent.ExecutionRecord>, rec: BaseAgent.ExecutionRecord)
    ensures (h0 + done) + [rec] == h0 + (done + [rec])
  {
  }

  lemma RecordsSnoc(name: string, texts: seq<string>, i: nat, inputText: (string, int) -> string,
                    timestamp: nat -> string, render: Reflection -> string, reviews: seq<Reflection>, review: Reflection)
    requires i < |texts| && |reviews| == i
    ensures ReviewRecords(name, texts[..i + 1], inputText, timestamp, render, reviews + [review])
      == ReviewRecords(name, texts[..i], inputText, timestamp, render, reviews)
         + [BaseAgent.SuccessRecord(name, timestamp(i), |inputText(texts[i], i + 1)|, |render(review)|)]
  {
  }

  /** The best hypothesis is the one ranked first. */
  lemma BestIsRankedFirst(reviews: seq<Reflection>, analysis: Option<string>)
    requires |reviews| >= 2
    ensures ComparativeResult(reviews, analysis).value.bestIndex ==
      ComparativeResult(reviews, analysis).value.rankedOrder[0]
  {
    var keys := ReviewScores(reviews);
    OrderDescHead(keys);
    var b, o0 := MaxIndex(keys), OrderDesc(keys)[0];
    assert !(b < o0) && !(o0 < b);
  }
}
