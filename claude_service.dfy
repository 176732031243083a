/** The parts of the language-model client that do not call the network: the
    hypothesis prompt prefix, the loose line parsers of `review_hypothesis`
    and `rank_hypotheses`, and `test_connection`. A model reply is an
    Option: None stands for the exception `generate_text` raises. */
module ClaudeService {
  import opened Wrappers
  import opened Text

  /** `generate_hypothesis`: the research goal is prefixed to the prompt. */
  function HypothesisPrompt(prompt: string, goal: string): string {
    "Research Goal: " + goal + "\n\n" + prompt
  }

  /** The prompt determines its goal and request: different inputs give
      different prompts. */
  lemma HypothesisPromptInjective(p1: string, g1: string, p2: string, g2: string)
    requires |g1| == |g2| && HypothesisPrompt(p1, g1) == HypothesisPrompt(p2, g2)
    ensures p1 == p2 && g1 == g2
  {
    var r := HypothesisPrompt(p1, g1);
    assert g1 == r[15..15 + |g1|] == g2;
    assert p1 == r[|r| - |p1|..] == p2;
  }

  // ---------------------------------------------------------------------
  // review_hypothesis
  // ---------------------------------------------------------------------

  datatype Review = Review(score: real, review: string, strengths: string, weaknesses: string)

  /** Which branch of the parser a line takes. Markers are matched at the
      start of the unstripped line; they exclude one another, so the order
      of the tests does not matter. */
  datatype ReviewLine = ScoreLine | ReviewTextLine | StrengthsLine | WeaknessesLine | OtherLine

  function ClassifyReviewLine(line: string): (k: ReviewLine)
    ensures k == ScoreLine ==> |line| >= 6
    ensures k == ReviewTextLine ==> |line| >= 7
    ensures k == StrengthsLine ==> |line| >= 10
    ensures k == WeaknessesLine ==> |line| >= 11
  {
    if StartsWith(line, "SCORE:") then ScoreLine
    else if StartsWith(line, "REVIEW:") then ReviewTextLine
    else if StartsWith(line, "STRENGTHS:") then StrengthsLine
    else if StartsWith(line, "WEAKNESSES:") then WeaknessesLine
    else OtherLine
  }

  /** A line is classed by a marker exactly when it starts with it. */
  lemma ClassifyReviewLineIff(line: string)
    ensures ClassifyReviewLine(line) == ScoreLine <==> StartsWith(line, "SCORE:")
    ensures ClassifyReviewLine(line) == ReviewTextLine <==> StartsWith(line, "REVIEW:")
    ensures ClassifyReviewLine(line) == StrengthsLine <==> StartsWith(line, "STRENGTHS:")
    ensures ClassifyReviewLine(line) == WeaknessesLine <==> StartsWith(line, "WEAKNESSES:")
  {
    ReviewMarkersDisjoint(line);
  }

  /** What one line does to the parsed review; `float` is the oracle for
      Python's float(). */
  function ReviewStep(r: Review, line: string, float: string -> Option<real>): Review {
    match ClassifyReviewLine(line)
    case ScoreLine => r.(score := float(Strip(line[6..])).GetOr(0.5))
    case ReviewTextLine => r.(review := Strip(line[7..]))
    case StrengthsLine => r.(strengths := Strip(line[10..]))
    case WeaknessesLine => r.(weaknesses := Strip(line[11..]))
    case OtherLine => r
  }

  function ReviewScan(lines: seq<string>, float: string -> Option<real>): Review {
    if |lines| == 0 then Review(0.5, "", "", "")
    else ReviewStep(ReviewScan(lines[..|lines| - 1], float), lines[|lines| - 1], float)
  }

  /** The parsed review for a reply, or the propagated exception. */
  function ParseReview(reply: Option<string>, float: string -> Option<real>): Result<Review> {
    match reply
    case None => Failure("Claude API error")
    case Some(text) => Success(ReviewScan(Split(text, '\n'), float))
  }

  /** `review_hypothesis`, parsing the reply line by line. */
  method ReviewHypothesis(reply: Option<string>, float: string -> Option<real>) returns (r: Result<Review>)
    ensures r == ParseReview(reply, float)
  {
    if reply.None? {
      return Failure("Claude API error");
    }
    var lines := Split(reply.value, '\n');
    var rev := Review(0.5, "", "", "");
    var k := 0;
    while k < |lines|
      invariant 0 <= k <= |lines|
      invariant rev == ReviewScan(lines[..k], float)
    {
      ReviewScanSnoc(lines, k, float);
      rev := ReadReviewLine(rev, lines[k], float);
      k := k + 1;
    }
    assert lines[..|lines|] == lines;
    r := Success(rev);
  }

  /** One pass of the loop, taking the text after the first ':' as the source does. */
  method ReadReviewLine(r: Review, line: string, float: string -> Option<real>) returns (r2: Review)
    ensures r2 == ReviewStep(r, line, float)
  {
    ClassifyReviewLineIff(line);
    r2 := r;
    if StartsWith(line, "SCORE:") {
      AfterMarker(line, "SCORE:", ':');
      r2 := r2.(score := float(Strip(AfterFirst(line, ':'))).GetOr(0.5));
    } else if StartsWith(line, "REVIEW:") {
      AfterMarker(line, "REVIEW:", ':');
      r2 := r2.(review := Strip(AfterFirst(line, ':')));
    } else if StartsWith(line, "STRENGTHS:") {
      AfterMarker(line, "STRENGTHS:", ':');
      r2 := r2.(strengths := Strip(AfterFirst(line, ':')));
    } else if StartsWith(line, "WEAKNESSES:") {
      AfterMarker(line, "WEAKNESSES:", ':');
      r2 := r2.(weaknesses := Strip(AfterFirst(line, ':')));
    }
  }

  /** The index of the last line starting with `marker`, if there is one. */
  function LastMarked(lines: seq<string>, marker: string): (r: Option<nat>)
    ensures r.Some? ==> (r.value < |lines| && StartsWith(lines[r.value], marker)
      && forall l :: r.value < l < |lines| ==> !StartsWith(lines[l], marker))
    ensures r.None? ==> forall l :: 0 <= l < |lines| ==> !StartsWith(lines[l], marker)
  {
    if |lines| == 0 then None
    else if StartsWith(lines[|lines| - 1], marker) then Some(|lines| - 1)
    else LastMarked(lines[..|lines| - 1], marker)
  }

  lemma LastTextSnoc(lines: seq<string>, marker: string, default: string)
    requires |lines| > 0
    ensures LastText(lines, marker, default) ==
      if StartsWith(lines[|lines| - 1], marker) then Strip(lines[|lines| - 1][|marker|..])
      else LastText(lines[..|lines| - 1], marker, default)
  {
  }

  /** The stripped text after `marker` on its last line, or `default`. */
  function LastText(lines: seq<string>, marker: string, default: string): string {
    match LastMarked(lines, marker)
    case None => default
    case Some(k) => Strip(lines[k][|marker|..])
  }

  /** The review read field by field: each field comes from the last line
      carrying its marker, the score defaulting to 0.5 both when no line
      carries SCORE and when the last one does not parse. No clamping. */
  function ReviewReference(lines: seq<string>, float: string -> Option<real>): Review {
    Review(
      match LastMarked(lines, "SCORE:")
        case None => 0.5
        case Some(k) => float(Strip(lines[k][6..])).GetOr(0.5),
      LastText(lines, "REVIEW:", ""),
      LastText(lines, "STRENGTHS:", ""),
      LastText(lines, "WEAKNESSES:", ""))
  }

  /** The four markers differ in their first two characters. */
  lemma ReviewMarkersDisjoint(line: string)
    ensures StartsWith(line, "SCORE:") ==>
      !StartsWith(line, "REVIEW:") && !StartsWith(line, "STRENGTHS:") && !StartsWith(line, "WEAKNESSES:")
    ensures StartsWith(line, "REVIEW:") ==> !StartsWith(line, "STRENGTHS:") && !StartsWith(line, "WEAKNESSES:")
    ensures StartsWith(line, "STRENGTHS:") ==> !StartsWith(line, "WEAKNESSES:")
  {
    if StartsWith(line, "SCORE:") {
      assert line[1] == 'C';
    }
    if StartsWith(line, "REVIEW:") || StartsWith(line, "STRENGTHS:") {
      assert line[0] != 'W';
    }
  }

  /** The scanning parser agrees with the field-by-field reading. */
  lemma ReviewScanIsReference(lines: seq<string>, float: string -> Option<real>)
    ensures ReviewScan(lines, float) == ReviewReference(lines, float)
  {
    ReviewScoreIsLast(lines, float);
    TextIsLast(lines, float, ReviewTextLine);
    TextIsLast(lines, float, StrengthsLine);
    TextIsLast(lines, float, WeaknessesLine);
  }

  lemma {:induction false} ReviewScoreIsLast(lines: seq<string>, float: string -> Option<real>)
    ensures ReviewScan(lines, float).score == ReviewReference(lines, float).score
  {
    if |lines| > 0 {
      var prev, line := lines[..|lines| - 1], lines[|lines| - 1];
      ReviewScoreIsLast(prev, float);
      ClassifyReviewLineIff(line);
      assert LastMarked(lines, "SCORE:") ==
        if StartsWith(line, "SCORE:") then Some(|prev|) else LastMarked(prev, "SCORE:");
    }
  }

  /** The marker of each text field. */
  function Marker(k: ReviewLine): string
    requires k != ScoreLine && k != OtherLine
  {
    match k
    case ReviewTextLine => "REVIEW:"
    case StrengthsLine => "STRENGTHS:"
    case WeaknessesLine => "WEAKNESSES:"
  }

  /** The text field a marker fills. */
  function Field(r: Review, k: ReviewLine): string
    requires k != ScoreLine && k != OtherLine
  {
    match k
    case ReviewTextLine => r.review
    case StrengthsLine => r.strengths
    case WeaknessesLine => r.weaknesses
  }

  /** Each text field is the stripped text of the last line with its marker,
      or empty when no line has it. */
  lemma {:induction false} TextIsLast(lines: seq<string>, float: string -> Option<real>, k: ReviewLine)
    requires k != ScoreLine && k != OtherLine
    ensures Field(ReviewScan(lines, float), k) == LastText(lines, Marker(k), "")
  {
    if |lines| > 0 {
      var prev, line := lines[..|lines| - 1], lines[|lines| - 1];
      TextIsLast(prev, float, k);
      TextStep(ReviewScan(prev, float), line, float, k);
      LastTextSnoc(lines, Marker(k), "");
    }
  }

  /** One line sets a text field exactly when it starts with the field's marker. */
  lemma TextStep(r: Review, line: string, float: string -> Option<real>, k: ReviewLine)
    requires k != ScoreLine && k != OtherLine
    ensures Field(ReviewStep(r, line, float), k) ==
      if StartsWith(line, Marker(k)) then Strip(line[|Marker(k)|..]) else Field(r, k)
  {
    ClassifyReviewLineIff(line);
  }

  /** The parsed score is taken as is, without clamping: a one-line reply
      "SCORE: 1.7" scores 1.7. */
  lemma ScoreNotClamped(text: string, v: real, float: string -> Option<real>)
    requires '\n' !in text && float(Strip(text)) == Some(v)
    ensures ParseReview(Some("SCORE:" + text), float) == Success(Review(v, "", "", ""))
  {
    var line := "SCORE:" + text;
    SplitWithoutSeparator(line, '\n');
    assert StartsWith(line, "SCORE:") && line[6..] == text;
    var lines: seq<string> := [line];
    assert lines[..0] == [];
    assert ReviewScan(lines, float) == ReviewStep(Review(0.5, "", "", ""), line, float);
  }

  /** A marker is not found after leading whitespace: an indented line
      changes nothing. */
  lemma IndentedMarkerIgnored(text: string, float: string -> Option<real>)
    requires '\n' !in text
    ensures ParseReview(Some(" " + text), float) == Success(Review(0.5, "", "", ""))
  {
    var line := " " + text;
    SplitWithoutSeparator(line, '\n');
    assert line[0] == ' ';
    assert !StartsWith(line, "SCORE:") && !StartsWith(line, "REVIEW:");
    assert !StartsWith(line, "STRENGTHS:") && !StartsWith(line, "WEAKNESSES:");
    var lines: seq<string> := [line];
    assert lines[..0] == [];
    assert ReviewScan(lines, float) == ReviewStep(Review(0.5, "", "", ""), line, float);
  }

  /** A one-line reply is a single line. */
  lemma SplitWithoutSeparator(s: string, sep: char)
    requires sep !in s
    ensures Split(s, sep) == [s]
  {
  }

  // ---------------------------------------------------------------------
  // rank_hypotheses
  // ---------------------------------------------------------------------

  datatype RankReply = RankReply(winner: string, reasoning: string)

  datatype RankLine = WinnerLine | ReasoningLine | PlainLine

  function ClassifyRankLine(line: string): (k: RankLine)
    ensures k == WinnerLine ==> |line| >= 7
    ensures k == ReasoningLine ==> |line| >= 10
  {
    if StartsWith(line, "WINNER:") then WinnerLine
    else if StartsWith(line, "REASONING:") then ReasoningLine
    else PlainLine
  }

  /** A line is classed by a marker exactly when it starts with it. */
  lemma ClassifyRankLineIff(line: string)
    ensures ClassifyRankLine(line) == WinnerLine <==> StartsWith(line, "WINNER:")
    ensures ClassifyRankLine(line) == ReasoningLine <==> StartsWith(line, "REASONING:")
  {
    RankMarkersDisjoint(line);
  }

  function RankStep(r: RankReply, line: string): RankReply {
    match ClassifyRankLine(line)
    case WinnerLine => r.(winner := Strip(line[7..]))
    case ReasoningLine => r.(reasoning := Strip(line[10..]))
    case PlainLine => r
  }

  function RankScan(lines: seq<string>): RankReply {
    if |lines| == 0 then RankReply("A", "")
    else RankStep(RankScan(lines[..|lines| - 1]), lines[|lines| - 1])
  }

  function ParseRank(reply: Option<string>): Result<RankReply> {
    match reply
    case None => Failure("Claude API error")
    case Some(text) => Success(RankScan(Split(text, '\n')))
  }

  /** `rank_hypotheses`, parsing the reply line by line. */
  method RankHypotheses(reply: Option<string>) returns (r: Result<RankReply>)
    ensures r == ParseRank(reply)
  {
    if reply.None? {
      return Failure("Claude API error");
    }
    var lines := Split(reply.value, '\n');
    var rr := RankReply("A", "");
    var k := 0;
    while k < |lines|
      invariant 0 <= k <= |lines|
      invariant rr == RankScan(lines[..k])
    {
      RankScanSnoc(lines, k);
      rr := ReadRankLine(rr, lines[k]);
      k := k + 1;
    }
    assert lines[..|lines|] == lines;
    r := Success(rr);
  }

  method ReadRankLine(r: RankReply, line: string) returns (r2: RankReply)
    ensures r2 == RankStep(r, line)
  {
    ClassifyRankLineIff(line);
    r2 := r;
    if StartsWith(line, "WINNER:") {
      AfterMarker(line, "WINNER:", ':');
      r2 := r2.(winner := Strip(AfterFirst(line, ':')));
    } else if StartsWith(line, "REASONING:") {
      AfterMarker(line, "REASONING:", ':');
      r2 := r2.(reasoning := Strip(AfterFirst(line, ':')));
    }
  }

  /** The winner is the stripped text of the last WINNER line, unvalidated,
      or "A" when there is none; the reasoning comes only from the last
      REASONING line. */
  lemma RankScanIsReference(lines: seq<string>)
    ensures RankScan(lines) == RankReply(LastText(lines, "WINNER:", "A"), LastText(lines, "REASONING:", ""))
  {
    RankFieldIsLast(lines, WinnerLine);
    RankFieldIsLast(lines, ReasoningLine);
  }

  function RankMarker(k: RankLine): string
    requires k != PlainLine
  {
    match k
    case WinnerLine => "WINNER:"
    case ReasoningLine => "REASONING:"
  }

  function RankField(r: RankReply, k: RankLine): string
    requires k != PlainLine
  {
    match k
    case WinnerLine => r.winner
    case ReasoningLine => r.reasoning
  }

  /** The default of a field no line sets. */
  function RankDefault(k: RankLine): string
    requires k != PlainLine
  {
    match k
    case WinnerLine => "A"
    case ReasoningLine => ""
  }

  /** Each field is the stripped text of the last line with its marker. */
  lemma {:induction false} RankFieldIsLast(lines: seq<string>, k: RankLine)
    requires k != PlainLine
    ensures RankField(RankScan(lines), k) == LastText(lines, RankMarker(k), RankDefault(k))
  {
    if |lines| > 0 {
      var prev, line := lines[..|lines| - 1], lines[|lines| - 1];
      RankFieldIsLast(prev, k);
      RankFieldStep(RankScan(prev), line, k);
      LastTextSnoc(lines, RankMarker(k), RankDefault(k));
    }
  }

  /** One line sets a field exactly when it starts with the field's marker. */
  lemma RankFieldStep(r: RankReply, line: string, k: RankLine)
    requires k != PlainLine
    ensures RankField(RankStep(r, line), k) ==
      if StartsWith(line, RankMarker(k)) then Strip(line[|RankMarker(k)|..]) else RankField(r, k)
  {
    ClassifyRankLineIff(line);
  }

  lemma RankMarkersDisjoint(line: string)
    ensures StartsWith(line, "WINNER:") ==> !StartsWith(line, "REASONING:")
  {
    if StartsWith(line, "WINNER:") {
      assert line[0] == 'W';
    }
  }

  lemma RankScanSnoc(lines: seq<string>, k: nat)
    requires k < |lines|
    ensures RankScan(lines[..k + 1]) == RankStep(RankScan(lines[..k]), lines[k])
  {
    assert lines[..k + 1][..k] == lines[..k];
  }

  lemma ReviewScanSnoc(lines: seq<string>, k: nat, float: string -> Option<real>)
    requires k < |lines|
    ensures ReviewScan(lines[..k + 1], float) == ReviewStep(ReviewScan(lines[..k], float), lines[k], float)
  {
    assert lines[..k + 1][..k] == lines[..k];
  }

  /** Any WINNER text is taken as is, even one naming neither hypothesis. */
  lemma WinnerNotValidated(text: string)
    requires '\n' !in text
    ensures ParseRank(Some("WINNER:" + text)) == Success(RankReply(Strip(text), ""))
  {
    var line := "WINNER:" + text;
    SplitWithoutSeparator(line, '\n');
    assert StartsWith(line, "WINNER:") && line[7..] == text;
    var lines: seq<string> := [line];
    assert lines[..0] == [];
    assert RankScan(lines) == RankStep(RankReply("A", ""), line);
  }

  /** `test_connection`: the test prompt's reply, or a raised exception. */
  function TestConnection(reply: Option<string>): (ok: bool)
    ensures ok <==> reply.Some? && reply.value != ""
  {
    match reply
    case None => false
    case Some(text) => |text| > 0
  }
}
