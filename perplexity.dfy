/** The Perplexity provider of the literature service: the line scanner
    that turns a free-text answer into paper records, and the search that
    falls back to the mock papers. URL extraction by regular expression is
    an input: `urls` is the list of paper URLs found in the whole answer
    and `lineUrl(line)` the first paper URL in one line, if any. */
module Perplexity {
  import opened Wrappers
  import opened Text
  import opened Papers
  import opened Mocks

  /** `line.startswith(('1.', '2.', ..., '15.'))`: one to nine, or ten to
      fifteen, followed by a full stop. */
  predicate IsNumbered(line: string) {
    (|line| >= 2 && '1' <= line[0] <= '9' && line[1] == '.')
    || (|line| >= 3 && line[0] == '1' && '0' <= line[1] <= '5' && line[2] == '.')
  }

  /** `IsNumbered` is the source's test against the fifteen prefixes
      "1." to "15.". */
  lemma NumberedMarkers(line: string)
    ensures IsNumbered(line) <==> exists k :: 1 <= k <= 15 && StartsWith(line, NatToString(k) + ".")
  {
    if IsNumbered(line) {
      if |line| >= 2 && '1' <= line[0] <= '9' && line[1] == '.' {
        var k := line[0] as int - '0' as int;
        assert NatToString(k) == [line[0]];
        assert line[..2] == NatToString(k) + ".";
      } else {
        var k := 10 + (line[1] as int - '0' as int);
        assert NatToString(k) == NatToString(1) + [line[1]];
        assert line[..3] == NatToString(k) + ".";
      }
    }
    if exists k :: 1 <= k <= 15 && StartsWith(line, NatToString(k) + ".") {
      var k :| 1 <= k <= 15 && StartsWith(line, NatToString(k) + ".");
      if k < 10 {
        assert (NatToString(k) + ".")[0] == DigitChar(k);
        assert (NatToString(k) + ".")[1] == '.';
      } else {
        assert NatToString(k) == NatToString(1) + [DigitChar(k - 10)];
        assert (NatToString(k) + ".")[0] == '1';
        assert (NatToString(k) + ".")[1] == DigitChar(k - 10);
        assert (NatToString(k) + ".")[2] == '.';
      }
    }
  }

  /** A line that opens a new paper. */
  predicate IsStart(line: string) {
    IsNumbered(line) || (StartsWith(line, "**") && ('.' in line || Contains(line, "Title:")))
  }

  /** The kinds of stripped line the scanner tells apart once a paper is
      open, in the order it tests them. */
  datatype LineKind = Blank | Start | AuthorsLine | JournalLine | YearLine | AbstractLine | OtherLine

  /** The kinds of line that name a field after a ':'. */
  predicate Labelled(k: LineKind) {
    k == AuthorsLine || k == JournalLine || k == YearLine || k == AbstractLine
  }

  function Classify(line: string): (k: LineKind)
    ensures k == Blank <==> line == ""
    ensures k == Start <==> line != "" && IsStart(line)
    ensures Labelled(k) ==> ':' in line
  {
    if line == "" then Blank
    else if IsStart(line) then Start
    else
      var low := Lower(line);
      if Contains(low, "author") && ':' in line then AuthorsLine
      else if Contains(low, "journal") && ':' in line then JournalLine
      else if Contains(low, "year") && ':' in line then YearLine
      else if (Contains(low, "abstract") || Contains(low, "summary")) && ':' in line then AbstractLine
      else OtherLine
  }

  /** The title of a start line: the number and "**" / "Title:" removed. */
  function TitleOf(line: string): string {
    var t := if IsNumbered(line) then Strip(AfterFirst(line, '.')) else line;
    Strip(Replace(Replace(t, "**", ""), "Title:", ""))
  }

  /** `line.split(':', 1)[1].strip()` */
  function FieldValue(line: string): string
    requires ':' in line
  {
    Strip(AfterFirst(line, ':'))
  }

  /** `[name.strip() for name in text.split(',')[:3]]` */
  function AuthorNames(text: string): (names: seq<string>)
    ensures 1 <= |names| <= 3
  {
    var parts := Take(Split(text, ','), 3);
    seq(|parts|, k requires 0 <= k < |parts| => Strip(parts[k]))
  }

  /** The scanner's loop variables: the finished papers, the open one and
      the position in the answer's URL list. */
  datatype ScanState = ScanState(papers: seq<Paper>, current: Option<Paper>, urlIndex: nat)

  const Initial := ScanState([], None, 0)

  /** The papers found so far, the open one included. */
  function Found(st: ScanState): seq<Paper> {
    st.papers + if st.current.Some? then [st.current.value] else []
  }

  /** A paper opened by a start line, with the next unused URL. */
  function Opened(title: string, url: string): (p: Paper)
    ensures p.source == "perplexity" && p.title == title && p.url == url && p.relevance == 0.9
  {
    NewPaper(title, "perplexity", "", [], "", "2024", url, 0.9)
  }

  /** A non-start line of kind `kind` read into the open paper: the URL it
      names when the paper has none yet, then the field it labels. */
  function Annotate(p: Paper, kind: LineKind, line: string, lineUrl: string -> Option<string>): (q: Paper)
    requires Labelled(kind) ==> ':' in line
    ensures q.source == p.source && q.title == p.title && q.relevance == p.relevance
    ensures p.url != "" ==> q.url == p.url
  {
    var p1 := if p.url == "" && lineUrl(line).Some? then p.(url := lineUrl(line).value) else p;
    match kind
    case AuthorsLine => p1.(authors := AuthorNames(FieldValue(line)))
    case JournalLine => p1.(journal := FieldValue(line))
    case YearLine => if AllDigits(FieldValue(line)) then p1.(year := FieldValue(line)) else p1
    case AbstractLine => p1.(summary := FieldValue(line))
    case _ => if |line| > 50 && p1.summary == "" then p1.(summary := line) else p1
  }

  /** One iteration of the line loop, on a stripped line of kind `kind`. */
  function Step(st: ScanState, kind: LineKind, line: string, urls: seq<string>,
                lineUrl: string -> Option<string>): ScanState
    requires Labelled(kind) ==> ':' in line
  {
    match kind
    case Blank => st
    case Start =>
      var url := if st.urlIndex < |urls| then urls[st.urlIndex] else "";
      var next := if st.urlIndex < |urls| then st.urlIndex + 1 else st.urlIndex;
      ScanState(Found(st), Some(Opened(TitleOf(line), url)), next)
    case _ =>
      match st.current
      case None => st
      case Some(p) => st.(current := Some(Annotate(p, kind, line, lineUrl)))
  }

  function Scan(lines: seq<string>, urls: seq<string>, lineUrl: string -> Option<string>): ScanState {
    if |lines| == 0 then Initial
    else
      var line := Strip(lines[|lines| - 1]);
      Step(Scan(lines[..|lines| - 1], urls, lineUrl), Classify(line), line, urls, lineUrl)
  }

  /** The placeholder paper for the `i`-th unmatched URL. */
  function UrlPaper(i: nat, url: string): (p: Paper)
    ensures p.source == "perplexity" && p.url == url && p.relevance == 0.7
  {
    NewPaper("Research Paper " + NatToString(i + 1), "perplexity",
             "Research paper found via literature search.", [], "", "2024", url, 0.7)
  }

  /** How many placeholder papers are added for the unused URLs. */
  function ExtraCount(found: nat, unused: nat): (n: nat)
    ensures found < 5 ==> n <= unused && found + n <= 10
  {
    if found >= 5 then 0
    else if unused < 10 - found then unused else 10 - found
  }

  /** The placeholder papers: `enumerate(urls[index:], start=len(papers))`
      up to the tenth paper, when there are unused URLs and fewer than five
      papers. */
  function Extras(found: nat, urls: seq<string>, index: nat): (ps: seq<Paper>)
    requires index <= |urls|
    ensures |ps| == ExtraCount(found, |urls| - index)
    ensures forall k :: 0 <= k < |ps| ==> ps[k] == UrlPaper(found + k, urls[index + k])
  {
    var n := ExtraCount(found, |urls| - index);
    seq(n, k requires 0 <= k < n => UrlPaper(found + k, urls[index + k]))
  }

  /** `_parse_perplexity_response` on the lines of an answer. */
  function ParseLines(lines: seq<string>, urls: seq<string>, lineUrl: string -> Option<string>): seq<Paper> {
    var st := Scan(lines, urls, lineUrl);
    UrlIndexBound(lines, urls, lineUrl);
    var found := Found(st);
    Take(found + Extras(|found|, urls, st.urlIndex), 15)
  }

  function ParsePerplexity(content: string, urls: seq<string>, lineUrl: string -> Option<string>): seq<Paper> {
    ParseLines(Split(content, '\n'), urls, lineUrl)
  }

  lemma ScanSnoc(lines: seq<string>, k: nat, urls: seq<string>, lineUrl: string -> Option<string>)
    requires k < |lines|
    ensures Scan(lines[..k + 1], urls, lineUrl)
      == Step(Scan(lines[..k], urls, lineUrl), Classify(Strip(lines[k])), Strip(lines[k]), urls, lineUrl)
  {
    assert lines[..k + 1][..k] == lines[..k];
  }

  /** The number of start lines among `lines`. */
  function Starts(lines: seq<string>): nat {
    if |lines| == 0 then 0
    else Starts(lines[..|lines| - 1]) + if Classify(Strip(lines[|lines| - 1])) == Start then 1 else 0
  }

  /** Every start line opens exactly one paper and nothing else does; the
      URL list is consumed one entry per paper. */
  lemma {:induction false} ScanCounts(lines: seq<string>, urls: seq<string>, lineUrl: string -> Option<string>)
    ensures |Found(Scan(lines, urls, lineUrl))| == Starts(lines)
    ensures Scan(lines, urls, lineUrl).urlIndex == if Starts(lines) < |urls| then Starts(lines) else |urls|
  {
    if |lines| > 0 {
      ScanCounts(lines[..|lines| - 1], urls, lineUrl);
    }
  }

  lemma UrlIndexBound(lines: seq<string>, urls: seq<string>, lineUrl: string -> Option<string>)
    ensures Scan(lines, urls, lineUrl).urlIndex <= |urls|
  {
    ScanCounts(lines, urls, lineUrl);
  }

  /** Every paper the scanner produces is tagged as a Perplexity paper. */
  lemma {:induction false} ScanSources(lines: seq<string>, urls: seq<string>, lineUrl: string -> Option<string>)
    ensures forall p :: p in Found(Scan(lines, urls, lineUrl)) ==> p.source == "perplexity"
  {
    if |lines| > 0 {
      ScanSources(lines[..|lines| - 1], urls, lineUrl);
    }
  }

  /** At most fifteen papers, all from Perplexity. */
  lemma ParseBounds(lines: seq<string>, urls: seq<string>, lineUrl: string -> Option<string>)
    ensures |ParseLines(lines, urls, lineUrl)| <= 15
    ensures forall p :: p in ParseLines(lines, urls, lineUrl) ==> p.source == "perplexity"
  {
    ScanSources(lines, urls, lineUrl);
    UrlIndexBound(lines, urls, lineUrl);
    var st := Scan(lines, urls, lineUrl);
    var all := Found(st) + Extras(|Found(st)|, urls, st.urlIndex);
    assert forall p :: p in all ==> p.source == "perplexity";
  }

  /** An answer with no start line yields only placeholder papers, one per
      URL up to ten. */
  lemma NoStartsOnlyUrls(lines: seq<string>, urls: seq<string>, lineUrl: string -> Option<string>)
    requires Starts(lines) == 0
    ensures |ParseLines(lines, urls, lineUrl)| == if |urls| < 10 then |urls| else 10
    ensures forall k :: 0 <= k < |ParseLines(lines, urls, lineUrl)| ==>
      ParseLines(lines, urls, lineUrl)[k] == UrlPaper(k, urls[k])
  {
    ScanCounts(lines, urls, lineUrl);
  }

  /** When there are at least as many URLs as start lines, the `k`-th
      opened paper is created with the `k`-th URL. */
  lemma {:induction false} OpenedWithUrl(lines: seq<string>, urls: seq<string>, lineUrl: string -> Option<string>)
    requires |lines| > 0 && Classify(Strip(lines[|lines| - 1])) == Start
    requires Starts(lines) <= |urls|
    ensures Scan(lines, urls, lineUrl).current == Some(Opened(TitleOf(Strip(lines[|lines| - 1])), urls[Starts(lines) - 1]))
  {
    ScanCounts(lines[..|lines| - 1], urls, lineUrl);
  }

  // ---------------------------------------------------------------------
  // The loop as the source writes it
  // ---------------------------------------------------------------------

  /** `_parse_perplexity_response`: the line loop with `current_paper` and
      `url_index`, then the placeholder loop, then the cut to fifteen. */
  method ParsePerplexityResponse(content: string, urls: seq<string>, lineUrl: string -> Option<string>)
    returns (papers: seq<Paper>)
    ensures papers == ParsePerplexity(content, urls, lineUrl)
    ensures |papers| <= 15
  {
    var lines := Split(content, '\n');
    var st := ScanLines(lines, urls, lineUrl);
    UrlIndexBound(lines, urls, lineUrl);
    papers := AppendUrlPapers(Found(st), urls, st.urlIndex);
    papers := Take(papers, 15);
  }

  /** The placeholder loop: `for i, url in enumerate(urls[index:],
      start=len(papers))`, stopping at the tenth paper; it only runs when
      URLs are left and fewer than five papers were found. */
  method AppendUrlPapers(found: seq<Paper>, urls: seq<string>, index: nat) returns (papers: seq<Paper>)
    requires index <= |urls|
    ensures papers == found + Extras(|found|, urls, index)
  {
    papers := found;
    if index < |urls| && |found| < 5 {
      var j := index;
      while j < |urls| && |found| + (j - index) < 10
        invariant index <= j <= |urls|
        invariant j - index <= ExtraCount(|found|, |urls| - index)
        invariant papers == found + Extras(|found|, urls, index)[..j - index]
      {
        papers := papers + [UrlPaper(|found| + (j - index), urls[j])];
        j := j + 1;
      }
      assert Extras(|found|, urls, index)[..j - index] == Extras(|found|, urls, index);
    } else {
      assert Extras(|found|, urls, index) == [];
    }
  }

  /** The loop over the answer's lines. */
  method ScanLines(lines: seq<string>, urls: seq<string>, lineUrl: string -> Option<string>) returns (st: ScanState)
    ensures st == Scan(lines, urls, lineUrl)
  {
    st := Initial;
    var k := 0;
    while k < |lines|
      invariant 0 <= k <= |lines|
      invariant st == Scan(lines[..k], urls, lineUrl)
    {
      ScanSnoc(lines, k, urls, lineUrl);
      var line := Strip(lines[k]);
      st := Step(st, Classify(line), line, urls, lineUrl);
      k := k + 1;
    }
    assert lines[..|lines|] == lines;
  }

  // ---------------------------------------------------------------------
  // search_academic
  // ---------------------------------------------------------------------

  /** `search_academic`: the mock without a key, when the request raises
      (`answer` is `None`) or when fewer than three papers are parsed;
      otherwise the first `limit` parsed papers. */
  function SearchAcademic(hasKey: bool, query: string, limit: nat, answer: Option<string>,
                          urls: seq<string>, lineUrl: string -> Option<string>): (ps: seq<Paper>)
    ensures |ps| <= limit
    ensures forall p :: p in ps ==> p.source == "perplexity"
    ensures !hasKey || answer.None? ==> ps == MockPerplexity(query, limit)
    ensures hasKey && answer.Some? ==>
      var parsed := ParsePerplexity(answer.value, urls, lineUrl);
      ps == if |parsed| < 3 then MockPerplexity(query, limit) else Take(parsed, limit)
  {
    if !hasKey then MockPerplexity(query, limit)
    else match answer {
      case None => MockPerplexity(query, limit)
      case Some(content) =>
        var parsed := ParsePerplexity(content, urls, lineUrl);
        ParseBounds(Split(content, '\n'), urls, lineUrl);
        if |parsed| < 3 then MockPerplexity(query, limit) else Take(parsed, limit)
    }
  }

  /** The search returns at least `min(limit, 3)` papers: never fewer than
      three unless `limit` is smaller. */
  lemma SearchAcademicNonEmpty(hasKey: bool, query: string, limit: nat, answer: Option<string>,
                               urls: seq<string>, lineUrl: string -> Option<string>)
    ensures |SearchAcademic(hasKey, query, limit, answer, urls, lineUrl)| >= if limit < 3 then limit else 3
  {
  }
}
