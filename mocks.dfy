/** The mock result generators the literature service falls back to
    whenever a provider has no key, raises or returns too little. */
module Mocks {
  import opened Wrappers
  import opened Text
  import opened Papers

  /** `query.split()[0] if query.split() else default` */
  function FirstWord(query: string, default: string): string {
    var w := Words(query);
    if |w| > 0 then w[0] else default
  }

  /** `' '.join(query.split()[-2:]) if len(query.split()) > 1 else 'scientific'` */
  function LastTwoWords(query: string): string {
    var w := Words(query);
    if |w| > 1 then Join(" ", TakeLast(w, 2)) else "scientific"
  }

  const PubmedPageUrl := "https://pubmed.ncbi.nlm.nih.gov/"

  /** The fixed pieces of wording of the mock records; each record's
      text interpolates the query between them. */
  datatype Wording =
      PerplexityTitle1
    | PerplexityAbstract1a
    | PerplexityAbstract1b
    | PerplexityJournal1
    | PerplexityTitle2
    | PerplexityAbstract2a
    | PerplexityAbstract2b
    | PerplexityJournal2
    | PerplexityTitle3
    | PerplexityAbstract3a
    | PerplexityAbstract3b
    | PerplexityTitle4
    | PerplexityAbstract4a
    | PerplexityAbstract4b
    | PerplexityJournal4
    | PerplexityTitle5
    | PerplexityAbstract5a
    | PerplexityAbstract5b
    | PubmedTitle1a
    | PubmedTitle1b
    | PubmedAbstract1a
    | PubmedAbstract1b
    | PubmedJournal1
    | PubmedTitle2
    | PubmedAbstract2a
    | PubmedAbstract2b
    | PubmedJournal2
    | PubmedTitle3
    | PubmedAbstract3a
    | PubmedAbstract3b
    | PubmedJournal3
    | PubmedTitle4
    | PubmedAbstract4a
    | PubmedAbstract4b
    | PubmedJournal4
    | PubmedTitle5
    | PubmedAbstract5a
    | PubmedAbstract5b
    | PubmedJournal5
    | ScholarTitleEnd
    | ScholarAbstractA
    | ScholarAbstractB
    | ScholarJournal

  function MockText(w: Wording): string {
    match w
    case PerplexityTitle1 => "Advanced computational methods for "
    case PerplexityAbstract1a => "This study explores innovative computational methods and theoretical frameworks relevant to "
    case PerplexityAbstract1b => ". Using advanced analytical approaches and systematic methodologies, we identified several promising research directions with novel conceptual foundations. The systematic analysis revealed unexpected insights and potential applications."
    case PerplexityJournal1 => "Nature Scientific Research"
    case PerplexityTitle2 => "Computational analysis of research methodologies for "
    case PerplexityAbstract2a => "We present a comprehensive computational analysis approach to identify effective methodologies for research applications in "
    case PerplexityAbstract2b => ". Our analysis revealed several approaches with previously unexplored potential, supported by systematic evaluation and theoretical analysis."
    case PerplexityJournal2 => "Journal of Computational Methods"
    case PerplexityTitle3 => "Machine learning-based research optimization for "
    case PerplexityAbstract3a => "This work demonstrates the application of deep learning models for systematic research optimization in "
    case PerplexityAbstract3b => ". We developed a novel algorithm that integrates multiple data sources and analytical frameworks to identify promising research opportunities."
    case PerplexityTitle4 => "Research evidence for methodological approaches in "
    case PerplexityAbstract4a => "A systematic review of research studies investigating methodological approaches for "
    case PerplexityAbstract4b => ". We analyzed 45 research studies and identified key success factors for scientific research in this area. Several approaches showed promising effectiveness profiles."
    case PerplexityJournal4 => "Clinical Medicine Reviews"
    case PerplexityTitle5 => "Network analysis approach to research optimization in "
    case PerplexityAbstract5a => "We applied network analysis principles to identify research optimization opportunities for "
    case PerplexityAbstract5b => ". The approach revealed novel methodological associations and highlighted key analytical pathways amenable to systematic investigation."
    case PubmedTitle1a => "Research methodologies in "
    case PubmedTitle1b => " research: A comprehensive review"
    case PubmedAbstract1a => "Advanced research methodologies have emerged as promising approaches for accelerating scientific development in "
    case PubmedAbstract1b => ". This comprehensive review summarizes current computational and experimental approaches, highlighting successful case studies and future directions in the field."
    case PubmedJournal1 => "Scientific Methods Research"
    case PubmedTitle2 => "Systematic analysis of research methodologies in "
    case PubmedAbstract2a => "Understanding research methodologies is crucial for successful scientific investigation in "
    case PubmedAbstract2b => ". We conducted a systematic analysis of established approaches using analytical frameworks and empirical data, identifying novel research opportunities and potential methodological advances."
    case PubmedJournal2 => "Systematic Research Methods"
    case PubmedTitle3 => "Empirical study of research methodologies for "
    case PubmedAbstract3a => "This empirical study evaluated the effectiveness and applicability of research methodologies in "
    case PubmedAbstract3b => " investigation. Results showed significant improvement in research outcomes with well-established methodological frameworks, supporting further methodological development."
    case PubmedJournal3 => "Scientific Research Journal"
    case PubmedTitle4 => "Computational research optimization using artificial intelligence for "
    case PubmedAbstract4a => "We developed an AI-powered platform for systematic research optimization in "
    case PubmedAbstract4b => ". The platform integrates multi-source data and analytical frameworks to predict research effectiveness and identify optimal methodological approaches for scientific investigations."
    case PubmedJournal4 => "Nature Scientific Computing"
    case PubmedTitle5 => "Mechanism-based research approach for "
    case PubmedAbstract5a => "This study presents a mechanism-based research strategy for "
    case PubmedAbstract5b => ", focusing on shared theoretical frameworks and methodological approaches. We identified several validated approaches with potential for application based on mechanistic rationale."
    case PubmedJournal5 => "Scientific Research Methods"
    case ScholarTitleEnd => " methodologies and applications"
    case ScholarAbstractA => "This comprehensive review examines current methodologies and applications in "
    case ScholarAbstractB => " research. We analyze recent developments, identify key challenges, and propose future research directions based on systematic analysis of the literature."
    case ScholarJournal => "Journal of Advanced Research"
  }

  /** The `k`-th of the five mock Perplexity papers. */
  function MockPerplexityPaper(k: nat, query: string): (p: Paper)
    requires k < 5
    ensures p.source == "perplexity" && p.url == ""
  {
    if k == 0 then
      NewPaper(MockText(PerplexityTitle1) + query + " research", "perplexity",
               MockText(PerplexityAbstract1a) + query + MockText(PerplexityAbstract1b),
               ["Smith, J.", "Johnson, A.", "Brown, K."], MockText(PerplexityJournal1), "2024", "", 0.95)
    else if k == 1 then
      NewPaper(MockText(PerplexityTitle2) + LastTwoWords(query) + " applications", "perplexity",
               MockText(PerplexityAbstract2a) + query + MockText(PerplexityAbstract2b),
               ["Wilson, M.", "Davis, R.", "Miller, S."], MockText(PerplexityJournal2), "2024", "", 0.92)
    else if k == 2 then
      NewPaper(MockText(PerplexityTitle3) + query, "perplexity",
               MockText(PerplexityAbstract3a) + query + MockText(PerplexityAbstract3b),
               ["Chen, L.", "Rodriguez, P.", "Kim, Y."], "Scientific Computing", "2023", "", 0.90)
    else if k == 3 then
      NewPaper(MockText(PerplexityTitle4) + query, "perplexity",
               MockText(PerplexityAbstract4a) + query + MockText(PerplexityAbstract4b),
               ["Thompson, R.", "Lee, H.", "Martinez, C."], MockText(PerplexityJournal4), "2023", "", 0.88)
    else
      NewPaper(MockText(PerplexityTitle5) + query, "perplexity",
               MockText(PerplexityAbstract5a) + query + MockText(PerplexityAbstract5b),
               ["Zhang, X.", "Anderson, B.", "White, D."], "Systems Research Methods", "2023", "", 0.86)
  }

  /** `_get_mock_perplexity_results`: at most `limit` of the five papers. */
  function MockPerplexity(query: string, limit: nat): (ps: seq<Paper>)
    ensures |ps| == if limit < 5 then limit else 5
    ensures forall p :: p in ps ==> p.source == "perplexity" && p.url == ""
    ensures limit >= 1 ==> ps != []
  {
    var n := if limit < 5 then limit else 5;
    seq(n, k requires 0 <= k < n => MockPerplexityPaper(k, query))
  }

  /** A PubMed mock record: its URL is the PubMed page of its id. */
  function PubmedPaper(pmid: string, title: string, summary: string, authors: seq<string>,
                       journal: string, year: string, relevance: real): (p: Paper)
    ensures p.source == "pubmed" && p.pmid == pmid
    ensures p.url == PubmedPageUrl + pmid + "/"
  {
    Paper(title, "pubmed", summary, authors, journal, year, PubmedPageUrl + pmid + "/",
          relevance, pmid, 0, None, None, None)
  }

  /** The `k`-th of the five mock PubMed records. */
  function MockPubmedPaper(k: nat, query: string): (p: Paper)
    requires k < 5
    ensures p.source == "pubmed" && p.url == PubmedPageUrl + p.pmid + "/"
  {
    if k == 0 then
      PubmedPaper("12345678", MockText(PubmedTitle1a) + FirstWord(query, "scientific") + MockText(PubmedTitle1b),
                  MockText(PubmedAbstract1a) + query + MockText(PubmedAbstract1b),
                  ["Lee, C.", "Wang, X.", "Taylor, P."], MockText(PubmedJournal1), "2024", 0.85)
    else if k == 1 then
      PubmedPaper("87654321", MockText(PubmedTitle2) + LastTwoWords(query) + " applications",
                  MockText(PubmedAbstract2a) + query + MockText(PubmedAbstract2b),
                  ["Garcia, L.", "Kim, Y.", "Anderson, B."], MockText(PubmedJournal2), "2024", 0.82)
    else if k == 2 then
      PubmedPaper("11223344", MockText(PubmedTitle3) + FirstWord(query, "scientific") + " investigation",
                  MockText(PubmedAbstract3a) + query + MockText(PubmedAbstract3b),
                  ["Johnson, M.", "Brown, S.", "Wilson, K."], MockText(PubmedJournal3), "2023", 0.90)
    else if k == 3 then
      PubmedPaper("55667788", MockText(PubmedTitle4) + query,
                  MockText(PubmedAbstract4a) + query + MockText(PubmedAbstract4b),
                  ["Patel, R.", "Liu, J.", "Thompson, A."], MockText(PubmedJournal4), "2023", 0.88)
    else
      PubmedPaper("99887766", MockText(PubmedTitle5) + query,
                  MockText(PubmedAbstract5a) + query + MockText(PubmedAbstract5b),
                  ["Adams, D.", "Chen, W.", "Miller, R."], MockText(PubmedJournal5), "2023", 0.84)
  }

  /** `_get_mock_pubmed_results`: at most `limit` of the five records. */
  function MockPubmed(query: string, limit: nat): (ps: seq<Paper>)
    ensures |ps| == if limit < 5 then limit else 5
    ensures forall p :: p in ps ==> p.source == "pubmed" && p.url == PubmedPageUrl + p.pmid + "/"
    ensures limit >= 1 ==> ps != []
  {
    var n := if limit < 5 then limit else 5;
    seq(n, k requires 0 <= k < n => MockPubmedPaper(k, query))
  }

  /** `_get_mock_scholar_results`: one review paper, cut to `limit`. */
  function MockScholar(query: string, limit: nat): (ps: seq<Paper>)
    ensures |ps| == if limit < 1 then 0 else 1
    ensures forall p :: p in ps ==> p.source == "scholar" && p.citations == 42
    ensures limit >= 1 ==> ps[0].title == "Comprehensive review of " + FirstWord(query, "research") + MockText(ScholarTitleEnd)
  {
    var p := Paper("Comprehensive review of " + FirstWord(query, "research") + MockText(ScholarTitleEnd), "scholar",
                   MockText(ScholarAbstractA) + query + MockText(ScholarAbstractB),
                   ["Academic, R.", "Scholar, G.", "Research, P."], MockText(ScholarJournal), "2024", "",
                   0.85, "", 42, None, None, None);
    Take([p], limit)
  }
}
