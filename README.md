# AI Co-Scientist core, modelled in Dafny

This project models the deterministic core of AI Co-Scientist, a multi-agent research assistant. For a research goal, a generation agent searches the literature and asks a language model for a hypothesis. A reflection agent reviews and scores each hypothesis. A ranking agent runs a pairwise tournament. An orchestrator repeats these three stages for a number of iterations and reports progress over WebSocket connections.

Everything behind a network call is an input of the model:
- every language-model reply, provider response and socket send outcome is a value or an oracle function;
- `None` (or a `false` outcome) stands for a call that raised;
- Python's `float()`, JSON decoding, XML parsing of PubMed records and regex URL extraction are oracles too.

What remains is proved about the code as written:
- the ranking tournament and its stable sort;
- the search planning, deduplication, prioritisation and provider fallbacks of the literature service;
- the line parsers of the reflection agent and the model client;
- the generation agent's formatting and fallbacks;
- the orchestration loop with its numbering, ranking and event trace;
- the WebSocket subscriber registry and its two broadcast algorithms;
- the execution history each agent's `execute` appends, including the one record per hypothesis of `comparative_review`;
- the storage manager's cache key and save paths.

Modules follow the source files:

- `Wrappers` (wrappers.dfy): Option and Result.
- `Text` (text.dfy): the Python string operations the core uses.
- `Sorting` (sorting.dfy): `sorted(..., reverse=True)` as a stable order of positions.
- `BaseAgent` (base_agent.dfy): backend/app/agents/base_agent.py.
- `RankingAgent` (ranking_agent.dfy): backend/app/agents/ranking_agent.py.
- `ReflectionAgent` (reflection_agent.dfy): backend/app/agents/reflection_agent.py.
- `GenerationAgent` (generation_agent.dfy): backend/app/agents/generation_agent.py.
- `ClaudeService` (claude_service.dfy): backend/app/services/claude_service.py.
- Six modules model backend/app/services/literature_service.py:
    - `Papers` (papers.dfy): paper records, `_deduplicate_papers` and `_prioritize_papers`.
    - `SearchPlan` (search_plan.dfy): variation, domain context, fallback plan and plan extraction.
    - `Mocks` (mocks.dfy): the three mock result generators.
    - `Providers` (providers.dfy): Serper mapping, the Scholar search, the PubMed query and batch loop.
    - `Perplexity` (perplexity.dfy): `_parse_perplexity_response` and `search_academic`.
    - `LiteratureService` (literature_service.dfy): `search_with_strategy`.
- `Orchestrator` (orchestrator.dfy): backend/app/services/orchestrator_service.py.
- `WebSocket` (websocket.dfy): backend/app/api/websocket.py.
- `Storage` (storage.dfy): backend/app/utils/storage.py.

Stateful code is modelled in the same form:
- An object whose methods update fields is a class with those fields: `BaseAgent.Agent`, `Orchestrator.AgentOrchestrator` and `WebSocket.AgentWebSocketManager`.
- The loops of the source are methods with `while` loops. Each method is proved equal to a specification function, and the properties are proved as lemmas about that function.

Scale and representation:
- Ranking points are integer half-points.
- Paper priority scores are integer tenths.
- Strings are sequences of characters, with Python's character classes for ASCII.

The specification functions the loops are proved equal to, and the lemmas read:
- `Papers.Dedup` (papers.dfy): the one-pass deduplication scan.
- `RankingAgent.Tournament`, `RankingAgent.RankedList` and `RankingAgent.Scan` (ranking_agent.dfy): the all-pairs comparisons, the ranked list, and the verdict read from a reply.
- `ReflectionAgent.ParseReflection` (reflection_agent.dfy): the review read from a reply.
- `ReflectionAgent.ComparativeResult` (reflection_agent.dfy): what `comparative_review` returns for finished reviews.
- `ClaudeService.ParseReview` and `ClaudeService.ParseRank` (claude_service.dfy): the model client's two reply parsers.
- `Perplexity.ParsePerplexity` (perplexity.dfy): the papers read from a Perplexity answer.
- `Providers.Found` (providers.dfy): the PubMed search with its broader retry.
- `LiteratureService.StrategyResult` (literature_service.dfy): the result of a search plan.
- `Orchestrator.Assigned`, `Orchestrator.SortedByRank`, `Orchestrator.Session` and `Orchestrator.FullTrace` (orchestrator.dfy): rank assignment, the re-sort by rank, a whole session, and its complete broadcast trace.
- `Storage.SavePath` (storage.dfy): the pathlib path a record is saved to.

## Model

| member | source | states |
|---|---|---|
| BaseAgent.Successes | backend/app/agents/base_agent.py:49 | the number of successful records never exceeds the number of records |
| BaseAgent.AllSucceededIff | backend/app/agents/base_agent.py:49 | the success count equals the history length exactly when every record is a success |
| BaseAgent.NoneSucceededIff | backend/app/agents/base_agent.py:49 | the success count is zero exactly when every record is an error |
| BaseAgent.Agent.constructor | backend/app/agents/base_agent.py:8-13 | a new agent keeps its name and starts with an empty history |
| BaseAgent.Agent.LogExecution | backend/app/agents/base_agent.py:20-30 | appends exactly one success record (agent name, timestamp, input and output sizes) and raises the success count by one |
| BaseAgent.Agent.LogError | backend/app/agents/base_agent.py:33-43 | appends exactly one error record carrying the error text and leaves the success count unchanged |
| BaseAgent.Agent.GetExecutionStats | backend/app/agents/base_agent.py:46-57 | totals match the history, the rate lies in [0,1] and is successes/total (0 for an empty history), and the last execution is the last record's timestamp or None |
| BaseAgent.FullRateIff | backend/app/agents/base_agent.py:55 | the success rate of a non-empty history is 1 exactly when no execution failed |
| Papers.TitleKey | backend/app/services/literature_service.py:541 | the title key is at most 50 characters long |
| Papers.DedupKey | backend/app/services/literature_service.py:538-541 | a paper with a non-empty lower-cased, stripped title is keyed by its first 50 characters (never empty); an untitled one by `untitled_<number kept so far>` |
| Papers.DeduplicatePapers | backend/app/services/literature_service.py:532-547 | the loop returns exactly the one-pass deduplication `Dedup` of its input |
| Papers.ScanConsistent | backend/app/services/literature_service.py:534-545 | the seen-key set always holds exactly the admission keys of the kept papers, and those keys are distinct |
| Papers.DedupSubsequence | backend/app/services/literature_service.py:537-545 | deduplication only drops papers; the survivors keep their input order |
| Papers.DedupCovers | backend/app/services/literature_service.py:541-545 | every titled input paper's title key is the key of some kept paper, so a dropped titled paper was shadowed by an earlier one |
| Papers.SeenKeysOrigin | backend/app/services/literature_service.py:541-544 | every seen key comes from some visited paper |
| Papers.FirstTitledKept | backend/app/services/literature_service.py:541-545 | the first paper with a given title key is kept (unless that key itself reads `untitled_...`) |
| Papers.DedupKeepsFirst | backend/app/services/literature_service.py:537-545 | the first input paper is always kept |
| Papers.DistinctKeysPass | backend/app/services/literature_service.py:537-545 | a list whose admission keys are already distinct passes through unchanged |
| Papers.DedupIdempotent | backend/app/services/literature_service.py:532-547 | deduplicating the output of deduplication changes nothing |
| Papers.DedupDistinctTitles | backend/app/services/literature_service.py:541-545 | no two titled papers of the output share a title key |
| Papers.BaseScore | backend/app/services/literature_service.py:553-558 | the base score (in tenths) is 30, 20 or 10; 30 exactly for "high", 10 exactly for "low", 20 for anything else including a missing priority |
| Papers.PriorityScore | backend/app/services/literature_service.py:552-570 | the priority score in tenths lies between 10 and 42 |
| Papers.Prioritize | backend/app/services/literature_service.py:572 | the output has the input's length and is non-increasing in priority score |
| Papers.PrioritizePermutes | backend/app/services/literature_service.py:572 | prioritisation is a permutation of its input |
| Papers.PrioritizeStable | backend/app/services/literature_service.py:572 | papers of equal score keep their input order (Python's sort is stable) |
| Papers.PrioritizeKeepsDistinct | backend/app/services/literature_service.py:572 | reordering keeps the title keys of titled papers distinct |
| Papers.HighPrimaryFirst | backend/app/services/literature_service.py:557-562 | a high-priority primary-search paper outranks every untagged paper |
| RankingAgent.CompareHypotheses | backend/app/agents/ranking_agent.py:124-154 | the verdict is the one parsed from the stripped lines of the reply, with the reasoning stripped; a failed call gives a tie with the fixed fallback reasoning |
| RankingAgent.ScanLines | backend/app/agents/ranking_agent.py:128-141 | the loop over the reply's lines computes the line-by-line scan `Scan` |
| RankingAgent.ReadLine | backend/app/agents/ranking_agent.py:133-141 | one line updates the verdict as the WINNER / REASONING / continuation branches say |
| RankingAgent.NoWinnerLineIsTie | backend/app/agents/ranking_agent.py:128-137 | with no WINNER line naming A, B or TIE (after upper-casing) the winner stays TIE |
| RankingAgent.LastWinnerLineWins | backend/app/agents/ranking_agent.py:134-137 | the last valid WINNER line decides the winner, whatever comes after it |
| RankingAgent.ReasoningNeedsMarker | backend/app/agents/ranking_agent.py:129-141 | without a REASONING line the reasoning stays empty: other lines are not collected |
| RankingAgent.ReasoningStaysEmpty | backend/app/agents/ranking_agent.py:140-141 | continuation lines are appended only while the reasoning is already non-empty |
| RankingAgent.EmptyReasoningDiscardsFollowing | backend/app/agents/ranking_agent.py:138-141 | a bare `REASONING:` line leaves the reasoning empty and the lines after it are discarded |
| RankingAgent.RankHypotheses | backend/app/agents/ranking_agent.py:47-88 | the comparisons are exactly the tournament over all pairs in loop order, and the ranked list is built from the final scores |
| RankingAgent.PlayRow | backend/app/agents/ranking_agent.py:56-75 | one pass of the inner loop records the comparisons of row i in order and keeps the score table equal to the points of the comparisons so far |
| RankingAgent.PlayPair | backend/app/agents/ranking_agent.py:57-75 | one comparison is recorded with both indices, winner and reasoning, and the scores and tie flags stay in step |
| RankingAgent.Award | backend/app/agents/ranking_agent.py:69-75 | a win gives the winner 1 point (2 half-points), any other verdict gives each side ½ point; nobody else changes |
| RankingAgent.RankedCopies | backend/app/agents/ranking_agent.py:81-86 | the loop builds the ranked copies exactly as `RankedList` |
| RankingAgent.PairsCount | backend/app/agents/ranking_agent.py:55-56 | there are n(n-1)/2 comparisons |
| RankingAgent.PairsAreAllPairsInOrder | backend/app/agents/ranking_agent.py:55-56 | the pairs are exactly those i < j < n, in lexicographic order |
| RankingAgent.TournamentPointsSum | backend/app/agents/ranking_agent.py:69-75 | every comparison hands out exactly one point, so the points add up to n(n-1)/2 |
| RankingAgent.PointsBound | backend/app/agents/ranking_agent.py:69-75 | each hypothesis scores at most n-1 points |
| RankingAgent.RankedListRanks | backend/app/agents/ranking_agent.py:82-84 | entry k carries rank k+1, so the ranks are exactly 1..n |
| RankingAgent.RankedListDescending | backend/app/agents/ranking_agent.py:78-85 | ranking scores are non-increasing along the ranked list |
| RankingAgent.RankedListComplete | backend/app/agents/ranking_agent.py:78-86 | every input hypothesis appears in the ranked list, with its own score |
| RankingAgent.RankedListDistinct | backend/app/agents/ranking_agent.py:78 | no input position is ranked twice, so the ranked list is a permutation of the input |
| RankingAgent.RankedListStable | backend/app/agents/ranking_agent.py:78 | hypotheses with equal scores keep their input order |
| RankingAgent.ThreeWayScenario | backend/app/agents/ranking_agent.py:69-75 | with A beating B, A tying C and B beating C the scores are 1.5, 1.0 and 0.5 |
| RankingAgent.ThreeWayOrder | backend/app/agents/ranking_agent.py:78 | that scenario ranks A, B, C |
| RankingAgent.PairsOfThree | backend/app/agents/ranking_agent.py:55-56 | three hypotheses give the pairs (0,1), (0,2), (1,2) |
| RankingAgent.PointsTextInjective | backend/app/agents/ranking_agent.py:172-189 | the rendered score (an int, or a float with .0 or .5) determines the score |
| RankingAgent.RankingRationale | backend/app/agents/ranking_agent.py:156-189 | a fixed text for at most one entry; otherwise the stripped reply, or on failure the fallback naming the top score |
| RankingAgent.Execute | backend/app/agents/ranking_agent.py:9-41 | fewer than 2 hypotheses: the input unchanged, no comparisons and the fixed rationale; otherwise the tournament, the ranked list and its rationale; the iteration and the agent name are passed through, exactly one success record is appended to the agent's history, and the success count rises by one |
| Sorting.OrderDesc | backend/app/agents/ranking_agent.py:78 | the stable descending order is a permutation of the indices in which each index comes before every later one with an equal or smaller key |
| Sorting.OrderedUnique | backend/app/agents/ranking_agent.py:78 | there is only one such order, so it is the one Python's stable sort produces |
| Sorting.OrderDescMultiset | backend/app/agents/ranking_agent.py:78 | permuting by that order keeps the elements |
| ReflectionAgent.Clamp | backend/app/agents/reflection_agent.py:97 | `max(0.0, min(1.0, x))` lies in [0,1], keeps values already there and maps values above 1 to 1 and below 0 to 0 |
| ReflectionAgent.ParseScore | backend/app/agents/reflection_agent.py:94-99 | a SCORE text gives a value in [0,1]: 0.5 when it does not parse, the value itself when it parses inside [0,1] |
| ReflectionAgent.Continue | backend/app/agents/reflection_agent.py:109-116 | a continuation line is appended to the open section only; score and other sections are untouched |
| ReflectionAgent.ReviewHypothesis | backend/app/agents/reflection_agent.py:80-133 | the review returned is the line scan of the reply with the three texts stripped, or the fixed fallback review (score 0.5) when the call fails |
| ReflectionAgent.ScanLines | backend/app/agents/reflection_agent.py:84-116 | the loop over the reply's lines computes the scan `Scan` |
| ReflectionAgent.ScoreInRange | backend/app/agents/reflection_agent.py:85-99 | the scanned score always lies in [0,1] |
| ReflectionAgent.ReviewScoreInRange | backend/app/agents/reflection_agent.py:80-133 | the returned score lies in [0,1], on the fallback path too |
| ReflectionAgent.NoScoreLineDefault | backend/app/agents/reflection_agent.py:85 | with no SCORE line the score is 0.5 |
| ReflectionAgent.LastScoreLineWins | backend/app/agents/reflection_agent.py:93-99 | the last SCORE line decides the score |
| ReflectionAgent.OutOfRangeScoreClamped | backend/app/agents/reflection_agent.py:96-97 | a one-line reply `SCORE: 1.7` (any value above 1) gives score 1.0 |
| ReflectionAgent.NoMarkerNoText | backend/app/agents/reflection_agent.py:90-109 | lines before any section marker are discarded: with no REVIEW, STRENGTHS or WEAKNESSES line all three texts stay empty |
| ReflectionAgent.StepKeepsSection | backend/app/agents/reflection_agent.py:93-116 | a SCORE line or other line keeps the open section; a non-empty other line is appended to it after one space |
| ReflectionAgent.StepOpensSection | backend/app/agents/reflection_agent.py:100-108 | a section marker opens its section and replaces its text with the stripped text after the marker |
| ReflectionAgent.SectionCollects | backend/app/agents/reflection_agent.py:100-116 | the last marker of a section, followed only by SCORE and other lines, leaves that section open with its marker text followed by every later non-empty non-marker line |
| ReflectionAgent.DimensionScore | backend/app/agents/reflection_agent.py:164-174 | a dimension score lies in [0,1] and is 0.5 when the call fails |
| ReflectionAgent.AssessQualityDimensions | backend/app/agents/reflection_agent.py:135-176 | the result has exactly the keys novelty, feasibility, relevance and specificity, each scored from its own reply and within [0,1] |
| ReflectionAgent.Reflect | backend/app/agents/reflection_agent.py:12-36 | the review, score, strengths and weaknesses of the parsed review, with the score in [0,1]; the quality map has exactly the four dimensions, each scored from its own reply; iteration, agent name and hypothesis id are passed through |
| ReflectionAgent.Execute | backend/app/agents/reflection_agent.py:9-40 | the result is the reflection `Reflect` promises, with the score in [0,1]; exactly one success record is appended to the agent's history and the success count rises by one |
| ReflectionAgent.ScoreDimensions | backend/app/agents/reflection_agent.py:147-174 | the loop over the dimension names gives a map whose keys are exactly those names, each scored from its own reply |
| ReflectionAgent.FirstTokenScores | backend/app/agents/reflection_agent.py:167-168 | whatever whitespace precedes it and whatever follows it after a whitespace character or the end, the first whitespace-separated token of the reply is the one parsed, so a bare `0.7` and `0.7 because ...` both score `0.7` |
| ReflectionAgent.MaxIndex | backend/app/agents/reflection_agent.py:201 | `max` returns an index holding the largest score, the first such index |
| ReflectionAgent.ComparativeResult | backend/app/agents/reflection_agent.py:179-202 | fewer than 2 hypotheses give the ValueError; otherwise the reviews are passed through, `ranked_order` is a stable descending permutation of the indices by score and `best_hypothesis_index` is the first index with the top score |
| ReflectionAgent.ReviewEach | backend/app/agents/reflection_agent.py:183-192 | one `execute` per hypothesis in order: the i-th review is the reflection of the i-th replies as iteration i + 1 with no hypothesis id, and the agent's history gains exactly one success record per hypothesis, in order |
| ReflectionAgent.ComparativeReview | backend/app/agents/reflection_agent.py:178-202 | fewer than 2 hypotheses raise the ValueError before any review, leaving the history unchanged; otherwise one `execute` per hypothesis appends its success record in order, and the result is `ComparativeResult` of those reviews |
| ReflectionAgent.BestIsRankedFirst | backend/app/agents/reflection_agent.py:200-201 | the best index is the first entry of the ranked order |
| ClaudeService.HypothesisPromptInjective | backend/app/services/claude_service.py:35 | the prompt `Research Goal: <goal>\n\n<prompt>` determines the prompt and, among goals of equal length, the goal |
| ClaudeService.ClassifyReviewLineIff | backend/app/services/claude_service.py:68-78 | a line is classed as SCORE, REVIEW, STRENGTHS or WEAKNESSES exactly when it starts with that marker (the line is not stripped) |
| ClaudeService.ReviewHypothesis | backend/app/services/claude_service.py:58-85 | the loop computes the line scan of the reply; a failed call propagates as a failure |
| ClaudeService.ReadReviewLine | backend/app/services/claude_service.py:67-78 | one line updates the review as the four marker branches say |
| ClaudeService.LastMarked | backend/app/services/claude_service.py:67-78 | finds the last line starting with a marker, or reports that none does |
| ClaudeService.ReviewScanIsReference | backend/app/services/claude_service.py:61-85 | the sequential scan equals the field-by-field reading: each field comes from the last line with its marker, score 0.5 when there is none or it does not parse |
| ClaudeService.ReviewScoreIsLast | backend/app/services/claude_service.py:62-72 | the score is taken from the last SCORE line |
| ClaudeService.TextIsLast | backend/app/services/claude_service.py:63-78 | each of review, strengths and weaknesses is the stripped text after its marker on the last line carrying that marker, or empty when no line does |
| ClaudeService.TextStep | backend/app/services/claude_service.py:67-78 | one line sets a text field exactly when it starts with that field's marker, and leaves it alone otherwise |
| ClaudeService.ScoreNotClamped | backend/app/services/claude_service.py:70 | a parsed score is returned as it is, without clamping (`SCORE: 1.7` gives 1.7) |
| ClaudeService.IndentedMarkerIgnored | backend/app/services/claude_service.py:67-68 | a line indented before its marker is ignored, because lines are not stripped |
| ClaudeService.ClassifyRankLineIff | backend/app/services/claude_service.py:111-114 | a line is classed as WINNER or REASONING exactly when it starts with that marker |
| ClaudeService.RankHypotheses | backend/app/services/claude_service.py:103-119 | the loop computes the line scan of the reply; a failed call propagates as a failure |
| ClaudeService.ReadRankLine | backend/app/services/claude_service.py:110-114 | one line updates the winner or the reasoning |
| ClaudeService.RankScanIsReference | backend/app/services/claude_service.py:106-119 | the winner is the text of the last WINNER line (default "A"), the reasoning that of the last REASONING line (default "") |
| ClaudeService.RankFieldIsLast | backend/app/services/claude_service.py:106-114 | the winner and the reasoning are each the stripped text after the marker on the last line carrying it, or their defaults "A" and "" |
| ClaudeService.RankFieldStep | backend/app/services/claude_service.py:110-114 | one line sets the winner or the reasoning exactly when it starts with that field's marker |
| ClaudeService.WinnerNotValidated | backend/app/services/claude_service.py:112 | any text after WINNER: is accepted as the winner, not only A or B |
| ClaudeService.TestConnection | backend/app/services/claude_service.py:121-127 | the connection test succeeds exactly when the call returns a non-empty reply |
| Storage.Filter | backend/app/utils/storage.py:86 | the filtered query keeps only letters, digits, spaces, hyphens and underscores, and is no longer than the query |
| Storage.SafeQuery | backend/app/utils/storage.py:86-87 | the cache key is at most 50 characters of letters, digits, hyphens and underscores |
| Storage.FilterKeeps | backend/app/utils/storage.py:86 | a query made only of kept characters passes the filter unchanged |
| Storage.DroppedCharIgnored | backend/app/utils/storage.py:86 | appending a dropped character does not change the key |
| Storage.DroppedInsideIgnored | backend/app/utils/storage.py:86 | a dropped character anywhere in the query does not change the key |
| Storage.TrailingSpaceIgnored | backend/app/utils/storage.py:86 | a trailing space is stripped before the spaces are replaced, so it does not change the key |
| Storage.SafeQueryIdempotent | backend/app/utils/storage.py:86-87 | deriving the key of a key gives the key back |
| Storage.SpaceBecomesUnderscore | backend/app/utils/storage.py:87 | an inner space becomes an underscore |
| Storage.CacheLiteratureSearch | backend/app/utils/storage.py:83-99 | the entry under the query's key holds the query, the results and their count; every other entry is kept |
| Storage.GetCachedLiterature | backend/app/utils/storage.py:101-124 | a lookup finds results exactly when an entry exists under the query's key, and returns that entry's results |
| Storage.CacheRoundTrip | backend/app/utils/storage.py:86-104 | a lookup with any query of the same key returns the results just cached |
| Storage.PunctuationSharesEntry | backend/app/utils/storage.py:86-103 | a query and the same query with a question mark share one cache entry |
| Storage.SaveResearchSession | backend/app/utils/storage.py:23-37 | a missing or empty id raises "Session must have an ID"; otherwise the text of the pathlib path `data_dir / "sessions" / f"{id}.json"` is returned |
| Storage.SaveHypothesis | backend/app/utils/storage.py:53-67 | a missing or empty id raises "Hypothesis must have an ID"; otherwise the text of the pathlib path `data_dir / "hypotheses" / f"{id}.json"` is returned |
| Storage.Components | backend/app/utils/storage.py:32 | the components of a path string are non-empty, never "." and never contain a slash |
| Storage.JoinPath | backend/app/utils/storage.py:32 | `p / name` is the parsed name when the name starts with a slash, and otherwise `p` with the name's components appended |
| Storage.SavePathPlacement | backend/app/utils/storage.py:32 | an id without a leading slash is saved under `<data>/<sub>/`; an id with one is saved at its own absolute path, whatever the data directory |
| Storage.DefaultDataDir | backend/app/utils/storage.py:11 | the default `Path("./data")` has the single component "data" and reads back as "data" |
| Storage.PlainSavePath | backend/app/utils/storage.py:32-37 | with a data directory of one relative component, a plain id is saved as `<dir>/<sub>/<id>.json` |
| Storage.DefaultSavePath | backend/app/utils/storage.py:32-37 | with the default data directory, a plain id is saved as `data/<sub>/<id>.json` |
| Storage.SavePathsDistinct | backend/app/utils/storage.py:32-62 | a session and a hypothesis with the same id get the same path, as a path and as returned text, exactly when the id starts with a slash |
| SearchPlan.StrategyIndex | backend/app/services/literature_service.py:154 | the strategy index is below 10 and congruent to the global hypothesis index modulo 10 (Python's `%` on a positive modulus) |
| SearchPlan.VariationInstructions | backend/app/services/literature_service.py:133-158 | the instructions open with the strategy chosen by the global index `(iteration - 1) * total + index` modulo 10 |
| SearchPlan.VariationCycles | backend/app/services/literature_service.py:137-155 | two hypotheses whose global indices agree modulo 10 get the same strategy |
| SearchPlan.VariationDistinct | backend/app/services/literature_service.py:137-158 | two hypotheses with different global indices get different instruction texts, because the text names the global number |
| SearchPlan.NumberDetermined | backend/app/services/literature_service.py:158 | the global number embedded between the fixed phrases of the instruction text is determined by the text |
| SearchPlan.GetDomainContext | backend/app/services/literature_service.py:46-131 | every context has three enhancement terms; an unknown domain and "medicine" both get the default context, every other known domain a different one |
| SearchPlan.DetectDomainContext | backend/app/services/literature_service.py:25-44 | without a model or when the call fails the default context is used; a reply that is not a known domain after stripping and lower-casing also gives the default |
| SearchPlan.Focus | backend/app/services/literature_service.py:349-355 | iteration 1 focuses on "primary research", iteration 2 on "mechanisms methods", every other iteration on "applications theory" |
| SearchPlan.PubmedExactQuery | backend/app/services/literature_service.py:374-381 | the first fallback PubMed query starts with the parenthesised hypothesis and contains " AND " |
| SearchPlan.PubmedExpandedQuery | backend/app/services/literature_service.py:382-389 | the second fallback PubMed query contains " AND " |
| SearchPlan.FallbackSearchStrategy | backend/app/services/literature_service.py:341-404 | the fallback plan has two Perplexity, two PubMed and one Scholar query; every PubMed query contains " AND "; the first PubMed query's keywords are the hypothesis's first five words; the concept map records the iteration's focus and the hypothesis |
| SearchPlan.FallbackLeadsWithHypothesis | backend/app/services/literature_service.py:360-397 | the first Perplexity query and the Scholar query of the fallback plan start with the hypothesis |
| SearchPlan.ExtractJson | backend/app/services/literature_service.py:323-329 | a JSON slice exists exactly when some '{' precedes some '}'; it then runs from the first '{' to the last '}' inclusive |
| SearchPlan.JsonBounds | backend/app/services/literature_service.py:323-325 | the first-'{' / last-'}' test of the source holds exactly when some '{' precedes some '}' |
| SearchPlan.ExtractSearchStrategy | backend/app/services/literature_service.py:160-339 | without a model the fallback plan with the default context; when a model call fails, no JSON slice is found or the slice does not decode, the fallback plan with the detected context; otherwise the decoded plan |
| SearchPlan.NoBracesFallsBack | backend/app/services/literature_service.py:323-335 | a strategy reply without any '{' always yields the fallback plan |
| Mocks.MockPerplexityPaper | backend/app/services/literature_service.py:918-973 | every mock Perplexity paper is sourced "perplexity" and has no url |
| Mocks.MockPerplexity | backend/app/services/literature_service.py:918-973 | the mock Perplexity list has `min(limit, 5)` papers, is non-empty for a positive limit, and every paper is sourced "perplexity" without url |
| Mocks.PubmedPaper | backend/app/services/literature_service.py:975-1035 | a PubMed record is sourced "pubmed", keeps its PMID and links to the PubMed page of that PMID |
| Mocks.MockPubmedPaper | backend/app/services/literature_service.py:975-1035 | every mock PubMed paper is sourced "pubmed" and links to the PubMed page of its own PMID |
| Mocks.MockPubmed | backend/app/services/literature_service.py:975-1035 | the mock PubMed list has `min(limit, 5)` papers, is non-empty for a positive limit, and every paper links to its PubMed page |
| Mocks.MockScholar | backend/app/services/literature_service.py:455-469 | the mock Scholar list has one paper for a positive limit and none otherwise, sourced "scholar" with 42 citations, titled after the query's first word (or "research") |
| Providers.SerperPaper | backend/app/services/literature_service.py:434-453 | a Serper result becomes a "scholar" paper of year 2024 and relevance 0.85, keeping its title ("Unknown Title" when missing) and its cited-by count (0 when missing), with one author entry |
| Providers.ParseSerper | backend/app/services/literature_service.py:434-453 | the first `min(limit, n)` organic results are converted one for one, in order |
| Providers.SearchGoogleScholar | backend/app/services/literature_service.py:407-432 | without an API key or when the request fails the mock Scholar list; otherwise the parsed Serper response; never more than `limit` papers, all "scholar" |
| Providers.QueryField | backend/app/services/literature_service.py:714-729 | the field is medical exactly when a medical trigger occurs in the lower-cased query, computing exactly when no medical but a computing trigger occurs, physics exactly when only a physics trigger occurs, general otherwise |
| Providers.EnhancePubmedQuery | backend/app/services/literature_service.py:705-735 | the enhanced query is the parenthesised query, " AND ", the field's OR-group and the date filter, and it counts as formatted |
| Providers.PubmedTerm | backend/app/services/literature_service.py:632-636 | a query already holding " AND ", " OR " or '(' is used as is; any other is enhanced; the term is always formatted |
| Providers.PubmedTermIdempotent | backend/app/services/literature_service.py:632-636 | choosing the search term twice gives the same term as choosing it once |
| Providers.BroaderTerm | backend/app/services/literature_service.py:659-662 | the broader term starts with the query's first three words joined by " OR ", in parentheses |
| Providers.Batch | backend/app/services/literature_service.py:677-679 | batch `i` is the next at most ten PMIDs from position `i`, non-empty while PMIDs remain |
| Providers.PubmedResult | backend/app/services/literature_service.py:672-703 | at most `limit` papers, never empty for a positive limit; the fetched papers cut to `limit` when some were found, the mock PubMed list otherwise (no PMIDs, an empty fetch or an error) |
| Providers.FetchBatches | backend/app/services/literature_service.py:676-697 | the batch loop computes the batch fetch specification `FetchFrom` from the first PMID |
| Providers.SearchPubmed | backend/app/services/literature_service.py:629-703 | the search returns the specified result of the term choice, the two ID searches and the batch fetches: at most `limit` papers, non-empty for a positive limit |
| Providers.FindPapers | backend/app/services/literature_service.py:640-697 | the ID search with the prepared term, its retry with the broader term when no IDs come back, and the batch loop compute `Found`: `None` when a call raises, no papers when both searches find no IDs |
| Providers.FetchSucceeds | backend/app/services/literature_service.py:678-697 | when every batch fetch answers, the batch loop does not fail |
| Providers.FetchExtends | backend/app/services/literature_service.py:694 | batch fetching only appends to the papers collected so far |
| Providers.FetchStopsAtLimit | backend/app/services/literature_service.py:694-697 | the loop stops after the batch that brings the collection to `limit` papers |
| Perplexity.NumberedMarkers | backend/app/services/literature_service.py:768 | a line is numbered exactly when it starts with one of the markers "1." to "15." |
| Perplexity.Classify | backend/app/services/literature_service.py:764-824 | a line is blank exactly when empty and opens a paper exactly when it is non-empty and starts with a number marker or with "**" holding '.' or "Title:"; every field line holds ':' |
| Perplexity.AuthorNames | backend/app/services/literature_service.py:811-813 | the authors value yields one to three names |
| Perplexity.Opened | backend/app/services/literature_service.py:789-798 | an opened paper is sourced "perplexity" with relevance 0.9 and keeps its cleaned title and assigned url |
| Perplexity.Annotate | backend/app/services/literature_service.py:799-824 | a field line never changes a paper's source, title or relevance, and keeps a url already assigned |
| Perplexity.UrlPaper | backend/app/services/literature_service.py:835-844 | a url-only paper is sourced "perplexity" with relevance 0.7 and keeps its url |
| Perplexity.ExtraCount | backend/app/services/literature_service.py:831-834 | with fewer than five parsed papers, the extra papers use at most the unused urls and bring the total to at most ten |
| Perplexity.Extras | backend/app/services/literature_service.py:830-844 | the extra papers are the url papers of the unused urls, numbered on from the parsed count, as many as `ExtraCount` allows |
| Perplexity.ScanCounts | backend/app/services/literature_service.py:762-828 | the scan finds one paper per paper-opening line, and hands out urls until they run out |
| Perplexity.UrlIndexBound | backend/app/services/literature_service.py:785-787 | the url index never passes the number of paper urls |
| Perplexity.ScanSources | backend/app/services/literature_service.py:789-828 | every paper the scan finds is sourced "perplexity" |
| Perplexity.ParseBounds | backend/app/services/literature_service.py:737-846 | the parser returns at most 15 papers, all sourced "perplexity" |
| Perplexity.NoStartsOnlyUrls | backend/app/services/literature_service.py:830-846 | content without paper-opening lines yields exactly the url papers of the first `min(n, 10)` urls |
| Perplexity.OpenedWithUrl | backend/app/services/literature_service.py:776-798 | a paper opened while urls remain gets the url whose position is its own number |
| Perplexity.ParsePerplexityResponse | backend/app/services/literature_service.py:737-846 | the imperative parser computes the functional parse of the content, at most 15 papers |
| Perplexity.AppendUrlPapers | backend/app/services/literature_service.py:830-844 | the url loop appends exactly the extra url papers |
| Perplexity.ScanLines | backend/app/services/literature_service.py:757-828 | the line loop computes the functional scan of the lines |
| Perplexity.SearchAcademic | backend/app/services/literature_service.py:574-627 | without a key or when the request fails the mock list; otherwise the parsed papers cut to `limit`, or the mock list when fewer than three were parsed; always at most `limit` papers, all "perplexity" |
| Perplexity.SearchAcademicNonEmpty | backend/app/services/literature_service.py:574-627 | the academic search returns at least `min(limit, 3)` papers |
| LiteratureService.Name | backend/app/services/literature_service.py:490-518 | every provider name used in a search type is non-empty |
| LiteratureService.TagAll | backend/app/services/literature_service.py:489-492 | tagging keeps the number of papers |
| LiteratureService.TagPapers | backend/app/services/literature_service.py:489-492 | the tagging loop gives every paper the query's search type, priority and query text |
| LiteratureService.RunQueries | backend/app/services/literature_service.py:483-522 | one provider's loop runs the first `cap` queries with the per-query limit and collects their tagged papers in query order |
| LiteratureService.RunPlan | backend/app/services/literature_service.py:480-530 | the three provider loops, deduplication, prioritisation and the cut compute the strategy result, at most `limit` papers |
| LiteratureService.SearchWithStrategy | backend/app/services/literature_service.py:471-530 | the search computes the strategy result of the extracted plan |
| LiteratureService.GatherTagged | backend/app/services/literature_service.py:483-494 | every collected paper is a search result of one of the run queries, tagged with that query |
| LiteratureService.CollectedTagged | backend/app/services/literature_service.py:480-522 | every collected paper is tagged with a query among the first three Perplexity, three PubMed and two Scholar queries |
| LiteratureService.GatherBound | backend/app/services/literature_service.py:483-494 | a provider loop collects at most (queries run) times (per-query limit) papers |
| LiteratureService.CollectedBound | backend/app/services/literature_service.py:484-522 | with the per-query limits respected, at most 3*5 + 3*5 + 2*3 = 36 papers are collected |
| LiteratureService.GatherUsesLimit | backend/app/services/literature_service.py:486 | a provider loop depends only on the search results at the per-query limit |
| LiteratureService.ResultDependsOnCaps | backend/app/services/literature_service.py:484-522 | queries past the caps (3, 3, 2) and results at other limits do not change the result |
| LiteratureService.ResultFromCollected | backend/app/services/literature_service.py:524-530 | the result has at most `limit` papers, is non-increasing in priority score and holds only collected papers |
| LiteratureService.ResultDistinctTitles | backend/app/services/literature_service.py:524-530 | no two titled papers of the result share a title key |
| LiteratureService.ResultNonEmpty | backend/app/services/literature_service.py:497-530 | with a positive limit and a PubMed query planned, the result is non-empty, because PubMed always answers |
| GenerationAgent.CollectContents | backend/app/agents/generation_agent.py:33-38 | one content string per existing hypothesis, in order |
| GenerationAgent.CollectExistingPapers | backend/app/agents/generation_agent.py:66-71 | the loop collects exactly the existing-papers specification: each hypothesis's literature sources, else its literature used |
| GenerationAgent.ExistingPapersAppend | backend/app/agents/generation_agent.py:66-71 | collecting over two lists of hypotheses is the concatenation of collecting over each |
| GenerationAgent.ExistingPapersFrom | backend/app/agents/generation_agent.py:66-71 | every collected paper comes from one of the existing hypotheses |
| GenerationAgent.MockGoalPaper | backend/app/agents/generation_agent.py:134-143 | the goal mock paper is sourced "mock" and titled after the research goal |
| GenerationAgent.Combine | backend/app/agents/generation_agent.py:115-146 | the combined list has between 1 and 15 papers |
| GenerationAgent.FallbackLiteratureSearch | backend/app/agents/generation_agent.py:100-146 | the fallback search returns the combined results of both searches, between 1 and 15 papers |
| GenerationAgent.FallbackOrder | backend/app/agents/generation_agent.py:115-146 | with no results the list is the one mock paper; otherwise it is the first `min(n, 15)` of the Perplexity results followed by the PubMed results, and 15 Perplexity results fill it alone |
| GenerationAgent.SearchLiterature | backend/app/agents/generation_agent.py:60-98 | the strategic search's result when it answers, the fallback search when it raises |
| GenerationAgent.Shorten | backend/app/agents/generation_agent.py:182 | an abstract of at most 200 characters is kept; a longer one is cut to 200 characters followed by "..." |
| GenerationAgent.SummarizeLiterature | backend/app/agents/generation_agent.py:168-186 | one summary line per paper for the first `min(n, 8)` papers, in order |
| GenerationAgent.HistoryLastThree | backend/app/agents/generation_agent.py:191-193 | only the last three existing hypotheses appear in the history summary |
| GenerationAgent.HistoryShort | backend/app/agents/generation_agent.py:191-193 | a history of one to three hypotheses lists each of them as a "- " line |
| GenerationAgent.TemplateShape | backend/app/agents/generation_agent.py:246-256 | a template that embeds the goal mentions the goal and ends with its closing note |
| GenerationAgent.FallbackShape | backend/app/agents/generation_agent.py:246-256 | the fallback hypothesis mentions the goal and ends with the fallback note |
| GenerationAgent.Accept | backend/app/agents/generation_agent.py:234-256 | a reply whose stripped text has at least 100 characters is used stripped; a missing or shorter reply gives the fallback |
| GenerationAgent.Execute | backend/app/agents/generation_agent.py:13-52 | the result keeps the first eight papers of the literature search, the accepted hypothesis text, the iteration, the goal and the agent's name, exactly one success record is appended to the agent's history, and the success count rises by one |
| Orchestrator.TrailingDigits | backend/app/services/orchestrator_service.py:74 | the trailing digit run of an id is no longer than the id |
| Orchestrator.TrailingDigitsAfter | backend/app/services/orchestrator_service.py:74 | after an underscore followed by digits, the trailing digit run is exactly those digits |
| Orchestrator.HypIdSerial | backend/app/services/orchestrator_service.py:74 | two equal hypothesis ids `hyp_<session>_<iteration>_<serial>` carry the same serial number |
| Orchestrator.SameIdsNumbered | backend/app/services/orchestrator_service.py:96-105 | updating the other fields of the hypotheses keeps their ids distinct and numbered |
| Orchestrator.GeneratedShape | backend/app/services/orchestrator_service.py:62-82 | a successful generation phase makes one hypothesis per request; request `j` sees the earlier hypotheses plus those made before it this iteration, and hypothesis `j` gets serial `len(hypotheses) + j`, rank None, score 0.0 and an empty review |
| Orchestrator.GeneratedStaysFailed | backend/app/services/orchestrator_service.py:63-71 | once a generation call has raised, no later step of the loop succeeds |
| Orchestrator.GeneratedNumbered | backend/app/services/orchestrator_service.py:62-82 | the generated hypotheses extend a distinctly numbered list to one still distinctly numbered |
| Orchestrator.GeneratePhase | backend/app/services/orchestrator_service.py:62-82 | the generation loop computes the generation phase specification |
| Orchestrator.Reviewed | backend/app/services/orchestrator_service.py:96-105 | the reflection phase succeeds exactly when every reflection call answers; it then replaces each hypothesis's review and score and nothing else |
| Orchestrator.ReflectPhase | backend/app/services/orchestrator_service.py:96-105 | the reflection loop computes the reflection phase specification |
| Orchestrator.RankingInput | backend/app/services/orchestrator_service.py:124-130 | the ranking input lists id, content and score of every hypothesis, in order |
| Orchestrator.FirstWithId | backend/app/services/orchestrator_service.py:142-145 | the search finds the first hypothesis with the id, or reports that none has it |
| Orchestrator.AssignedRanks | backend/app/services/orchestrator_service.py:141-145 | with distinct ids, each hypothesis's rank becomes `RankOf` of its id in the ranked list (one plus its last position there), or stays as it was |
| Orchestrator.RankOfDistinct | backend/app/services/orchestrator_service.py:141-144 | in a list of distinct ids, the id at position `p` gets rank `p + 1` |
| Orchestrator.RankOfAbsent | backend/app/services/orchestrator_service.py:141-145 | an id missing from the ranked list keeps its previous rank |
| Orchestrator.RankFirst | backend/app/services/orchestrator_service.py:142-145 | the inner loop sets the rank of the first hypothesis with the id |
| Orchestrator.AssignRanks | backend/app/services/orchestrator_service.py:141-145 | the outer loop computes the rank assignment specification |
| Orchestrator.RankKeys | backend/app/services/orchestrator_service.py:148 | the sort keys list the ranks of all hypotheses, negated |
| Orchestrator.AllRanked | backend/app/services/orchestrator_service.py:148 | a list passes the rank check only when every hypothesis has a rank |
| Orchestrator.AllRankedWhenRanked | backend/app/services/orchestrator_service.py:148 | a list where every hypothesis has a rank passes the rank check |
| Orchestrator.SortedByRankFails | backend/app/services/orchestrator_service.py:148 | sorting by rank fails (Python raises TypeError on None) exactly when some hypothesis has no rank |
| Orchestrator.SortedByRankOrder | backend/app/services/orchestrator_service.py:148 | a successful sort is a permutation of its input in non-decreasing rank |
| Orchestrator.RanksByPosition | backend/app/services/orchestrator_service.py:141-145 | when every id is ranked and the ranked ids are distinct, each hypothesis's rank is one plus the position of its id |
| Orchestrator.SortedRanksIncrease | backend/app/services/orchestrator_service.py:148 | distinct ranks sort into strictly increasing order, keeping only input hypotheses |
| Orchestrator.SortedByDistinctRanks | backend/app/services/orchestrator_service.py:148 | distinct ranks from 1 to n sort so that the hypothesis at position `k` has rank `k + 1` |
| Orchestrator.RankedInAgentOrder | backend/app/services/orchestrator_service.py:139-148 | when the agent ranks every hypothesis once, the sorted list follows the agent's order with ranks 1 to n |
| Orchestrator.PositionRankedInOrder | backend/app/services/orchestrator_service.py:148 | hypotheses ranked by the position of their id sort into the order of the ranked ids |
| Orchestrator.RankPhase | backend/app/services/orchestrator_service.py:123-148 | the ranking step computes the ranking phase specification |
| Orchestrator.AssignedIds | backend/app/services/orchestrator_service.py:141-145 | assigning ranks keeps the length and every id |
| Orchestrator.RankedPermutes | backend/app/services/orchestrator_service.py:139-148 | a successful ranking phase is a permutation of the assigned hypotheses and ranks every one |
| Orchestrator.RankedNumbered | backend/app/services/orchestrator_service.py:139-148 | ranking keeps the length and the distinct numbering of the hypotheses |
| Orchestrator.Broadcasts | backend/app/services/orchestrator_service.py:49-153 | the broadcasts made before a stage raises are a prefix of the full iteration trace, and all of it when nothing raises |
| Orchestrator.PhasesNumbered | backend/app/services/orchestrator_service.py:62-153 | a successful iteration adds `per` hypotheses and keeps them distinctly numbered |
| Orchestrator.AssignedLength | backend/app/services/orchestrator_service.py:141-145 | assigning ranks keeps the number of hypotheses |
| Orchestrator.PhasesLength | backend/app/services/orchestrator_service.py:62-153 | a successful iteration adds exactly `per` hypotheses |
| Orchestrator.RunNumbered | backend/app/services/orchestrator_service.py:46-158 | after `k` successful iterations of a numbering-preserving body there are `k * per` hypotheses, distinctly numbered |
| Orchestrator.RunLength | backend/app/services/orchestrator_service.py:46-158 | after `k` successful iterations there are `k * per` hypotheses |
| Orchestrator.EmitBroadcasts | backend/app/services/orchestrator_service.py:50-153 | the sent broadcasts are a prefix of the sent iteration trace, and all of it when nothing raises |
| Orchestrator.RunEventsComplete | backend/app/services/orchestrator_service.py:46-158 | a session that does not raise sends the full broadcast trace of all `k` iterations |
| Orchestrator.RunEventsPrefix | backend/app/services/orchestrator_service.py:46-172 | the broadcasts of any session, raising or not, are a prefix of the full trace |
| Orchestrator.RunStaysRaised | backend/app/services/orchestrator_service.py:170-172 | once an iteration raises, later iterations change nothing: the exception ends the session |
| Orchestrator.BodyKeepsNumbered | backend/app/services/orchestrator_service.py:46-158 | one iteration keeps the hypothesis list distinctly numbered |
| Orchestrator.BodyAnnounces | backend/app/services/orchestrator_service.py:49-153 | one iteration's broadcasts are its trace, in full when it does not raise |
| Orchestrator.BodyAppends | backend/app/services/orchestrator_service.py:62-113 | one successful iteration adds `per` hypotheses |
| Orchestrator.SessionNumbered | backend/app/services/orchestrator_service.py:39-168 | a completed session holds `max_iterations * hypotheses_per_iteration` hypotheses with distinct ids `hyp_<session>_<iteration>_<serial>` |
| Orchestrator.SessionEvents | backend/app/services/orchestrator_service.py:39-172 | a completed session sends the full broadcast trace; one that raises sends a prefix of it |
| Orchestrator.SilentWithoutManager | backend/app/services/orchestrator_service.py:50-150 | without a websocket manager no broadcast is sent |
| Orchestrator.SessionRanked | backend/app/services/orchestrator_service.py:115-148 | a completed session with more than one hypothesis returns them all ranked, in non-decreasing rank |
| Orchestrator.RunIteration | backend/app/services/orchestrator_service.py:46-158 | one loop iteration computes the iteration specification |
| Orchestrator.ReflectAndRank | backend/app/services/orchestrator_service.py:89-153 | reflection and ranking with their broadcasts compute the later-phases specification |
| Orchestrator.RankStep | backend/app/services/orchestrator_service.py:115-153 | the ranking branch, taken only for more than one hypothesis, computes the ranking specification with its two broadcasts |
| Orchestrator.RunResearchSession | backend/app/services/orchestrator_service.py:39-172 | the session returns the result of `max_iterations` iterations with status "completed", or re-raises the failing stage's exception; its broadcasts are the session's trace |
| Orchestrator.Advance | backend/app/services/orchestrator_service.py:46-158 | one more iteration extends the session of `k - 1` iterations to the session of `k` |
| Orchestrator.AgentOrchestrator.constructor | backend/app/services/orchestrator_service.py:28-29 | a new orchestrator has no active sessions |
| Orchestrator.AgentOrchestrator.CreateResearchSession | backend/app/services/orchestrator_service.py:174-190 | the new session is pending, at iteration 0, with no hypotheses and the requested goal and iteration count, and is stored under its fresh id |
| WebSocket.Position | backend/app/api/websocket.py:28 | the position found is the first occurrence of the socket |
| WebSocket.RemoveFirstAbsent | backend/app/api/websocket.py:27-28 | removing a socket that is not in the list leaves the list unchanged |
| WebSocket.RemoveFirstSplice | backend/app/api/websocket.py:28 | `list.remove` cuts out exactly the first occurrence of the socket |
| WebSocket.RemoveAppended | backend/app/api/websocket.py:17-28 | removing a socket just appended to a list that did not hold it restores the list |
| WebSocket.RemoveFirstMultiset | backend/app/api/websocket.py:27-28 | removal takes away one occurrence of the socket, if any, and nothing else |
| WebSocket.Connected | backend/app/api/websocket.py:15-22 | connecting appends the socket to the open connections |
| WebSocket.ConnectedSubscribers | backend/app/api/websocket.py:19-22 | connecting with a non-empty session id appends the socket to that session's list, creating it if needed; every other session is unchanged |
| WebSocket.DisconnectedActive | backend/app/api/websocket.py:27-28 | disconnecting removes one open entry of the socket, if it has one |
| WebSocket.DisconnectedSubscribers | backend/app/api/websocket.py:30-35 | disconnecting with a non-empty session id removes the socket's first entry from that session's list (the list is deleted once empty); without one, no session changes |
| WebSocket.ConnectedWellFormed | backend/app/api/websocket.py:19-22 | connecting never creates an empty-named session or an empty session list |
| WebSocket.DisconnectedWellFormed | backend/app/api/websocket.py:30-35 | disconnecting never leaves an empty session list behind |
| WebSocket.ConnectThenDisconnect | backend/app/api/websocket.py:15-35 | connecting a fresh socket and then disconnecting it with the same session id restores the registry |
| WebSocket.Failures | backend/app/api/websocket.py:61-67 | every collected failure is a target whose send raised |
| WebSocket.FailuresCount | backend/app/api/websocket.py:61-67 | a socket whose sends raise is collected once per occurrence among the targets; one whose sends succeed is never collected |
| WebSocket.DisconnectAllWellFormed | backend/app/api/websocket.py:70-71 | the cleanup loop keeps every session list non-empty |
| WebSocket.LessOneMore | backend/app/api/websocket.py:70-71 | removing one more socket after a batch equals removing the batch grown by that socket |
| WebSocket.RemoveEachMultiset | backend/app/api/websocket.py:70-71 | removing the sockets one after another takes away exactly their occurrences |
| WebSocket.DisconnectAllOpen | backend/app/api/websocket.py:70-71 | the cleanup loop removes the collected sockets one by one from the open connections |
| WebSocket.DisconnectAllActive | backend/app/api/websocket.py:70-71 | the cleanup loop takes away exactly one open entry per collected failure |
| WebSocket.DisconnectAllOwnSession | backend/app/api/websocket.py:70-71 | the cleanup loop removes the collected sockets one by one from the named session's list |
| WebSocket.DisconnectAllOtherSessions | backend/app/api/websocket.py:83-84 | cleanup without a session id, or for another session, changes no other session's list |
| WebSocket.DisconnectAllSessions | backend/app/api/websocket.py:70-84 | the named session loses one entry per collected failure; every other session keeps its list |
| WebSocket.PersonalFailure | backend/app/api/websocket.py:39-44 | a personal message that fails disconnects the socket from the open connections only, leaving every session list unchanged |
| WebSocket.AgentUpdateCount | backend/app/api/websocket.py:59-84 | an agent update is sent once per entry of the socket in the session's list plus once per open entry left after the session cleanup |
| WebSocket.AgentUpdateTwice | backend/app/api/websocket.py:59-84 | a reachable socket that is both open and subscribed to the session receives the update twice |
| WebSocket.AgentUpdateCloses | backend/app/api/websocket.py:59-84 | after an agent update a socket whose sends raise has no open entry left, and a reachable one keeps all of its entries |
| WebSocket.AgentUpdateSubscriptions | backend/app/api/websocket.py:59-84 | a failing socket loses all its entries in the updated session's list; every other list is unchanged |
| WebSocket.DistinctCount | backend/app/api/websocket.py:99-101 | a socket occurs at most once in a duplicate-free order |
| WebSocket.SessionUpdateEffect | backend/app/api/websocket.py:98-113 | a session update reaches every open or subscribed socket exactly once; a failing one loses one open entry and one entry in the session's list, and nothing else changes |
| WebSocket.SendAll | backend/app/api/websocket.py:103-109 | the send loop collects exactly the targets whose sends raised, in order |
| WebSocket.AgentWebSocketManager.constructor | backend/app/api/websocket.py:11-13 | a new manager has no connections and no sessions |
| WebSocket.AgentWebSocketManager.Connect | backend/app/api/websocket.py:15-22 | the registry becomes the connected registry and stays well formed |
| WebSocket.AgentWebSocketManager.Disconnect | backend/app/api/websocket.py:26-35 | the registry becomes the disconnected registry and stays well formed |
| WebSocket.AgentWebSocketManager.DisconnectEach | backend/app/api/websocket.py:70-71 | disconnecting each socket of a list in turn gives the cleanup specification |
| WebSocket.AgentWebSocketManager.SendPersonalMessage | backend/app/api/websocket.py:39-44 | a delivered message changes nothing; a failed one disconnects the socket |
| WebSocket.AgentWebSocketManager.BroadcastAgentUpdate | backend/app/api/websocket.py:46-84 | the sockets sent to are the session's list followed by the open connections left after its cleanup; the registry becomes the agent-update specification |
| WebSocket.AgentWebSocketManager.BroadcastSessionUpdate | backend/app/api/websocket.py:86-113 | the update is sent to each socket of the enumerated union once, and the failing ones are disconnected from the session |

## Left out

Environment:
- Network calls are left out and their results are inputs: HTTP requests, Anthropic client calls and WebSocket sends.
- `async`/`await`, `asyncio.gather` and `asyncio.sleep(2)` are read as plain sequential calls.
- Timestamps, `uuid4` and log output are left out. A fresh session id is a parameter of `CreateResearchSession`; timestamps are strings supplied by the caller.
- The WebSocket accept handshake is left out.
- JSON serialisation of broadcast messages and message payloads are left out; only who is sent a message is modelled.
- Storage file operations are I/O and left out. This covers save, load, list and delete on JSON files, directory creation and cache-age checks against the clock.
- SavePathsDistinct: paths are compared as pathlib compares them, by their components. A ".." component is not resolved against the file system, so an id such as `../hypotheses/a` gives two different paths that name one file.
- Path parsing does not model POSIX's special root of exactly two leading slashes: `//x` is read as `/x`, where pathlib keeps `//x`.

Text, parsing and floating point:
- Prompt wording and the descriptive fields of the domain contexts are left out; they only steer the language model. Only the enhancement terms and the way a context is chosen are kept.
- Regex URL extraction in `_parse_perplexity_response` is an input:
    - the list of paper URLs of the whole answer;
    - a function giving the first paper URL of one line.
- XML parsing of PubMed search and fetch responses (`_parse_pubmed_response`) is an oracle.
- `float()` parsing is an oracle returning None where Python raises.
- Floating-point arithmetic is replaced by exact integers. The success rate of `get_execution_stats` is an exact rational, not a rounded float.
- Text: `str.strip`, `split`, `lower` and `upper` follow Python for ASCII only. Unicode whitespace, case mapping and normalisation are not modelled.

Records and aliasing:
- Records are values, not shared dictionaries. When the orchestrator updates `score`, `review` and `rank` in place, the model rebuilds the list with the updated records. The model is blind to aliasing between the dictionaries the agents return and the ones the orchestrator keeps.
- Limits, counts and iteration numbers are natural numbers. Negative values, possible in Python, are not modelled.
- The author list of a Serper result is kept as one entry, whatever its type in the response.
- Malformed plan entries are not modelled: the decoded plan is assumed to have well-formed query entries. A missing "query" or "type" key would raise KeyError in `search_with_strategy`.

Code paths and behaviour not modelled:
- The outer `except` of `_fallback_literature_search` is not modelled. It is unreachable, because every step inside it is total once the searches are inputs.
- No provider sets a separate "summary" key on a paper. The abstract-then-summary fallback of `_generate_hypothesis` is kept as `AbstractOf`, but the literature summary always passes it an empty summary.
- The comparative-analysis prompt of `comparative_review` is not modelled; its reply is the parameter `analysis`.
- `comparative_review` reads each hypothesis text with `hyp_data.get("hypothesis", hyp_data.get("content", ""))`. The model takes those texts as its input `texts`.
- Orchestrator.Agents: each agent is a function of its request, so two hypotheses with identical contents, goal and iteration always get identical reviews and ranking replies. The language model promises no such determinism. No lemma relies on it.
- The orchestrator does not thread the agents' execution histories through a session; the records its `execute` calls append are stated by the agents' own `Execute` members.
- The `log_error` branches of the three `execute` methods are left out. Once model calls are inputs, nothing inside their `try` can raise except a missing key in `input_data`, and the inputs are typed parameters here. The three `Execute` members therefore always append a success record.
- The `timestamp` echoed from `input_data` into the generation and reflection results is left out; the execution record's timestamp is a parameter.
- `websocket_endpoint` (backend/app/api/websocket.py:119-132) is left out. It calls `handle_client_message` and `logger`, which the manager does not define.
- `broadcast_session_update` iterates over a Python `set` in an order the language does not fix. That order is the parameter `order`, required to list each socket of the union once.
- Whether a send reaches a socket is the oracle `delivers`, which gives one answer per socket within one broadcast. A socket whose sends fail intermittently within one call is not modelled.
- `test_perplexity_connection` and `test_pubmed_connection` are left out. They only call the searches and compare a length with zero.
- Reflection and generation agent initialisation are left out: they only store the services.

Behaviour of the code a reader might not expect:
- `run_research_session` re-raises any stage exception. The hypotheses gathered so far are lost; no partial result is returned (`Orchestrator.RunStaysRaised`).
- The orchestrator keeps no cancel, status or statistics registry; only `active_sessions`, written by `create_research_session`, exists.
- `create_research_session` does not pass `hypotheses_per_iteration` to the stored session. The stored record keeps the model's default of 1.
- Re-sorting by rank with a hypothesis the ranking agent did not return compares None with an integer, which raises TypeError in Python. It is modelled as a raised ranking stage.
- With A beating B, A tying C and B beating C, the code gives scores 1.5, 1.0 and 0.5 (`RankingAgent.ThreeWayScenario`), so the ranked order is A, B, C (`RankingAgent.ThreeWayOrder`).
- The review score parsed by `ClaudeService.review_hypothesis` is not clamped (`ClaudeService.ScoreNotClamped`). A score in [0,1] is therefore proved only for the reflection agent's parser.
