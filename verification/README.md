# ING Dashboard workflows in Dafny

This project models the analysis core of the ING marketing dashboard.

It covers three LangGraph workflows and the sequential graph executor they run on:

- **News intelligence** is a four-stage chain. It scores RSS articles for relevance, extracts search intents, finds competitive content gaps, and ranks them into at most five content opportunities. A report for the dashboard is then built from the result.
- **GEO (generative-engine optimisation)** runs three fixed stages: scrape the AI Overview per keyword, collect competitor snippets, and evaluate the bank's own content. A router then sends the run down one of three optimisation branches, chosen by the evaluation's average inclusion score with bands at 85 and 60. All branches meet again at the inclusion prediction.
- **Content generation** is a five-stage chain from content brief to final review.

It also covers three services the workflows rely on:

- the RSS aggregation service, which merges six feeds, keeps at most five entries per feed, and returns the twenty latest articles;
- the JSON extraction helper for LLM answers, which strips code fences and trims the text, then falls back to the first brace- or bracket-delimited span;
- the prompt loader, which caches prompt files by name and falls back to fixed texts.

The LLM-backed agents, the SERP scraper and the HTTP fetch are parameters of the model. They are functions that return a value or raise. A stage that raises ends the run.

## Files

| file | contents |
|---|---|
| `wrappers.dfy` | `Option`, `Result`, and the Python exceptions the core can raise |
| `json_value.dfy` | decoded JSON values; `dict.get` on them |
| `text.dfy` | `str.isspace`, `str.strip`, and ordering of strings as text |
| `stable_sort.dfy` | Python's stable `sort(key=…, reverse=True)` and `[:n]`, with their properties |
| `graph.dfy` | the graph executor: one run, its trace, and facts about chains and acyclic graphs |
| `news_intelligence.dfy` | the news workflow and its report, in an as-written and a corrected variant |
| `geo_optimization.dfy` | the GEO workflow, its router and its staged run |
| `content_generation.dfy` | the content-generation workflow |
| `rss_service.dfy` | `RSSService` |
| `json_parser.dfy` | `extract_json_from_response` |
| `prompt_loader.dfy` | `PromptLoader` |

## Notes on the code

- The article feed is not deduplicated, and its dates are never parsed: `fetch_all_feeds` sorts the `published_date` strings as text. `RssService.DatesCompareAsText` shows an older date that sorts ahead of a newer one.
- LangGraph checks the graphs for neither cycles nor unregistered route labels before a run. An unregistered label ends the run with an error when it is met. Only the recursion limit of 25 steps (`Graph.StepBudget`) stops a cycle. The model keeps both outcomes and proves that none of the three graphs can reach either.
- `extract_json_from_response` catches only `json.JSONDecodeError`: text that does not decode gives `None`. Any other exception `json.loads` raises propagates, for example a RecursionError on very deeply nested text.
- As written, `analyze_news_opportunities` never produces a report (see Findings).

## Model

| member | source | states |
|---|---|---|
| Graph.Walk | app/workflows/geo_optimization.py:148-150 | A run from a stage starts that stage first, never starts more stages than its budget allows, and stops on the step limit only when the whole budget is used. |
| Graph.Run | app/workflows/news_intelligence.py:101 | `ainvoke` under LangGraph's default recursion limit: a run starts the entry stage first, runs at most 25 stages, and stops on the limit only after all 25. An entry stage that raises ends the run at once with its error and the input state. |
| Graph.ForwardRun | app/workflows/geo_optimization.py:28-65 | On a graph whose edges all lead to a higher rank (no cycle), a run never hits the recursion limit, starts at the entry stage, runs at most as many stages as there are ranks, and never runs a stage twice. |
| Graph.Sequence | app/workflows/news_intelligence.py:42-46 | Stages joined by unconditional edges run in order. A finished run went through all of them. A failed run stopped at a non-empty prefix, and the failing stage is the last one started. |
| Graph.WalkChain | app/workflows/content_generation.py:36-41 | Along a chain of unconditional edges, the executor's run is exactly the plain sequence of those stages, carried on from the chain's last edge. |
| Graph.SequenceIsFold | app/workflows/content_generation.py:36-41 | Running a chain finishes exactly when composing its stages as functions succeeds. Both give the same final state, and a failure carries the error of the first stage that raised. |
| Graph.SequenceSnoc | app/workflows/news_intelligence.py:45-46 | One more stage on a chain runs on the state the chain finished with, and only if it finished. |
| Graph.ContinuePrepend | app/workflows/news_intelligence.py:43-46 | Carrying a run on past a chain's last edge commutes with putting one more stage in front of the chain. |
| JsonValues.Lookup | app/workflows/geo_optimization.py:102 | A decoded object has a value for a key exactly when some member carries that key, and the value is that of the last such member. |
| JsonValues.Get | app/workflows/geo_optimization.py:74 | `.get(key, default)` raises AttributeError exactly when the value is not an object. On an object it yields the key's value when present and the default otherwise. |
| Text.Strip | app/utils/prompt_loader.py:24 | `strip()` returns the text between a leading and a trailing whitespace run; the result neither begins nor ends with whitespace. |
| StableSort.Sort | app/services/rss_service.py:33 | The sorted list is a permutation of the input: same length, same elements with the same multiplicities. |
| StableSort.SortSorted | app/services/rss_service.py:33 | Under any total preorder on keys, every element's key is at least the key of every later element. |
| StableSort.SortStable | app/workflows/news_intelligence.py:92 | For each key, the elements carrying it appear in the sorted list in their original relative order. |
| StableSort.TopOfSort | app/workflows/news_intelligence.py:92-94 | The first `n` of the sorted list have the length `min(n, len)`, are drawn from the input, are ordered by key, are never outranked by anything left out, and keep equal keys in input order. |
| NewsIntelligence.ScanNewsRelevance | app/workflows/news_intelligence.py:50-57 | A missing `rss_articles` or `tracked_keywords` raises KeyError, in that order. With both present, the stage succeeds exactly when the relevance agent answers, fails with the agent's error otherwise, and on success writes the agent's answer as `relevant_news` and changes nothing else. |
| NewsIntelligence.ExtractSearchIntents | app/workflows/news_intelligence.py:59-65 | A missing `relevant_news` raises KeyError. Otherwise the stage succeeds exactly when the intent agent answers, fails with the agent's error otherwise, and on success writes the agent's answer as `extracted_intents` and changes nothing else. |
| NewsIntelligence.AnalyzeCompetitiveGaps | app/workflows/news_intelligence.py:67-74 | A missing `extracted_intents` or `tracked_keywords` raises KeyError, in that order. With both present, the stage succeeds exactly when the gap agent answers, fails with the agent's error otherwise, and on success writes the agent's answer as `competitive_gaps` and changes nothing else. |
| NewsIntelligence.ToOpportunity | app/workflows/news_intelligence.py:81-88 | The opportunity dict is built exactly when the gap has all six keys, and renaming its keys back gives the gap again. Otherwise it raises KeyError, naming `potential_headline` first when that key is missing. |
| NewsIntelligence.ToOpportunities | app/workflows/news_intelligence.py:78-89 | The loop succeeds exactly when every gap is complete. It gives one opportunity per gap, in gap order, each renaming its own gap. |
| NewsIntelligence.TopIsTopPicks | app/workflows/news_intelligence.py:91-94 | The kept opportunities are at most five, taken from the full list and ordered by priority, highest first. Nothing left out has a higher priority than any kept one, and equal priorities keep their order. |
| NewsIntelligence.SortHeadIsMax | app/workflows/news_intelligence.py:92-95 | The first opportunity after sorting is one of the inputs and has the highest priority of all. |
| NewsIntelligence.PriorityLevel | app/workflows/news_intelligence.py:95 | As written, an empty ranking raises IndexError and nothing else fails. When the level is computed, it is "urgent" exactly when the top opportunity's priority is above 80, and "normal" otherwise. |
| NewsIntelligence.Prioritize | app/workflows/news_intelligence.py:76-97 | A missing `competitive_gaps` or an incomplete gap raises KeyError. As written, the stage succeeds exactly when there is at least one gap and all are complete; corrected, an empty list succeeds too. On success it writes exactly the top picks of the opportunities and a level that is "urgent" exactly when some gap's urgency score exceeds 80. |
| NewsIntelligence.UrgentIffAbove | app/workflows/news_intelligence.py:92-95 | The sorted list's head is above 80 exactly when some gap's urgency score is. |
| NewsIntelligence.NoGapsRanked | app/workflows/news_intelligence.py:94-95 | With no gaps, the as-written stage raises IndexError. The corrected one records an empty list at the "normal" level. |
| NewsIntelligence.NewsTopology | app/workflows/news_intelligence.py:36-46 | Four distinct stages, entry `scan_news`, chained by unconditional edges in the fixed order and ending at END; every edge leads to a later stage. |
| NewsIntelligence.NewsRunIsChain | app/workflows/news_intelligence.py:31-48 | A run is the four stages in order. It finishes after all four or fails at a prefix, and never hits an unknown route or the recursion limit. |
| NewsIntelligence.NewsTerminates | app/workflows/news_intelligence.py:31-48 | The news graph has no cycle. A run starts at `scan_news` and runs at most four stages. |
| NewsIntelligence.NewsFinalState | app/workflows/news_intelligence.py:45-46 | A finished run ends with the ranking stage's result on some state, and its first stage succeeded on the input. |
| NewsIntelligence.UrgencyLevel | app/workflows/news_intelligence.py:106 | As written, reading `urgency_level` always raises KeyError, because no stage writes that key. Corrected, the level is "urgent" exactly when the priority is above 80. |
| NewsIntelligence.UrgentCount | app/workflows/news_intelligence.py:106 | As written, the count succeeds only for an empty list. When it succeeds, it is at most the number of opportunities, zero exactly when none is above 80, and the full length exactly when all are. |
| NewsIntelligence.UrgentCountIsCountAbove | app/workflows/news_intelligence.py:106 | Corrected, the count is exactly the number of positions whose opportunity has a priority above 80. |
| NewsIntelligence.AnalyzeNewsOpportunities | app/workflows/news_intelligence.py:99-109 | A run that does not finish surfaces as the run's error. |
| NewsIntelligence.AnalyzeAsWrittenAlwaysFails | app/workflows/news_intelligence.py:95-106 | As written, no input and no agent behaviour produces a report. |
| NewsIntelligence.AnalyzeCorrected | app/workflows/news_intelligence.py:99-109 | Corrected, a report is produced exactly when the run finishes. It holds the run's opportunities and counts the input articles. Its urgent count is exactly the number of kept opportunities above 80, at most the opportunity count, which is at most five, and its timestamp is the supplied clock value. |
| GeoOptimization.Put | app/workflows/geo_optimization.py:74 | Assigning into the keyword dict keeps keys unique and makes the key map to the new value, leaving every other key's value alone. An existing key keeps its position; a new key goes last. |
| GeoOptimization.Dedup | app/workflows/geo_optimization.py:71-74 | The dict's key order has each keyword once, and exactly the keywords of the input. |
| GeoOptimization.DedupSnoc | app/workflows/geo_optimization.py:71-74 | One more keyword adds a new key at the end, or nothing if the keyword was seen before. |
| GeoOptimization.AiOverview | app/workflows/geo_optimization.py:73-74 | One keyword's block: a raising scrape raises the same error, a scrape that is not an object raises AttributeError, and otherwise the result is the `ai_overview` entry, or `{}` when it is absent. |
| GeoOptimization.ScrapeAll | app/workflows/geo_optimization.py:69-75 | The loop succeeds exactly when every keyword's scrape does, and a failure carries the error of the first failing keyword. On success the dict holds each distinct keyword once, in first-occurrence order, mapped to its `ai_overview` block (`{}` when absent). |
| GeoOptimization.Scrape | app/workflows/geo_optimization.py:67-77 | A missing `target_keywords` raises KeyError. Otherwise the stage succeeds exactly when the scraping loop does, fails with the loop's error otherwise, and on success writes the loop's dict as `ai_overview_data`, whose keys are exactly the target keywords, and changes nothing else. |
| GeoOptimization.CollectSnippets | app/workflows/geo_optimization.py:81-85 | The snippet loop succeeds exactly when every extraction does, and a failure carries one of their errors. The result is the per-keyword lists concatenated in dict order. |
| GeoOptimization.AnalyzeSnippets | app/workflows/geo_optimization.py:79-88 | A missing `ai_overview_data` raises KeyError. Otherwise the stage succeeds exactly when every extraction does, fails with the snippet loop's error otherwise, and on success writes the concatenated snippets and changes nothing else. |
| GeoOptimization.Evaluate | app/workflows/geo_optimization.py:90-97 | A missing `target_keywords` or `competitor_snippets` raises KeyError, in that order. With both present, the stage succeeds exactly when the evaluator answers, fails with its error otherwise, and on success writes its answer as `ing_content_analysis` and changes nothing else. |
| GeoOptimization.Band | app/workflows/geo_optimization.py:104-109 | "already_winning" exactly from 85 up, "minor_optimization" exactly on [60, 85), and "major_optimization" exactly below 60. |
| GeoOptimization.Score | app/workflows/geo_optimization.py:101-102 | A non-object analysis raises AttributeError and a missing score reads as 0. A number compares as itself and a boolean as 0 or 1. Any other value (null, string, list, object) cannot be compared with an int and raises TypeError. |
| GeoOptimization.Router | app/workflows/geo_optimization.py:99-109 | A missing analysis raises KeyError. Otherwise the router succeeds exactly when the score can be read and compared, and fails with the score's error otherwise. A computed label is one of the three registered ones and is the band of the analysis's score. |
| GeoOptimization.BandBoundaries | app/workflows/geo_optimization.py:104-109 | 85, 84.999, 60, 59.999 and 0 route to already_winning, minor, minor, major and major. |
| GeoOptimization.BandMonotone | app/workflows/geo_optimization.py:104-109 | A higher score never routes to a heavier optimisation. |
| GeoOptimization.MissingScoreIsMajor | app/workflows/geo_optimization.py:102 | An analysis without `average_inclusion_score` routes to the comprehensive rewrite. |
| GeoOptimization.RoutesAreBranches | app/workflows/geo_optimization.py:38-46 | The three labels lead to three different branch stages and to nothing else. |
| GeoOptimization.Targeted | app/workflows/geo_optimization.py:111-119 | A missing `ing_content_analysis` or `competitor_snippets` raises KeyError, in that order. With both present, the stage succeeds exactly when the optimiser answers, fails with its error otherwise, and on success writes its answer as `optimized_content` and the strategy "targeted", and nothing else. |
| GeoOptimization.Rewrite | app/workflows/geo_optimization.py:121-130 | A missing `target_keywords`, `competitor_snippets` or `ing_content_analysis` raises KeyError, in that order. With all three present, the stage succeeds exactly when the rewriter answers, fails with its error otherwise, and on success writes its answer as `optimized_content` and the strategy "comprehensive", and nothing else. |
| GeoOptimization.Monitor | app/workflows/geo_optimization.py:132-136 | The monitoring branch never fails. It records the strategy "monitor" and the content `{"status": "no_changes_needed"}`, and every other key keeps its value. |
| GeoOptimization.Predict | app/workflows/geo_optimization.py:138-146 | A missing `optimized_content`, `competitor_snippets` or `target_keywords` raises KeyError, in that order. With all three present, the stage succeeds exactly when the predictor answers, fails with its error otherwise, and on success writes its answer as `inclusion_predictions` and changes nothing else. |
| GeoOptimization.GeoTopology | app/workflows/geo_optimization.py:33-63 | Entry `scrape_ai_overview`, unconditional edges to `analyze_competitors` and `evaluate_ing_content`, then the router with its three-label table; exactly the branch stages lead to `predict_inclusion`, which leads to END. Every edge leads to a later rank, so there is no cycle. |
| GeoOptimization.GeoRunIsPipeline | app/workflows/geo_optimization.py:28-65 | The executor's run of the GEO graph is the three fixed stages, then the router on their result, then the chosen branch stage followed by the prediction. |
| GeoOptimization.GeoRunShape | app/workflows/geo_optimization.py:28-65 | A run finishes, fails in a stage, or fails in the router. A finished run executed exactly five stages: the three fixed ones, one branch, and the prediction. Its state records that branch's strategy and holds optimised content, which is "no_changes_needed" after `monitor_only`. |
| GeoOptimization.GeoBranchFollowsScore | app/workflows/geo_optimization.py:38-46 | The branch a finished run took is the one the router picked from the evaluated state. |
| GeoOptimization.GeoTerminates | app/workflows/geo_optimization.py:28-65 | The GEO graph has no cycle. A run starts at `scrape_ai_overview`, runs at most five stages, and none twice. |
| GeoOptimization.OptimizeForAiOverview | app/workflows/geo_optimization.py:148-150 | The entry point returns a state exactly when the run finishes, and that state is the run's final state. |
| ContentGeneration.GenerateOptimizedArticle | app/workflows/content_generation.py:45-47 | The entry point returns a state exactly when the run finishes, and that state is the run's final state. |
| ContentGeneration.ContentTopology | app/workflows/content_generation.py:30-41 | Five distinct stages, entry `create_brief`, chained by unconditional edges in the fixed order and ending at END. |
| ContentGeneration.ContentRunIsChain | app/workflows/content_generation.py:27-43 | A run is the five stages in order. A finished run executed all five; a failed one executed a prefix ending at the stage that raised. |
| ContentGeneration.ContentAcyclic | app/workflows/content_generation.py:27-43 | A run never reaches the recursion limit, runs at most five stages, and none twice. |
| ContentGeneration.ArticleIsComposition | app/workflows/content_generation.py:45-47 | The article is exactly the five stages composed as functions, with the first error ending it. |
| RssService.FetchSingleFeed | app/services/rss_service.py:35-53 | A raised request fails, a non-200 status gives no articles, and a 200 response gives one record per entry among the first five, in order. Each record carries the entry's fields with "" for absent ones, the source name, and the raw entry. |
| RssService.FetchAllFeeds | app/services/rss_service.py:20-33 | At most twenty articles, drawn from the merged feeds and ordered by date text, latest first. No article left out has a later date than a kept one, and equal dates keep feed order. |
| RssService.GatherAppend | app/services/rss_service.py:25-31 | Merging two lists of feeds is merging each and concatenating, in order. |
| RssService.SilentFeedSkipped | app/services/rss_service.py:26-31 | A feed that raises or answers a non-200 status leaves the result as if it were not configured, and later feeds are still fetched. |
| RssService.AtMostFivePerFeed | app/services/rss_service.py:33-43 | No configured feed has more than five articles in the result. |
| RssService.ResultFromAnsweringFeeds | app/services/rss_service.py:20-38 | Every article returned comes from a configured feed that answered with status 200. |
| RssService.DatesCompareAsText | app/services/rss_service.py:33 | An RFC 822 date string of 2 October sorts ahead of one of 15 October, because dates compare as text. |
| JsonParser.RemoveMarker | app/utils/json_parser.py:14-15 | Deleting a marker with the whitespace after it never lengthens the text. |
| JsonParser.MarkerDeleted | app/utils/json_parser.py:14-15 | After a prefix in which no occurrence of the marker starts, an occurrence of the marker is deleted together with the whole whitespace run after it, and the scan resumes at the first non-space character. |
| JsonParser.RemoveMarkerAbsent | app/utils/json_parser.py:14-15 | Text in which the marker never occurs comes through unchanged. |
| JsonParser.FenceFreeAfterRemoval | app/utils/json_parser.py:15 | After the second substitution no three consecutive backticks remain, not even where two kept pieces meet. |
| JsonParser.Clean | app/utils/json_parser.py:13-16 | The cleaned text contains no code fence and neither begins nor ends with whitespace. It is the fence-free text with surrounding whitespace cut. |
| JsonParser.LastIndex | app/utils/json_parser.py:22 | The index found holds the character, and no later index does; -1 means the character is absent. |
| JsonParser.MatchAt | app/utils/json_parser.py:22 | A match starts at an opener exactly when a matching closer follows it. It ends just after the last such closer, as the greedy `.*` with DOTALL does. |
| JsonParser.Search | app/utils/json_parser.py:22 | The match found is the leftmost one. No match exists exactly when no position starts one. |
| JsonParser.ExtractJson | app/utils/json_parser.py:8-30 | Empty text gives None. Otherwise the result is the cleaned text decoded if that works, else the leftmost bracket span decoded, else None. Any result is the decoding of a slice of the cleaned text. |
| JsonParser.FencedBlock | app/utils/json_parser.py:13-19 | A fenced block ```` ```json\n{}\n``` ```` cleans to `{}` and yields what `{}` decodes to. |
| PromptLoader.NewLoader | app/utils/prompt_loader.py:11-13 | A new loader keeps its directory and has nothing cached. |
| PromptLoader.PathJoin | app/utils/prompt_loader.py:20 | The joined path ends with the file name. An absolute name replaces the directory. Otherwise the directory comes first, followed by one slash unless it is empty or already ends in one. |
| PromptLoader.DefaultPath | app/utils/prompt_loader.py:11-20 | With the default directory, a relative name is read from `prompts/<name>.txt`. |
| PromptLoader.FallbackPrompt | app/utils/prompt_loader.py:31-40 | A known name gets its table entry. Any other name gets the default text, with `{prompt_name}` left unsubstituted. |
| PromptLoader.FallbackIgnoresName | app/utils/prompt_loader.py:40 | All unknown names get the same fallback text. |
| PromptLoader.LoadPrompt | app/utils/prompt_loader.py:15-29 | A cached name is answered from the cache and changes nothing. On a miss, a readable file is cached and answered stripped. A missing file gives the fallback and caches nothing. Any other read error propagates and caches nothing. No existing entry is ever changed. |
| PromptLoader.ReadOnceKept | app/utils/prompt_loader.py:17-26 | After a successful read, the next load of that name returns the same text whatever the file now holds. |
| PromptLoader.SessionOnlyAdds | app/utils/prompt_loader.py:17-26 | Across any sequence of loads, cache entries are only added, never changed or removed. |
| PromptLoader.CachedAnswersStable | app/utils/prompt_loader.py:17-18 | Once a name is cached, every later load of it answers the cached text. |

## Left out

- Asynchrony, the `aiohttp` session and `print` are left out. Each workflow runs its stages strictly one after another, so `await` adds nothing to the model. Printed warnings are not modelled.
- The LLM-backed agents, the HTTP request and `feedparser` are parameters: functions that return a value or raise. Their prompts, temperatures and parsing are not part of this model.
- `_scrape_serp_for_keyword` and `_extract_competitor_snippets` are called at `geo_optimization.py:73` and `:84` but defined nowhere: `GEOOptimizationWorkflow` has no base class and no such methods. As written, any GEO run with a non-empty `target_keywords` raises AttributeError in `scrape_ai_overview`. With an empty list, `evaluate_content` calls `_get_ing_content_for_keywords` (`app/agents/content_evaluator.py:27`), which is not defined either, so as written no GEO run reaches the router. The model takes both helpers as the parameters `scrapeSerp` and `extractSnippets` and describes the workflow as if they existed.
- `scrapeSerp` is a pure function of the keyword. A keyword listed twice is scraped twice in Python, and the second answer (or a raise on the second call) wins; the model cannot tell the two calls apart.
- The five content-generation stage methods are not defined in `ContentGenerationWorkflow`, so constructing it would raise AttributeError. The model takes the five stages as supplied functions and states what the graph does with them.
- `app/utils/json_parser.py` annotates its return type with `Dict` without importing it, so importing the module raises NameError. The model describes the function as if the import were there.
- `json.loads` is a parameter, `parse`: a function from text to a decoded value or nothing. JSON decoding itself is not modelled.
- JsonParser.ExtractJson: `parse` cannot raise, so an exception other than `json.JSONDecodeError` from `json.loads` (a RecursionError on deeply nested text) is not modelled; the code lets it propagate.
- Numbers are exact reals rather than floats; integer and float scores compare the same way, and rounding is not modelled.
- `datetime.now().isoformat()` is the parameter `now` of `NewsIntelligence.AnalyzeNewsOpportunities`.
- File I/O is a parameter of each `PromptLoader` call: a function from path to the decoded file text, FileNotFoundError, or another error. Newline translation and UTF-8 decoding happen inside it.
- LangGraph's internals are not modelled: channel reducers, checkpoints, streaming, input-schema filtering of unknown keys. Each stage returns the whole state and the returned state replaces the previous one, which is what these stages do.
- `app/models/workflow_states.py` is not part of this model.
- Graph.StepBudget: the recursion limit is fixed at LangGraph's default of 25; a caller-supplied limit is not modelled.
- NewsIntelligence.AnalyzeNewsOpportunities: its own contract states only the failure path; the report's contents are stated by `AnalyzeCorrected` and `AnalyzeAsWrittenAlwaysFails`.
- NewsIntelligence.Gap: the gap analyser's answer is raw `json.loads` output (`app/agents/competitive_gap_analyzer.py:38`), but the model takes it to be a list of objects. If the answer is an object, the loop at `news_intelligence.py:80` iterates its keys, and `gap["potential_headline"]` raises TypeError. A list item that is not an object raises TypeError the same way. Neither case is modelled, so `Prioritize`'s KeyError path covers only object items.
- NewsIntelligence.Gap: urgency scores are reals. A gap whose scores cannot be compared with each other or with 80 (a string, say) would raise TypeError in the sort; that case is not modelled.
- PromptLoader.FallbackTable: states only the set of five known names; each name's text is given by `FallbackPrompt` through the `Fallbacks` constant.
- GeoOptimization.CollectSnippets: on failure it states only that the error came from some extraction, not that it was the first failing one in dict order.

## Findings

| source | as written | input that shows it | evidently intended | confidence | as-written member | corrected member |
|---|---|---|---|---|---|---|
| app/workflows/news_intelligence.py:95 | `opportunities[0]` is read after the sort, with no check that the list is non-empty | the gap analyser returns no gaps: `competitive_gaps == []` | no opportunities at the "normal" level | high; not executed | NewsIntelligence.NoGapsRanked | NewsIntelligence.Prioritize |
| app/workflows/news_intelligence.py:106 | every opportunity is read at key `urgency_level`, which no stage writes | any run that finishes with at least one opportunity | count the opportunities whose priority is above 80, the same threshold the ranking stage uses | high; not executed | NewsIntelligence.AnalyzeAsWrittenAlwaysFails | NewsIntelligence.AnalyzeCorrected |

The workflow functions take a `Variant`. `AsWritten` follows the code line by line. `Corrected` applies both fixes above, and the corrected members state the intended properties about it.
