# Verified models of the agent's stateful engines

This project models, in Dafny 4.11, the parts of the agent that keep state over time or make
budgeted choices, and proves what they guarantee over whole runs and for all inputs:

- **Repository index** (`RepositoryIndex`, `FocusSelection`): the incremental symbol index as a class
  with its three dictionaries, updated by a scan loop over arbitrary file-system snapshots, and the
  ranking tail of `search`.
- **LLM resilience** (`CircuitBreaker`, `RateLimiter`, `ErrorRate`, `Timeline`, `LlmResilience`,
  `LlmCall`): the per-provider machines, the class that holds their dictionaries and deques, and the
  gate-and-retry skeleton of `_call_llm` that drives them.
- **File selection** (`FairOrder`, with `Sorting` and `Strings`): the nested round-robin over deques.
- **Context budgets** (`ContextMerge`, `ContextRerank`, `MessageTrim`): same-source merging on chunk
  objects, two-phase greedy packing, and conversation trimming.
- **Benchmark ledgers** (`Ledger`, `OllamaLedger`, `Retention`, `Scoring`, with `MapSum`): counters at
  several levels, the retained sample window, and the scores computed from them.
- **Scheduler** (`Scheduler`, `GoalCommand`): the loop thread, the executors and the callers as
  interleaved steps, and the goal-command printer and parser.
- **Configuration merge and guardrail** (`DeepMerge`, `Guardrails`).

Code that mutates state is modelled by classes, methods and loops proved against specification
functions; whole-run results are lemmas about runs of those functions. Times, scores and costs are
reals; counters are unbounded integers. The clock, the file system, parse results, attempt outcomes
and configuration are parameters of each step. Hypotheses such as a nondecreasing clock, fixed
configuration or non-negative scores are stated in the lemmas that need them.
Beside the specification functions stand laws in terms of the inputs alone, such as `FairListing`,
`Outcome`, `BucketsCount`, `TickStartsDue` or `LlmScoreParts`, that fix constants and branches.

Where a natural claim does not hold of the code, the project states the exact condition and a case
that fails: `ScanAgreesIff` and `SameStateEditIsMissed`, `MinimumMetIff` and `MinimumMissed`,
`CountLimitIff` and `ZeroLimitReturnsOne`, `SignalsAreEnginesIff` and `CommaNameIsSplit`,
`QueryExactIff` and `NarrowThenWide`, `StoredIsWindowIff` and `BackwardsClockLoses`, `InRangeIff` and
`HeavyWeightOverflows`, `SpacedIff` and `RaceBreaksSpacing`, `AppendedContextIsLostIff` and
`AppendedContextIsRead`, `AllowedAgainIff` and `FallbackCanAllow`, `AssociativeIff` and
`NotAssociative`.

## Model

| member | source | states |
|---|---|---|
| RepositoryIndex.RepositoryMapEngine.Build | agent/repository_map_engine.py:393-480 | An unforced build less than a second after the last scan changes no field. Any other sets the scan time, forgets the untracked files, keeps all it knows of unreadable and, unless forced, of unchanged ones, and holds exactly the state and the symbols or diagnostic read for every other file; this is one step of the run function. |
| RepositoryIndex.RepositoryMapEngine.Rescan | agent/repository_map_engine.py:399-480 | The scan loop and the removal pass together do that to every file. |
| RepositoryIndex.RepositoryMapEngine.VisitAll | agent/repository_map_engine.py:399-474 | The scan loop gives every tracked file its refreshed entry, even if it is listed twice, and leaves every other entry alone. |
| RepositoryIndex.RepositoryMapEngine.Visit | agent/repository_map_engine.py:403-474 | One visit refreshes one file: an unreadable stat keeps the entry, an unchanged state keeps it unless forced, and otherwise symbols, an empty result or a diagnostic replace what was known. |
| RepositoryIndex.RepositoryMapEngine.RemoveStale | agent/repository_map_engine.py:476-480 | The removal pass forgets exactly the files that are not active, in all three dictionaries. |
| RepositoryIndex.RepositoryMapEngine.DictionariesOf | agent/repository_map_engine.py:108-117 | In every valid engine the three dictionaries are determined by the entries, so equal entries mean equal dictionaries. |
| RepositoryIndex.ScanAgreesIff | agent/repository_map_engine.py:400-413 | For any index and snapshot, a scan agrees with a new engine iff nothing is retained for an unreadable file and every file skipped as unchanged still reads the same. |
| RepositoryIndex.IncrementalIsFresh | agent/repository_map_engine.py:393-480 | After any run of builds over any snapshots, when time and size identify content, the next unthrottled build equals a new engine's index iff no tracked file with an unreadable stat still has an entry. |
| RepositoryIndex.ForcedBuildIsFresh | agent/repository_map_engine.py:411-413 | A forced build has the same guarantee with no assumption on file contents. |
| RepositoryIndex.SameStateEditIsMissed | agent/repository_map_engine.py:411-412 | An edit that keeps modification time and size is not seen by an unforced build. |
| RepositoryIndex.OutageKeepsEntry | agent/repository_map_engine.py:403-407 | While a file stays tracked and unreadable it keeps exactly its last good entry, over any number of builds. |
| RepositoryIndex.NoOrphan | agent/repository_map_engine.py:476-480 | A file that an unthrottled build does not track leaves no entry behind. |
| FocusSelection.SelectTop | agent/repository_map_engine.py:801-822 | Sort, cut, back-fill, sort and cut give the closed form, in falling score: plain top-k without a focus, else the top with at most its last slot replaced by the backup the loop stopped at. |
| FocusSelection.RankedDescending | agent/repository_map_engine.py:801-801 | Ranking rearranges the candidates by falling score. |
| FocusSelection.TakeIs | agent/repository_map_engine.py:803-803 | A cut takes the first `n`, and with a negative `n` all but the last. |
| FocusSelection.InFocusIff | agent/repository_map_engine.py:386-391 | A path is in focus iff, with slashes for backslashes, it starts with a prefix or is one up to slashes at its end. |
| FocusSelection.CountIsCardinality | agent/repository_map_engine.py:812-812 | The focused count is the number of focused positions. |
| FocusSelection.BackFill | agent/repository_map_engine.py:814-821 | The pop-and-append loop rewrites only the last slot, and it ends with the backup numbered by how many focused results were missing. |
| FocusSelection.SelectionOrdered | agent/repository_map_engine.py:805-822 | The result is in descending score order and has min(limit, candidates) chunks. |
| FocusSelection.BackFillStops | agent/repository_map_engine.py:811-821 | A top that holds the minimum is returned as it is; else its last chunk is the waiting one that would complete the minimum, or the last one waiting. |
| FocusSelection.SelectionFrame | agent/repository_map_engine.py:805-822 | All but the last top chunk are kept, a new last chunk is focused and comes from below the top, and sources stay distinct. |
| FocusSelection.FocusGain | agent/repository_map_engine.py:812-821 | The focused count rises by exactly one if the back-fill runs and the slot it takes was unfocused, and otherwise not at all. |
| FocusSelection.MinimumMetIff | agent/repository_map_engine.py:812-821 | The requested minimum is met iff plain top-k meets it, or is one short while a backup exists and the last slot is unfocused. |
| FocusSelection.MinimumMissed | agent/repository_map_engine.py:812-821 | Over an unfocused top, exactly one focused chunk is selected, whatever minimum is asked for. |
| FocusSelection.MinimumMissedExample | agent/repository_map_engine.py:812-821 | An instance: two places, two focused chunks asked for and two waiting, one selected. |
| CircuitBreaker.OpenIffThreshold | agent/llm_resilience.py:30-59 | In every run the breaker is open iff its counter has reached the threshold. |
| CircuitBreaker.LastResetExists | agent/llm_resilience.py:33-59 | Every history has a position just after its last success or half-open reset, or is counted from its start. |
| CircuitBreaker.FailuresSinceReset | agent/llm_resilience.py:33-59 | The counter is the number of failure reports since the last success or half-open reset. |
| CircuitBreaker.RefusedAfterRecentFailures | agent/llm_resilience.py:30-55 | On the observable history alone: with `threshold` failure reports after the last success and no older than the recovery time, every check is refused. |
| CircuitBreaker.RefusalNeedsFailures | agent/llm_resilience.py:30-55 | A refusal implies `threshold` failure reports after the last success, the latest of which is no older than the recovery time. |
| CircuitBreaker.StaysOpen | agent/llm_resilience.py:30-63 | An open breaker stays open through any mix of checks and failures until a success, or a check more than the recovery time after the latest failure. |
| CircuitBreaker.OpenRefuses | agent/llm_resilience.py:30-39 | Every check in such a stretch is refused. |
| CircuitBreaker.ProvidersIndependent | agent/llm_resilience.py:7-7 | A provider's breaker depends only on that provider's own events, in every interleaving. |
| RateLimiter.DequeIsWindow | agent/llm_resilience.py:106-133 | In every run the pruned deque is the full admission history of the last 60 seconds. |
| RateLimiter.AtMostRpm | agent/llm_resilience.py:106-123 | Every closed 60-second interval of every run holds at most `rpm` admissions. |
| RateLimiter.RefusedIffFull | agent/llm_resilience.py:112-123 | A request is refused iff exactly `rpm` admissions lie in the closed last 60 seconds. |
| RateLimiter.DisabledAdmitsAll | agent/llm_resilience.py:106-111 | A limit of zero or less admits every request and records none. |
| RateLimiter.QueriesIrrelevant | agent/llm_resilience.py:126-133 | Interleaved state queries change no decision. |
| ErrorRate.DequeIsHistory | agent/llm_resilience.py:57-80 | Under destructive pruning the deque is the full report history since the latest cutoff any query used. |
| ErrorRate.QueryCount | agent/llm_resilience.py:71-82 | A query returns the number of reports since the latest cutoff, its own or an earlier query's. |
| ErrorRate.QueryExactIff | agent/llm_resilience.py:71-82 | A query never over-counts, and is exact iff no report lies between its cutoff and the latest earlier one. |
| ErrorRate.NarrowThenWide | agent/llm_resilience.py:71-82 | A narrow query makes a later wide one miss a report that is still in its window. |
| LlmResilience.Resilience.CheckCircuitBreaker | agent/llm_resilience.py:30-39 | Admits and half-opens as the breaker machine does, touching no other provider. |
| LlmResilience.Resilience.ReportFailure | agent/llm_resilience.py:42-68 | Makes the breaker's failure step and appends one report to the failure window. |
| LlmResilience.Resilience.ReportSuccess | agent/llm_resilience.py:57-62 | Makes the breaker's success step and appends one report to the success window. |
| LlmResilience.Resilience.CheckRateLimit | agent/llm_resilience.py:106-123 | Decides and updates the deque as the limiter machine does; a limit of zero or less admits without recording. |
| LlmResilience.Resilience.GetRateLimitState | agent/llm_resilience.py:126-140 | Prunes the deque and returns its length. |
| LlmResilience.Resilience.GetProviderErrorRate | agent/llm_resilience.py:71-92 | Prunes both windows and returns their lengths and the exact failure ratio, zero when empty. |
| LlmResilience.PopExpired | agent/llm_resilience.py:114-115 | The `popleft` loop leaves the deque from its first element at or after the cutoff. |
| Timeline.PrunedIsSince | agent/llm_resilience.py:77-80 | On a time-ordered deque that is exactly the elements at or after the cutoff. |
| LlmCall.JudgeByOutcome | agent/llm_integration.py:697-854 | Errors that are neither permanent nor blocks and blank answers are retried; blocks and permanent errors, in preparation or execution, are final; a cached text or an answer that is not blank wins. |
| LlmCall.RunAttempts | agent/llm_integration.py:697-881 | On the outcomes alone: the text of the first attempt that yields one after only retried ones within `max_retries + 1`; nothing after a final attempt or if all are retried; and the exact number of executions, none after the deciding attempt. |
| LlmCall.PassGates | agent/llm_integration.py:593-617 | Breaker, rate limit and context check in this order; a refusal by the breaker leaves the limiter alone, and an admitted call makes the limiter step even if it is then stopped. |
| LlmCall.Report | agent/llm_resilience.py:42-68 | One report moves the breaker and one of the two windows; a failure may be timed differently in both. |
| LlmCall.CallLlm | agent/llm_integration.py:593-903 | A call refused at a gate or by its context executes and reports nothing; any other has the outcome of its attempts and makes exactly one success or one failure report. The breaker, limiter and windows of its provider change by just its own events, those of every other provider not at all. |
| LlmCall.OpenNeedsFailedCalls | agent/llm_integration.py:697-883 | Under every interleaving of calls, the breaker is open iff at least `threshold` different calls failed as a whole since the last reset, however often each retried. |
| FairOrder.FairRegistryOrder | agent/hybrid_repository_scan.py:191-205 | The nested deque loops terminate and return a permutation of the candidates, in terms of their strings: P0 before all else, P1 before P2 and the rest, P2 before the rest; files of one priority and family in path order; and in every prefix no family of a priority more than one file ahead of another that has files left, nor ahead at all of an alphabetically earlier one. It is the sort by (priority, position within family, family). |
| FairOrder.FairIsListing | agent/hybrid_repository_scan.py:191-205 | The order sorted by key has all of these properties. |
| FairOrder.RoundRobin | agent/hybrid_repository_scan.py:199-204 | For one priority, the `while any` loop lists every file of every family once, in strictly increasing key order. |
| FairOrder.TrackedRegistryFiles | agent/hybrid_repository_scan.py:187-188 | The cap returns a prefix of such a listing of length min(max(0, max_files), candidates). |
| FairOrder.FairIsFairOrder | agent/hybrid_repository_scan.py:191-205 | The sorted order is a permutation of the candidates without duplicates. |
| FairOrder.ListingIsFair | agent/hybrid_repository_scan.py:191-205 | Any listing of all files in strictly increasing key order is that order. |
| FairOrder.TakesFromFront | agent/hybrid_repository_scan.py:202-204 | Every prefix holds the first files of each family's queue, in queue order. |
| FairOrder.PrefixFairness | agent/hybrid_repository_scan.py:187-205 | In every prefix, families of one priority are within one file of each other until the smaller is used up, and an alphabetically earlier family is never behind. |
| FairOrder.PriorityExhausted | agent/hybrid_repository_scan.py:198-204 | No file of a lower priority appears before every higher priority is exhausted. |
| Strings.StrLeIff | agent/hybrid_repository_scan.py:195-200 | The order of names: a prefix first, else the smaller character at the first difference. |
| ContextMerge.MergeSameSource | agent/context_manager.py:122-150 | The in-place merge leaves the surviving objects with the merged values, and the other objects untouched. |
| ContextMerge.ContextChunk.Reinforce | agent/context_manager.py:137-149 | A later chunk of the same source has its engine added to the metadata string, combines the scores, and replaces the content only if longer and strong enough. |
| ContextMerge.MergedSources | agent/context_manager.py:123-150 | There is one output per distinct non-empty source in first-seen order; chunks without a source stay separate. |
| ContextMerge.MergedRepresents | agent/context_manager.py:123-149 | Whatever the scores, each output has a member's content no shorter than the first one's, and its metadata string lists exactly what the engine names of its group list, whatever those names are. |
| ContextMerge.MergedScores | agent/context_manager.py:147-147 | With non-negative scores the score of each output lies between its group's maximum and sum. |
| ContextMerge.LaterChunkReinforces | agent/context_manager.py:147-149 | One more chunk of a known source adds 15 percent of the smaller score to the larger one; its content replaces a shorter one iff its score is at least 80 percent of the new one; other outputs stay. |
| ContextMerge.NewChunkIsKept | agent/context_manager.py:124-136 | A chunk of a new source is appended with its engine as metadata, one without a source as it is. |
| ContextMerge.SignalAdded | agent/context_manager.py:137-146 | One split, strip, add, sort and join step adds exactly what the new engine's name lists. |
| ContextMerge.SortedNamesSound | agent/context_manager.py:142-145 | The written list holds each name once, in code-point order. |
| ContextMerge.SignalsRoundTrip | agent/context_manager.py:137-146 | A joined list reads back as the union of what its names list; plain names are read back as they are. |
| ContextMerge.SignalsAreEnginesIff | agent/context_manager.py:130-146 | The metadata of a merged output lists exactly the engines of its group iff every engine name is non-empty, stripped and without a comma. |
| ContextMerge.CommaNameIsSplit | agent/context_manager.py:137-146 | In every merged output an engine name with a comma is listed as its two parts and not as itself. |
| ContextRerank.Rerank | agent/context_manager.py:59-119 | Rescoring and merging in place, then ranking and packing, return different input objects whose values are the selection of the merged values. |
| ContextRerank.RescoredScores | agent/context_manager.py:68-78 | Rescoring multiplies by the engine's weight, adds a quarter per token found and changes nothing else. |
| ContextRerank.SameKeyIff | agent/context_manager.py:92-92 | Two chunks share a key iff engine, source and the contents or their first 120 characters agree. |
| ContextRerank.SumsConcat | agent/context_manager.py:96-103 | Characters and tokens of a selection are the sums over its chunks. |
| ContextRerank.Tokens | agent/context_manager.py:56-57 | Four characters to a token, rounded down, at least one. |
| ContextRerank.Select | agent/context_manager.py:81-119 | With at least one place the two loops are one greedy pass over the engine heads followed by the ranking; with none they return the first head that fits. |
| ContextRerank.SelectionBounded | agent/context_manager.py:86-119 | The selection respects the count, character and token budgets, has distinct keys, and holds ranked chunks only. |
| ContextRerank.SelectionSaturated | agent/context_manager.py:106-119 | If places are left, every ranked chunk not selected has a used key or would overflow the final totals. |
| ContextRerank.SelectionDiverse | agent/context_manager.py:91-104 | If the engine heads fit together, they all come first and every engine present is represented. |
| ContextRerank.HeadsSound | agent/context_manager.py:82-84 | There is exactly one head per engine present. |
| ContextRerank.HeadIsBest | agent/context_manager.py:81-84 | An engine's head scores at least as high as every other chunk of that engine. |
| ContextRerank.CountLimitIff | agent/context_manager.py:99-104 | The count limit holds iff it allows at least one chunk or no engine head fits by itself. |
| ContextRerank.ZeroLimitReturnsOne | agent/context_manager.py:99-104 | A limit of zero chunks can still return one. |
| MessageTrim.TrimMessages | agent/llm_integration.py:338-382 | Lists within budget are returned unchanged; others keep the cut system message and the longest tail that fits, with at most its oldest message cut to its own end, and never lose the newest message. |
| MessageTrim.KeepTail | agent/llm_integration.py:363-376 | The backward loop keeps a suffix, or a suffix preceded by the end of the next older message, within its room, and uses the room exactly if anything is lost. |
| MessageTrim.Truncate | agent/llm_integration.py:329-335 | Truncation keeps a start or an end, never exceeds the token budget, and meets it exactly when it has to cut a longer text. |
| MessageTrim.SystemKept | agent/llm_integration.py:356-361 | The system message is cut at its end to half the budget, and by less than one token if it needs no more than that. |
| MessageTrim.HeadByRole | agent/llm_integration.py:354-361 | Only a leading message of the role "system" is kept apart; what follows it, or everything if there is none, is the kept tail of the others within what it leaves. |
| MessageTrim.Budget | agent/llm_integration.py:339-339 | The larger of 256 and what the context leaves beside the output and a reserve of 256. |
| MessageTrim.LossUsesBudget | agent/llm_integration.py:363-376 | A lost or shortened non-system message implies that the budget is used exactly. |
| MessageTrim.KeptTailMaximal | agent/llm_integration.py:363-376 | One more whole message would overflow the room. |
| MessageTrim.TrimmedDetermined | agent/llm_integration.py:338-382 | The promise determines the result: two lists that satisfy it are equal. |
| MessageTrim.TrimmedTwice | agent/llm_integration.py:349-354 | Trimming a trimmed list again returns it unchanged. |
| Retention.AppendSample | agent/llm_benchmarks.py:116-142 | The loop prunes by age, appends, and caps by number. |
| Retention.StoredIsWindow | agent/llm_benchmarks.py:116-142 | With fixed retention and a nondecreasing clock the stored list is the last `max_samples` of all samples ever recorded within `max_days` of the latest. |
| Retention.AgeLimit | agent/llm_benchmarks.py:116-122 | A sample outlives the next one iff it is at most `max_days` days of 86400 seconds older. |
| Retention.StoredIsSurvivors | agent/llm_benchmarks.py:116-142 | Whatever the clock does, the stored list holds exactly the samples that no later sample's cutoff has passed and from which on no step ever had more than `max_samples` survivors. |
| Retention.StoredIsWindowIff | agent/llm_benchmarks.py:116-142 | For every history and policy the stored list is the last `max_samples` within `max_days` of the latest sample iff the cap is not positive, or retention is not negative and no sample of that window was passed by a later cutoff or removed by the cap before. |
| Retention.BackwardsClockLoses | agent/llm_benchmarks.py:116-122 | With a clock that runs backwards a pruned sample does not return to the window. |
| Ledger.Apply | agent/llm_benchmarks.py:193-213 | One report adds its contribution to every counter and appends its sample. |
| Ledger.RecordingConserves | agent/llm_benchmarks.py:189-216 | Recording keeps every bucket balanced (total = success + failed = pass + fail) and the overall bucket equal to the sum over task kinds in every counter. |
| Ledger.BenchmarkDb.RecordSample | agent/llm_benchmarks.py:145-227 | One call updates the model and, if named, the profile, and keeps every entry of both conserved; unnamed providers or models record nothing. |
| Ledger.RunConserves | agent/llm_benchmarks.py:145-227 | Every model and every profile of every reachable database is conserved. |
| Ledger.BucketsAreHistory | agent/llm_benchmarks.py:145-227 | After any history each bucket, of a model or of a profile, is the aggregate and retained window of exactly its own calls. |
| Ledger.BucketsCount | agent/llm_benchmarks.py:193-213 | After any history the counters of each bucket count exactly the calls of its model or profile and task kind: all, successful, failed, passed and not passed ones, and the sums of their positive latencies, positive tokens and costs. |
| Ledger.BucketsSample | agent/llm_benchmarks.py:104-142 | Every stored sample says what one of these calls reported, at its time. |
| Ledger.EntryKeepsWindow | agent/llm_benchmarks.py:104-142 | The samples that the overall bucket and each task-kind bucket of a reachable model or profile keep are the last `max_samples` within `max_days` of all it recorded. |
| MapSum.SumUnique | agent/llm_benchmarks.py:189-216 | The sum over a dictionary is one value, in whatever order its entries are added. |
| OllamaLedger.OllamaDb.RecordSample | agent/ollama_benchmark.py:314-394 | One call updates the role, parameter and overall buckets and keeps every model conserved. |
| OllamaLedger.ReportConserves | agent/ollama_benchmark.py:349-391 | The overall bucket stays the sum over roles and the sum over parameter keys and roles, and each role's bucket the sum over its parameter keys. |
| OllamaLedger.RequestsConserve | agent/ollama_benchmark.py:314-394 | Every model of every reachable database keeps these sums. |
| OllamaLedger.SlotsAreHistory | agent/ollama_benchmark.py:314-394 | After any history each overall, role and parameter bucket is the aggregate and retained window of exactly the requests for its model, role and parameter key. |
| OllamaLedger.SlotsCount | agent/ollama_benchmark.py:349-391 | The counters of each of these buckets count exactly its own requests in the same sense. |
| OllamaLedger.SlotsSample | agent/ollama_benchmark.py:363-388 | Every stored sample says what one of its own requests reported. |
| OllamaLedger.SlotKeepsWindow | agent/ollama_benchmark.py:363-388 | With a nondecreasing clock each of these buckets keeps the last `max_samples` within `max_days` of all its requests. |
| Scoring.ScoreInRange | agent/llm_benchmarks.py:396-412 | Every balanced bucket of the LLM benchmark scores within 0 and 100. |
| Scoring.LlmScoreParts | agent/llm_benchmarks.py:406-410 | The LLM score has 45 points for success, 35 for quality, 10 for latency on a scale of 30 s and 10 for tokens on a scale of 8000, per average request. |
| Scoring.WeightedScoreParts | agent/hub_benchmark.py:181-197 | The hub score gives each configured weight to its own part, latency on a scale of 60 s and cost on one of 0.01. |
| Scoring.OllamaScoreParts | agent/ollama_benchmark.py:286-302 | The Ollama score gives 40, 35, 15 and 10 points by default, latency on a scale of 120 s and cost on one of 0.001. |
| Scoring.EmptyScores | agent/hub_benchmark.py:181-187 | An empty bucket scores only for what it has not used. |
| Scoring.InRangeIff | agent/hub_benchmark.py:173-197 | In the hub and Ollama schemes every balanced bucket scores within 0 and 100 iff no configured weight is negative and the four sum to at most one. |
| Scoring.HeavyWeightOverflows | agent/hub_benchmark.py:189-197 | A configured success weight of 2 scores a perfect request 260. |
| Scoring.ScoreMonotone | agent/llm_benchmarks.py:396-412 | Scores grow with successes and quality passes and fall with latency and tokens. |
| Scoring.WeightedMonotone | agent/ollama_benchmark.py:278-302 | With weights that are not negative, hub and Ollama scores grow with successes and quality passes and fall with latency and cost. |
| Scoring.MonotoneIff | agent/ollama_benchmark.py:278-302 | A better balanced bucket never scores lower iff no weight is negative. |
| Scoring.ReachableScores | agent/llm_benchmarks.py:396-412 | Every bucket of every model and profile of every reachable database scores within 0 and 100. |
| Scoring.ReachableOllamaScores | agent/ollama_benchmark.py:278-302 | With weights that are not negative and sum to at most one, so does every overall, role and parameter bucket of every reachable Ollama database. |
| Scheduler.MutualExclusion | agent/scheduler.py:77-89 | Under every interleaving of clock readings, scans, single reads, submissions, stores, additions and removals, the in-flight executions are exactly the marked ids, each once. |
| Scheduler.RemovedNeverStarts | agent/scheduler.py:58-61 | In every run a task that is removed while it is not picked never starts again, and one that is picked already at most once more. |
| Scheduler.TickStartsDue | agent/scheduler.py:77-89 | In every completed tick each listed task is read; one that is enabled and due then is looked up among the running ids; and one that is not running then is started in that tick. |
| Scheduler.EarliestStart | agent/scheduler.py:35-40 | In every run no task starts before its interval has passed since it was added. |
| Scheduler.DisabledNeverStarts | agent/scheduler.py:82-82 | A task loaded disabled never starts. |
| Scheduler.PlanByHistory | agent/scheduler.py:143-149 | In every run `last_run` and `next_run` are those the history gives: one interval after the addition or after the reading last stored from, unchanged by crashes and removals. |
| Scheduler.RunHasTrace | agent/scheduler.py:77-149 | The traces these results speak of are exactly the runs. |
| Scheduler.SpacedIff | agent/scheduler.py:79-149 | In every run a start keeps its interval after a normally ended run iff no executor stored the task's `next_run` between the two reads that selected it, or the one that did had read the clock at least the interval before the tick. A reading no earlier than the tick never suffices. |
| Scheduler.AtomicSpacing | agent/scheduler.py:127-149 | With atomic selection every start comes at least the interval after the end of a normally ended run. |
| Scheduler.RaceBreaksSpacing | agent/scheduler.py:79-86 | A reachable run in which a task with a ten-second interval starts again at once. |
| Scheduler.RacedYetSpaced | agent/scheduler.py:143-144 | A reachable run in which the executor read the clock long before the tick, so that the race does no harm. |
| GoalCommand.ParseGoalCommand | agent/scheduler.py:91-103 | The loop reads the goal, and the last context and team parts. |
| GoalCommand.ParseClean | agent/scheduler.py:91-103 | Parsed fields never contain the separator or white space at their ends. |
| GoalCommand.OneMorePart | agent/scheduler.py:98-102 | One more part overwrites the parsed context or team, by its keyword, and is ignored without one. |
| Strings.StripCuts | agent/scheduler.py:97-102 | Stripping cuts white space off both ends and nothing else. |
| Strings.AsciiSpaces | agent/scheduler.py:97-102 | Which characters below 128 are white space. |
| GoalCommand.RoundTripIff | agent/scheduler.py:48-56 | A goal command is read back as printed iff no field contains the separator or begins or ends with white space. |
| GoalCommand.PrintSpelled | agent/scheduler.py:48-56 | The printed command, spelled out for all four combinations of context and team. |
| GoalCommand.ParseSpelled | agent/scheduler.py:91-103 | What the parser makes of it. |
| GoalCommand.AppendedIsParsed | agent/scheduler.py:41-42 | For every command and context, a goal command with the appended context parses as the command followed by those parts of the context that come after a separator inside it. |
| GoalCommand.AppendedContextIsLost | agent/scheduler.py:41-42 | An appended context without separators changes none of the three parsed fields. |
| GoalCommand.AppendedContextIsLostIff | agent/scheduler.py:41-42 | The parsed context of every command stays as it was iff no later part of the appended context starts with the keyword. |
| GoalCommand.AppendedContextIsRead | agent/scheduler.py:41-42 | A separator and the keyword inside the appended context do set the parsed context. |
| DeepMerge.DeepMergeDicts | agent/hub_benchmark.py:84-91 | The loop over a copy merges objects key by key and lets any other override replace. |
| DeepMerge.SelfMerge | agent/hub_benchmark.py:84-91 | Merging a value with itself changes nothing. |
| DeepMerge.MergeTwice | agent/hub_benchmark.py:84-91 | Applying the same overrides twice is applying them once. |
| DeepMerge.LeavesOfMerge | agent/ollama_benchmark.py:24-31 | A leaf of the result is a leaf of the overrides, or a leaf of the base on a path the overrides do not decide, and all of these are kept. |
| DeepMerge.AssociativeIff | agent/ollama_benchmark.py:24-31 | Merging is associative iff, wherever a leaf stands between two objects, the later object has every key of the earlier one, and so on below until either is a leaf. |
| DeepMerge.NotAssociative | agent/ollama_benchmark.py:24-31 | An object, a leaf and an object for which the order of merging matters. |
| DeepMerge.MergeConfig | agent/ollama_benchmark.py:62-64 | The filtered merge keeps the top-level key set, merges known keys and ignores the others. |
| Guardrails.Evaluate | agent/tool_guardrails.py:139-208 | A disabled guardrail or an empty list allows. Otherwise the list is allowed iff its final aggregates violate no limit; every violated limit is a reason, once; the blocked tools are the calls that trip a class rule, and all calls if a limit on the whole request is exceeded. |
| Guardrails.Scan | agent/tool_guardrails.py:157-177 | The per-call loop reports every class that ends up over its limit and every blocked class that occurs, blocks exactly the calls that trip, and totals cost and external calls. |
| Guardrails.LimitsIff | agent/tool_guardrails.py:154-177 | Each limit in terms of the calls: a class limit counts the calls of the class, a blocked class needs one call, the others compare their total with a positive limit. |
| Guardrails.TripsIff | agent/tool_guardrails.py:170-176 | A call is blocked on its own iff its class is blocked or, with it, over a positive limit. |
| Guardrails.BlocksAllIff | agent/tool_guardrails.py:178-188 | All calls are blocked iff there are too many external ones, or cost or tokens are too high. |
| Guardrails.CallCost | agent/tool_guardrails.py:158-163 | A tool is named by what follows the last dot, is of the class "unknown" if it has none, and costs what its class costs, else what "unknown" costs, else 3. |
| Guardrails.EstimateTokens | agent/tool_guardrails.py:122-127 | Whole tokens of the configured size, at least one unless the text is empty. |
| Guardrails.Defaults | agent/tool_guardrails.py:84-97 | What an empty guardrail section stands for. |
| Guardrails.OrderIrrelevant | agent/tool_guardrails.py:139-208 | The verdict does not depend on the order of the calls. |
| Guardrails.UndoneIff | agent/tool_guardrails.py:139-208 | Exactly which violated limits an extension undoes: the cost by a rebate, the tokens by a text form that replaces JSON and is short enough, the others never. |
| Guardrails.AllowedAgainIff | agent/tool_guardrails.py:139-208 | For every configuration, an extension of a denied list is allowed iff each violated limit is undone and no other becomes violated. |
| Guardrails.DeniedStaysDenied | agent/tool_guardrails.py:130-208 | An extension that does not lower the cost leaves a denied list denied, unless estimated tokens were the only reason and it adds the first call that JSON cannot encode. |
| Guardrails.CostsNeverFall | agent/tool_guardrails.py:139-208 | With non-negative class costs a denied list stays denied under any extension that does not make the text form replace JSON. |
| Guardrails.FallbackAllowsIff | agent/tool_guardrails.py:130-136 | Such an extension is allowed iff that is the case, the printed form of both lists fits the token limit and no other limit is violated. |
| Guardrails.FallbackCanAllow | agent/tool_guardrails.py:84-136 | With a limit of 100 tokens, one character per token and a class for the tool configured, and defaults elsewhere, a call with forty quotation marks is denied, and allowed together with a call that holds a set. |

## Left out

- Symbol extraction, guard limits and their timing: a parse outcome is an input of each visit; `IncrementalIsFresh` assumes it is a function of path, time and size.
- Score heuristics, path focus construction and anchor chunks of `search`: candidates arrive with their scores.
- Lexical token counting in `rerank`: the count per chunk is an input; float rounding of scores is not modelled.
- A chunk source spelled like the key the merge invents for chunks without a source.
- ContextRerank.Rerank: which of several chunk objects with equal values is returned is not stated.
- Non-string message contents in `_trim_messages`.
- CallLlm: logging, tracing and middleware bookkeeping are assumed not to raise; an exception after `_report_llm_success` would be retried and could report twice.
- LlmCall.OpenNeedsFailedCalls: each dictionary update is one step; torn updates of `failures` by concurrent threads are not modelled.
- Configuration that changes during a run: threshold, recovery time, rate limit and retention are fixed in whole-run lemmas.
- Scheduler: one loop thread; restarting it after `stop`, the database and the ten-worker limit of the pool are not modelled.
- Guardrails.Evaluate: the order of reasons and blocked tools and the `details` dictionary are not stated.
- Hub benchmark recording: two levels of the same shape as `Ledger.RecordingConserves`, with roles for task kinds.
- Name normalisation (strip, lower case), legacy database contents and JSON persistence of the benchmark files; `last_seen` and context tags of samples.
- `timeseries_from_samples`, recommendations and rows: single folds and sorts over the modelled buckets.
- Final rounding of scores and error rates.
- The local runtime selection cache, HTTP probing, git and directory walks, authentication, policy tables and user interfaces.
