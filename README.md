# agents-heuristics, modelled in Dafny

This project models the core of an agent that answers a user query in rounds:

- it picks tools and asks a language model for a Python plan that defines `solve()`;
- it runs the plan in a sandbox, records what happened in session memory, and repeats until it has a final answer or runs out of steps.

Around that loop sits a **heuristics system**: three pipelines of checks that run over the query, over the tool list, and over a result.

The model is split into modules that follow the program's structure:

| module (file) | models |
|---|---|
| `Text` (text.dfy) | The Python string operations the core relies on: `split`, `split(sep)`/`join`, `strip`, `strip(chars)`, ASCII `lower`, `find`/`rfind`, `in`, `str(int)`. |
| `Base` (base.dfy) | `HeuristicStatus`, `HeuristicResult`, the context dict, the per-heuristic counters, and how a pipeline threads its payload. |
| `QueryHeuristics`, `ToolHeuristics`, `ResultHeuristics` | Each check of the ten heuristics as a pure function, with its lemmas. The loops the source writes (intent classification, affinity scoring, speed partitioning, claim extraction, grounding) are methods proved against those functions. |
| `Pipeline` (pipeline.dfy) | `BaseHeuristic` as the class `Heuristic`. Its fields are the counters and the mutable state of every concrete heuristic; a `Kind` tag selects the check. `HeuristicPipeline` is a class whose `Run` executes the instances in order. |
| `Manager` (manager.dfy) | `HeuristicManager`: the catalog `_init_heuristics` registers, `process_query`/`process_tools`/`process_result`, metadata extraction, stats, and the forwarding `record_*` calls. |
| `Memory` (memory.dfy) | `MemoryItem`, `ToolExecution`, `ConversationTurn`, the per-session `MemoryManager`, and the shared `ConversationIndex` of past turns. |
| `Action` (action.dfy) | `run_python_sandbox`: the tool-call quota of the sandbox's MCP stand-in and the outcome the sandbox reports. |
| `Decision` (decision.dfy) | The conversation-history prompt section, and plan normalisation with the `solve()` gate. |
| `Loop` (loop.dfy) | `AgentLoop.run`: the step and lifeline loops, each round's outcome as a pure function, the run as a whole, and the imperative class proved against it. |

Parts of the system outside this model become parameters:

- the language model, the embedding service, the vector index, the MD5 digest, the regular-expression engine, the clock and Python `exec`;
- each appears as a function-typed field of a `World` or `Oracles` value, or as a function parameter;
- a plan's execution is an abstract outcome chosen by such an oracle.

Floating-point numbers are modelled as `real`.

## Model

| member | source | states |
|---|---|---|
| Base.Stats.Record | modules/heuristics/base.py:74-85 | One run more is counted, under exactly the returned status; the other counters are unchanged and the counters stay balanced (total = sum of the four statuses). |
| Base.ThreadIsLatestPayload | modules/heuristics/base.py:130-145 | The pipeline's output is its input when no result carries a replacement, and otherwise the replacement of the last result that carries one. |
| Base.ThreadKeeps | modules/heuristics/base.py:130-145 | Any reflexive, transitive relation that each step's replacement has to the payload it was given also holds between the pipeline's input and its output. |
| Pipeline.CheckedKeepsState | modules/heuristics/base.py:63-87 | A check leaves the counters, the affinity table, the latencies and the usage tracking alone. Only deduplication changes any state. |
| Pipeline.CheckedIgnoresStats | modules/heuristics/base.py:74-75 | What a check returns does not depend on the counters. |
| Pipeline.ExecutedCounts | modules/heuristics/base.py:63-87 | A disabled instance returns PASSED with its input and changes nothing. An enabled one adds one run under the status it returned, and nothing else changes. The instance invariant is kept. |
| Pipeline.RanExtend | modules/heuristics/base.py:133-143 | A partial run that has not stopped extends by executing the next instance on the current payload. |
| Pipeline.RanIff | modules/heuristics/base.py:130-145 | A sequence of results is a run exactly when each instance executed, from its old state, on the payload the earlier results left, and, when stopping on failure, no result but the last failed. |
| Pipeline.RanDeterministic | modules/heuristics/base.py:130-145 | Two runs of the same length over the same instances and input agree on every result and every new state. |
| Pipeline.AllStatsKeys | modules/heuristics/base.py:147-152 | `get_all_stats` has a key exactly for each class name among the instances. |
| Pipeline.AllStatsLast | modules/heuristics/base.py:147-152 | A class name maps to the counters of the last instance of that class. |
| Pipeline.Heuristic.constructor | modules/heuristics/base.py:38-47 | A new instance has the given enabled flag and kind, zero counters, empty caches and tables, and is valid. |
| Pipeline.Heuristic.CheckDeduplication | modules/heuristics/query_heuristics.py:190-243 | The imperative check (exact test, scan for a similar cached query, bookkeeping) returns the result and leaves the cache and hash list that the corrected deduplication function computes, so a fresh query evicts only the oldest hash (see `QueryHeuristics.DedupCheckOutcome`). Nothing else changes. |
| Pipeline.Heuristic.Execute | modules/heuristics/base.py:63-87 | `execute` gives the result and new state of the execution function, and keeps the instance valid. |
| Pipeline.Heuristic.GetStats | modules/heuristics/base.py:89-91 | Returns the counters. |
| Pipeline.Heuristic.ResetStats | modules/heuristics/base.py:93-101 | Zeroes the counters; every other field is unchanged. |
| Pipeline.Heuristic.RecordToolUsage | modules/heuristics/tool_heuristics.py:24-33 | Only the affinity table changes, as `RecordUsage` prescribes. |
| Pipeline.Heuristic.RecordToolLatency | modules/heuristics/tool_heuristics.py:116-125 | Only the latency table changes, as `RecordLatency` prescribes. |
| Pipeline.Heuristic.RecordToolCall | modules/heuristics/tool_heuristics.py:214-231 | Only the usage tracking changes, as `RecordCall` prescribes. |
| Pipeline.HeuristicPipeline.constructor | modules/heuristics/base.py:110-111 | The pipeline holds exactly the given instances, in order. |
| Pipeline.HeuristicPipeline.AddHeuristic | modules/heuristics/base.py:113-115 | The new instance is appended after all earlier ones. |
| Pipeline.HeuristicPipeline.GetAllStats | modules/heuristics/base.py:147-152 | Returns the class-name-keyed stats of the instances. |
| Pipeline.HeuristicPipeline.ExecuteAt | modules/heuristics/base.py:133-134 | Executes one instance; every other instance keeps its state. |
| Pipeline.HeuristicPipeline.Run | modules/heuristics/base.py:117-145 | The instances ran in order, each on the payload the earlier results left, until all had run or, when asked, one failed. Those that ran hold their new states and the rest are untouched. The output is the payload the results leave. |
| Manager.RegisteredSorted | modules/heuristics/manager.py:68-136 | Registering catalog entries listed in increasing rank yields instances in increasing rank. |
| Manager.RegisteredMember | modules/heuristics/manager.py:68-136 | An entry's heuristic is registered exactly when its entry is enabled. |
| Manager.QueryCatalog | modules/heuristics/manager.py:68-102 | The query pipeline holds the length filter, PII redaction, deduplication, ambiguity detection and intent classification, in that order. Each is present exactly when the system and its own entry are enabled, and nothing else is present. |
| Manager.ToolCatalog | modules/heuristics/manager.py:104-123 | The tool pipeline holds affinity scoring, time-based prioritization and rate limiting, in that order. Each is present exactly when enabled. |
| Manager.ResultCatalog | modules/heuristics/manager.py:125-136 | The result pipeline holds the confidence threshold, then hallucination detection. Each is present exactly when enabled. |
| Manager.StageKinds | modules/heuristics/manager.py:74-136 | Each pipeline holds only heuristics of its own stage. |
| Manager.CountsAddUp | modules/heuristics/manager.py:224-230 | The four status counts add up to the number of results. |
| Manager.DetailsEntry | modules/heuristics/manager.py:232-238 | The `i`-th result's metadata sits under `heuristic_i`. |
| Manager.DetailsKeys | modules/heuristics/manager.py:232-238 | The keys of "details" are exactly `heuristic_0` … `heuristic_{n-1}`. |
| Manager.ExtractMetadata | modules/heuristics/manager.py:222-240 | The loop builds the metadata dict: the number of results, the count per status, and the details. |
| Manager.MetadataSummary | modules/heuristics/manager.py:222-240 | The metadata has exactly the six keys. The status counts add up to `heuristics_run`, which is the number of results. "details" holds one entry per result: that result's own metadata. |
| Manager.RunKeeps | modules/heuristics/base.py:130-145 | A relation that every instance's step respects holds between a whole run's input and output. |
| Manager.QueryStepStaysText | modules/heuristics/query_heuristics.py:24-353 | Every query heuristic hands on a string when it hands on anything. |
| Manager.ToolStepReorders | modules/heuristics/tool_heuristics.py:49-304 | Every tool heuristic hands on its payload or the same tools reordered. |
| Manager.ResultStepKeeps | modules/heuristics/result_heuristics.py:45-243 | Every result heuristic hands on exactly what it was given, if anything. |
| Manager.QueryRunStaysText | modules/heuristics/manager.py:142-160 | The query pipeline turns a query string into a query string. |
| Manager.ToolRunReorders | modules/heuristics/manager.py:162-179 | The tool pipeline returns the tools it was given, possibly reordered: none is added or lost. |
| Manager.ResultRunKeeps | modules/heuristics/manager.py:181-198 | The result pipeline returns its input unchanged. |
| Manager.Register | modules/heuristics/manager.py:77-80 | A new enabled instance of the kind is appended to the pipeline. |
| Manager.AddIfEnabled | modules/heuristics/manager.py:77-102 | An entry adds its instance exactly when the entry is enabled, and returns a handle to it (null otherwise). |
| Manager.InitQuery | modules/heuristics/manager.py:74-102 | Builds the query pipeline of the catalog. It keeps handles to the deduplication and intent instances exactly when they are registered. |
| Manager.InitTool | modules/heuristics/manager.py:104-123 | Builds the tool pipeline of the catalog, with handles to the affinity, time and rate instances exactly when registered. |
| Manager.InitResult | modules/heuristics/manager.py:125-136 | Builds the result pipeline of the catalog. |
| Manager.HeuristicManager.constructor | modules/heuristics/manager.py:39-140 | With the configuration loaded, every enabled entry gets a fresh, enabled instance in catalog order. The three pipelines are fresh and distinct. |
| Manager.HeuristicManager.RunAdvisory | modules/heuristics/manager.py:152-158 | Runs one pipeline without stopping on failure: one result per instance. The metadata summarises those results and the manager stays valid. |
| Manager.HeuristicManager.ProcessQuery | modules/heuristics/manager.py:142-160 | When the system is off, the query comes back unchanged with empty metadata. Otherwise every query heuristic ran once and the output is still a query string. |
| Manager.HeuristicManager.ProcessTools | modules/heuristics/manager.py:162-179 | The tools that come out are always the tools that went in, possibly reordered. |
| Manager.HeuristicManager.ProcessResult | modules/heuristics/manager.py:181-198 | The result always comes back exactly as it went in. Only the metadata reports. |
| Manager.HeuristicManager.GetHeuristicName | modules/heuristics/manager.py:207-220 | The class name of the instance at that index of that stage. It is "unknown" for an unknown stage or an index past the end. |
| Manager.HeuristicManager.GetStats | modules/heuristics/manager.py:242-248 | The stats of each stage's instances, keyed by class name. |
| Manager.HeuristicManager.RecordToolUsage | modules/heuristics/manager.py:251-254 | Forwards to the affinity instance when one was registered, and does nothing otherwise. |
| Manager.HeuristicManager.RecordToolLatency | modules/heuristics/manager.py:256-259 | Forwards to the time-prioritization instance when one was registered. |
| Manager.HeuristicManager.RecordToolCall | modules/heuristics/manager.py:261-263 | Forwards to the rate limiter when one was registered. |
| QueryHeuristics.Sentences | modules/heuristics/query_heuristics.py:62 | The pieces between runs of `.`, `!`, `?` hold no terminator. A text without one is a single piece. |
| QueryHeuristics.LongSentenceCount | modules/heuristics/query_heuristics.py:63-65 | The count is positive exactly when some sentence has more words than the limit. |
| QueryHeuristics.Truncate | modules/heuristics/query_heuristics.py:37-38 | The truncated query is within both the word limit and the character limit, and is a prefix of the first `max_words` words joined by spaces. |
| QueryHeuristics.LengthCheckBounds | modules/heuristics/query_heuristics.py:24-83 | The filter fails exactly the over-long queries it may not truncate, and modifies exactly the ones it may. A failure hands nothing on. Whatever text it hands on is within both limits. |
| QueryHeuristics.LengthCheckSentences | modules/heuristics/query_heuristics.py:61-83 | A query within the limits is handed on unchanged. It is warned about exactly when some sentence is too long, and passes otherwise. |
| QueryHeuristics.RedactKindsFires | modules/heuristics/query_heuristics.py:115-138 | Some item is redacted exactly when some enabled pattern finds a match in the text as the patterns before it left it. |
| QueryHeuristics.PiiCheckOutcome | modules/heuristics/query_heuristics.py:110-154 | The status is MODIFIED exactly when some enabled pattern matched the query (as the earlier patterns left it), and otherwise PASSED with the query unchanged. The redacted text is always handed on, and a MODIFIED result reports the number of redacted items, which is positive. |
| QueryHeuristics.RedactKindsAgree | modules/heuristics/query_heuristics.py:115-138 | The redaction steps depend only on the patterns that are switched on. |
| QueryHeuristics.PiiIgnoresDisabledKinds | modules/heuristics/query_heuristics.py:110-154 | A pattern switched off in the configuration has no effect on the outcome. |
| QueryHeuristics.Similarity | modules/heuristics/query_heuristics.py:178-188 | The similarity lies between 0 and 1. |
| QueryHeuristics.SimilarityOneIffSameWords | modules/heuristics/query_heuristics.py:178-188 | Similarity is symmetric. It is 1 exactly for two queries with the same non-empty set of lower-cased words. |
| QueryHeuristics.CachedIffListed | modules/heuristics/query_heuristics.py:170-171 | In a valid cache a hash is stored exactly when it is listed. |
| QueryHeuristics.FirstSimilar | modules/heuristics/query_heuristics.py:207-225 | Returns the first listed hash whose cached query is similar enough, or -1 when there is none. |
| QueryHeuristics.AdmitFreshKeepsValid | modules/heuristics/query_heuristics.py:227-234 | For a hash not yet cached, the source's bookkeeping cannot fail and keeps the cache valid: each listed hash is stored once and no more than `cache_size` are kept. |
| QueryHeuristics.Admit | modules/heuristics/query_heuristics.py:227-234 | The corrected bookkeeping keeps the cache valid and stores the new query under its hash. A new hash goes to the back of the list, and when the list is over size only the oldest (front) hash is evicted. An already listed hash keeps its place. Every other surviving entry keeps its query. |
| QueryHeuristics.DedupCheck | modules/heuristics/query_heuristics.py:190-243 | The corrected deduplication check keeps the cache valid: keys equal the listed hashes, no hash is listed twice, and at most `cache_size` are listed. |
| QueryHeuristics.DedupCheckOutcome | modules/heuristics/query_heuristics.py:190-243 | The query is always handed on. It is warned about exactly when it is an exact duplicate (with exact matching on) or similar to some cached query, and then the cache is unchanged. Otherwise it passes and is cached in FIFO order: its hash is appended, only the oldest hash is evicted when the list is over size, and every other entry keeps its query. |
| QueryHeuristics.DedupAsWrittenSafeWithExactMatch | modules/heuristics/query_heuristics.py:190-234 | With exact matching on (the default), the source's bookkeeping never fails and agrees with the corrected one. |
| QueryHeuristics.DedupAsWrittenKeyError | modules/heuristics/query_heuristics.py:227-234 | With exact matching off and a cache of one, the queries "", "", "x" make the source delete a hash that is no longer cached (the `KeyError`). |
| QueryHeuristics.WordsIn | modules/heuristics/query_heuristics.py:290 | The vague words found are words of the query and of the vocabulary. The list is empty exactly when no word is vague. |
| QueryHeuristics.VagueRatio | modules/heuristics/query_heuristics.py:278-280 | The ratio lies between 0 and 1, and is 0 exactly when no word is vague. |
| QueryHeuristics.AmbiguityVerdict | modules/heuristics/query_heuristics.py:260-307 | The query passes exactly when it has enough words and a vague ratio within the threshold. Otherwise it is warned about, never failed. It is always handed on, and a passing query's clarity score is in [0, 1]. |
| QueryHeuristics.ClassifyIntents | modules/heuristics/query_heuristics.py:330-336 | The nested loop, which stops at each intent's first keyword found, detects exactly the intents in configuration order that have a keyword in the query. |
| QueryHeuristics.DetectedIntentsIff | modules/heuristics/query_heuristics.py:332-336 | An intent is detected exactly when one of its keywords occurs in the query. |
| QueryHeuristics.PrimaryIsFirstMatch | modules/heuristics/query_heuristics.py:338-343 | The primary intent is the first configured intent that matches, or "general" when none does. |
| QueryHeuristics.IntentCheckTransparent | modules/heuristics/query_heuristics.py:345-353 | Classification always passes and hands on its input unchanged. |
| ToolHeuristics.SortDescCorrect | modules/heuristics/tool_heuristics.py:76 | The stable descending sort orders by key, loses and adds nothing, and keeps tools with equal keys in their original order. |
| ToolHeuristics.RecordUsage | modules/heuristics/tool_heuristics.py:24-33 | Only the combination's entry is added or changed, and the table stays well formed (successes ≤ total, total ≥ 1). |
| ToolHeuristics.AffinityScore | modules/heuristics/tool_heuristics.py:35-47 | The score lies between 0 and 1. |
| ToolHeuristics.RecordUsageScore | modules/heuristics/tool_heuristics.py:24-47 | One more recorded outcome counts one more call (and success). Once enough samples exist, the score becomes the new success rate, and no other combination's score changes. |
| ToolHeuristics.ScoreTools | modules/heuristics/tool_heuristics.py:66-71 | The loop pairs each tool, in order, with its affinity score. |
| ToolHeuristics.AffinityCheckReranks | modules/heuristics/tool_heuristics.py:49-97 | Always hands on a payload and never fails. A tool list is re-ranked exactly when some score is not neutral. The re-ranking is the same tools sorted by score, largest first, with ties in their original order. |
| ToolHeuristics.WindowOfWindow | modules/heuristics/tool_heuristics.py:121-125 | Trimming to the last 20 after every append keeps exactly the last 20 of the whole history. |
| ToolHeuristics.AvgLatencyBounds | modules/heuristics/tool_heuristics.py:127-132 | The average of the kept measurements exists when there are some, and lies within their range. |
| ToolHeuristics.PartitionBySpeed | modules/heuristics/tool_heuristics.py:158-174 | The categorising loop yields the fast, normal and slow tools, each in original order. Unmeasured tools count as normal. |
| ToolHeuristics.SpeedClassesPartition | modules/heuristics/tool_heuristics.py:158-174 | The three classes together hold exactly the given tools. |
| ToolHeuristics.ReorderCorrect | modules/heuristics/tool_heuristics.py:176-178 | `fast + normal + slow` holds the same tools ordered by class, each class in its original order. |
| ToolHeuristics.TimeCheckReorders | modules/heuristics/tool_heuristics.py:134-194 | Always hands on a payload and never fails. It only reorders a tool list for a simple query with the preference on, and then gives the same tools ordered fast, normal, slow, each class in its original order. |
| ToolHeuristics.RecordCall | modules/heuristics/tool_heuristics.py:214-231 | Only the session's record is added or changed. |
| ToolHeuristics.RecordCallMatchesLog | modules/heuristics/tool_heuristics.py:214-239 | Recording a call keeps the session's record in agreement with the log of the steps at which its calls were made: total, per-step counts, and expensive ≤ total. |
| ToolHeuristics.RateCheckVerdict | modules/heuristics/tool_heuristics.py:241-304 | Fails exactly when a context is given and the session or the current step has used up its calls; a failure hands nothing on. Warns exactly for an expensive tool name past its limit. Never modifies. |
| ToolHeuristics.RateLimitHolds | modules/heuristics/tool_heuristics.py:214-304 | A call the check lets through and that is then recorded leaves the session and the step within their limits. |
| ResultHeuristics.ConfidenceFromHedges | modules/heuristics/result_heuristics.py:40-43 | The confidence lies in [0, 1], and is 1 exactly when there is no hedging. |
| ResultHeuristics.Confidence | modules/heuristics/result_heuristics.py:26-43 | The computed confidence lies in [0, 1]. |
| ResultHeuristics.ConfidenceMonotone | modules/heuristics/result_heuristics.py:40-43 | More hedging never raises the confidence. |
| ResultHeuristics.ConfidenceVerdict | modules/heuristics/result_heuristics.py:45-95 | Fails exactly below the minimum confidence, handing nothing on. Warns exactly between the minimum and 0.85. Passes otherwise. It never changes the result it hands on. |
| ResultHeuristics.DefaultConfidenceBands | modules/heuristics/result_heuristics.py:14-95 | With the default configuration and no confidence in the context, one hedging occurrence passes, two warn, and three or more fail. |
| ResultHeuristics.NonEmptyMembers | modules/heuristics/result_heuristics.py:131-133 | Exactly the non-empty sentences are kept. |
| ResultHeuristics.ClaimsSound | modules/heuristics/result_heuristics.py:118-135 | No claim is empty, and every claim is the sentence around a match of some suspicious pattern. |
| ResultHeuristics.ClaimsComplete | modules/heuristics/result_heuristics.py:118-135 | Every non-empty sentence around a match of a pattern is a claim. |
| ResultHeuristics.AppendNonEmpty | modules/heuristics/result_heuristics.py:125-133 | The inner loop appends exactly the non-empty sentences, in order. |
| ResultHeuristics.ExtractClaims | modules/heuristics/result_heuristics.py:118-135 | The extraction loop yields the claims pattern by pattern, match by match. |
| ResultHeuristics.RejectedEmptyIff | modules/heuristics/result_heuristics.py:171-182 | Nothing is rejected exactly when every element passes. |
| ResultHeuristics.UngroundedEmptyIff | modules/heuristics/result_heuristics.py:171-187 | No claim is left ungrounded exactly when every claim is grounded. |
| ResultHeuristics.UngroundedClaims | modules/heuristics/result_heuristics.py:168-182 | The grounding loop collects the ungrounded claims, in order. |
| ResultHeuristics.CheckGrounding | modules/heuristics/result_heuristics.py:137-191 | The grounding score lies in [0, 1]. |
| ResultHeuristics.GroundingVerdict | modules/heuristics/result_heuristics.py:137-191 | The result is grounded exactly when there are tool outputs and no claim is ungrounded in them. A grounded result scores 1 and any other scores below 1. |
| ResultHeuristics.HallucinationVerdict | modules/heuristics/result_heuristics.py:193-243 | The check never warns (the WARNING branch is unreachable) and never modifies. It fails exactly when grounding is required and there are no tool outputs or some claim is ungrounded; a failure hands nothing on. A pass hands on the input. |
| ResultHeuristics.FullyCoveredClaimGrounded | modules/heuristics/result_heuristics.py:171-181 | A claim all of whose non-stopword words occur in the outputs is grounded. |
| Text.Split | modules/heuristics/query_heuristics.py:26 | `str.split()` yields non-empty words that hold no whitespace. |
| Text.SplitJoin | modules/heuristics/query_heuristics.py:37-38 | Splitting words joined by single spaces gives back the same words. |
| Text.SplitPrefixCount | modules/heuristics/query_heuristics.py:37-38 | Cutting a string to a prefix never yields more words than the whole string has. |
| Text.SplitOnJoin | modules/memory.py:114 | `s.split(c)` followed by `c.join` restores `s`. |
| Text.Strip | core/loop.py:149 | `strip()` never lengthens its input, and the result neither starts nor ends with whitespace. |
| Text.StripUnpadded | modules/decision.py:75 | A string that neither starts nor ends with whitespace is its own strip. |
| Text.StripLeftSpaces | modules/decision.py:75-82 | Leading whitespace in front of a word is exactly what `lstrip` removes. |
| Text.StripRightSpaces | modules/decision.py:75-82 | Trailing whitespace after a word is exactly what `rstrip` removes. |
| Text.StripCharLeftRun | modules/decision.py:80 | A leading run of the character is exactly what `lstrip(c)` removes. |
| Text.StripCharRightRun | modules/decision.py:80 | A trailing run of the character is exactly what `rstrip(c)` removes. |
| Text.FindSpec | modules/heuristics/result_heuristics.py:128 | `find` returns an occurrence at or after the start, and no earlier one exists; -1 means there is no occurrence from the start on. |
| Text.RFindCharSpec | modules/heuristics/result_heuristics.py:127 | `rfind` returns a position holding the character, with none after it before the end bound. |
| Text.PieceAfterFirst | core/loop.py:178 | The piece after the first separator is shorter than the input and holds no separator. |
| Text.NatToStringInjective | modules/memory.py:84-86 | Different natural numbers print differently. |
| Text.IntToStringInjective | modules/memory.py:84-86 | Different integers print differently. |
| Text.ParseNatToString | modules/memory.py:84-86 | Reading a printed number back gives the number. |
| Text.JoinHasElement | modules/decision.py:42 | Every element of a joined list occurs in the result. |
| Text.JoinHead | modules/decision.py:42 | A joined list starts with its first element. |
| Memory.ToolsLine | modules/memory.py:73-74 | The tools line reads "No tools" exactly when no tool ran. |
| Memory.SummaryLines | modules/memory.py:71-81 | A turn's summary has three lines, the query, the tools and the first 200 characters of the answer, when none of them holds a line break. |
| Memory.TurnIdInjective | modules/memory.py:84-86 | Two steps of one session never share a turn id. |
| Memory.SessionPathShape | modules/memory.py:114 | The session file lies at `memory/<p0>/<p1>/<p2>/session-<id>.json`, where p0 to p2 are the first three dash pieces of the id. |
| Memory.SessionPathFile | modules/memory.py:114 | Whatever the id, the path ends with a slash and the session's own file name. |
| Memory.JoinPathEndsWith | modules/memory.py:114 | `os.path.join` of a non-empty directory and a relative name puts a slash right before the name. |
| Memory.NewestNamesSpec | modules/memory.py:182-194 | The names found among the newest items are distinct. They are exactly the tools with a successful output there, ordered from the most recently successful. |
| Memory.NewestNamesPrefix | modules/memory.py:186-192 | Looking at more items only extends the list of names found so far. |
| Memory.MemoryManager.constructor | modules/memory.py:111-132 | The path is built from the session id, and the items are those the file holds, or none when it is absent. |
| Memory.MemoryManager.Save | modules/memory.py:134-139 | The file holds the items afterwards, and the items are unchanged. |
| Memory.MemoryManager.Add | modules/memory.py:141-143 | The item is appended and the file rewritten. |
| Memory.MemoryManager.AddToolCall | modules/memory.py:145-156 | A tool-call item naming the tool and its arguments is appended and saved. |
| Memory.MemoryManager.AddToolOutput | modules/memory.py:158-171 | A tool-output item with the arguments, result and success flag is appended and saved. |
| Memory.MemoryManager.AddFinalAnswer | modules/memory.py:173-180 | A final-answer item is appended and saved. |
| Memory.MemoryManager.FindRecentSuccesses | modules/memory.py:182-194 | A positive limit gives the first `limit` of the successful tools, newest first and each once. A limit below 1 looks only at the newest item. |
| Memory.MemoryManager.AddToolSuccess | modules/memory.py:196-207 | Only the newest call or output of the tool gets the success flag. With no such item nothing changes. |
| Memory.MemoryManager.GetSessionItems | modules/memory.py:209-213 | Returns the session's items. |
| Memory.AddKeepsAlignment | modules/memory.py:316-341 | An index whose vectors match its turns still matches after an add. |
| Memory.AddRepairsAlignment | modules/memory.py:338-341 | A misaligned index is realigned by the next add when embedding works. |
| Memory.RelevantSpec | modules/memory.py:391-405 | There are no more results than hits. A pair is returned exactly when some hit was kept (a valid position, a score at the threshold or above, and within the age limit) and names that turn with that score. |
| Memory.MinTimestamp | modules/memory.py:427-434 | The oldest timestamp is one of the history's and no later than any of them. |
| Memory.MaxTimestamp | modules/memory.py:427-434 | The newest timestamp is one of the history's and no earlier than any of them. |
| Memory.SessionIdsBound | modules/memory.py:428-432 | A non-empty history has at least one session and at most one per turn. |
| Memory.ConversationIndex.constructor | modules/memory.py:217-256 | With vector support, the history is the metadata file's contents. The vectors are rebuilt when their count differs or the index file is missing, and emptied when the file cannot be read. |
| Memory.ConversationIndex.Rebuild | modules/memory.py:282-314 | The vectors become every turn's summary in order, or none when embedding fails. The history is kept. |
| Memory.ConversationIndex.Save | modules/memory.py:258-274 | Both files hold the current history and vectors. |
| Memory.ConversationIndex.AddConversationTurn | modules/memory.py:316-350 | With vectors and an accepted embedding, the turn is appended, the vectors are realigned and both files saved. Otherwise nothing changes. |
| Memory.ConversationIndex.FindRelevantConversations | modules/memory.py:352-416 | An empty or disabled index finds nothing. Otherwise the result is the kept hits with their turns, in search order. |
| Memory.ConversationIndex.HistoryStatistics | modules/memory.py:418-441 | The count is the history's length. The time range covers every turn and is attained, and the session count lies between 1 and the count. An empty history reports only the zero count. |
| Action.FormatListWords | modules/action.py:89-90 | A returned list of words is printed so that splitting on whitespace recovers the list. |
| Action.AttemptKeepsQuota | modules/action.py:44-62 | Each call is counted and keeps the quota: the dispatcher sees at most five calls, and each kept output comes from a dispatched call. |
| Action.StepsKeepQuota | modules/action.py:44-81 | However many calls a plan makes and whatever it catches, the quota holds and each step makes at most one call. |
| Action.QuotaStopsPlan | modules/action.py:45-47 | A plan that keeps calling without catching errors is stopped at its sixth call by the quota error, after five dispatched calls. |
| Action.SandboxOutcome | modules/action.py:27-110 | A load error, a missing `solve`, an uncaught call error or `solve` raising gives "[sandbox error: ...]". Otherwise the result is the formatted return value. At most five outputs are kept. |
| Action.NoSolveNoCalls | modules/action.py:74-76 | A plan without `solve` reports the error and never reaches the dispatcher. |
| Action.SandboxMCP.constructor | modules/action.py:39-42 | A fresh proxy has made no calls and kept no outputs. |
| Action.SandboxMCP.CallTool | modules/action.py:44-62 | The call is counted and refused past the quota, or passed on with the reply's text kept, as `Attempt` says. The quota invariant is preserved. |
| Action.RunPythonSandbox | modules/action.py:27-110 | The sandbox's output is the one `SandboxSpec` gives for the plan. |
| Decision.MemoryTextsNone | modules/decision.py:58 | The memory section reads "None" exactly when there are no items. |
| Decision.BlocksAt | modules/decision.py:31-37 | Each past turn takes five lines, the first quoting its query. |
| Decision.HistoryLineAt | modules/decision.py:27-40 | Turn k's query line is line 3 + 5k of the history section. |
| Decision.HistoryListsEveryQuery | modules/decision.py:22-42 | The history section is empty exactly when no turn is relevant, and otherwise quotes every relevant turn's query. |
| Decision.NoSolveOnPlainLine | modules/decision.py:84-88 | A single line that starts with `F` does not define `solve`. |
| Decision.FallbacksFailGate | modules/decision.py:84-93 | Neither fallback plan passes the `solve()` gate. |
| Decision.PlanGate | modules/decision.py:74-93 | A plan passes the gate exactly when the model answered with text that defines `solve()` once normalised, and it is then that text. Every other plan is a FINAL_ANSWER fallback. |
| Decision.FencedPlanUnwrapped | modules/decision.py:78-82 | Code fenced as a python block comes out as the code itself. |
| Loop.ForwardCarriesData | core/loop.py:179-189 | The forwarded input starts with the original task, contains the fetched data and counts as previous data. |
| Loop.Classify | core/loop.py:147-233 | Every answer is a FINAL_ANSWER and succeeded. Every memory item written is the sandbox's tool output. The outcome keeps the plan and the result. |
| Loop.Round | core/loop.py:65-237 | Any attempt that writes memory writes a sandbox tool output, and any answer is a successful FINAL_ANSWER. |
| Loop.InvalidPlansAreFallbacks | core/loop.py:98-117 | An attempt is refused for its plan exactly when planning was possible and the model failed or answered without `solve()`. The refused plan is a fallback and never runs. |
| Loop.ForwardEnablesSynthesis | core/loop.py:87-96 | After forwarded data the next attempt is never abandoned for lack of tools. |
| Loop.SandboxErrorRetries | core/loop.py:193-233 | A sandbox error spends a lifeline with "[Execution failed]" and records an unsuccessful output. |
| Loop.ErrorTextClassified | modules/action.py:105-110 | A sandbox error text survives stripping and is classified as an error, not as an answer or as forwarding. |
| Loop.ErrorTextEnds | modules/action.py:105-110 | A sandbox error text is bracketed and starts with the error marker. |
| Loop.RunAnswers | core/loop.py:57-241 | Every run ends in a FINAL_ANSWER. Without a captured turn it is the max-steps answer. With one, the turn records that answer, a step of the run, its turn id and one execution more. |
| Loop.RunItems | core/loop.py:207-213 | During a run memory only gains sandbox tool outputs, at most one per attempt. |
| Loop.BudgetNextStep | core/loop.py:60-65 | Moving to the next step gives up what the current step had left. |
| Loop.RoundsBounded | core/loop.py:60-237 | The rest of a run makes no more attempts than the steps and lifelines left allow. |
| Loop.RunWithinBudget | core/loop.py:60-65 | A run makes at most `max_steps * (max_lifelines_per_step + 1)` attempts. |
| Loop.ForwardOnLastStep | core/loop.py:177-241 | Forwarding data on the last step ends the run with the max-steps answer. |
| Loop.AgentLoop.constructor | core/loop.py:25-29 | The loop starts with no override, no answer and no tracked tools. |
| Loop.AgentLoop.CaptureConversationTurn | core/loop.py:31-55 | The captured turn is added to the conversation index as `AddConversationTurn` says. |
| Loop.AgentLoop.Settle | core/loop.py:147-233 | The memory, the override, the answer, the tracked tools and the index change exactly as `Classify`'s outcome says. |
| Loop.AgentLoop.SelectTools | core/loop.py:76-85 | The tool heuristics return the same tools, possibly reordered, so none are lost or added. |
| Loop.AgentLoop.ValidateResult | core/loop.py:133-145 | The result heuristics are advisory: the result comes back unchanged. |
| Loop.AgentLoop.RunPlan | core/loop.py:117-233 | Running a gated plan changes the state exactly as `Classify` says for the stripped sandbox result. |
| Loop.AgentLoop.Attempt | core/loop.py:65-237 | One lifeline attempt changes the state exactly as `Round` says. |
| Loop.AgentLoop.Run | core/loop.py:57-241 | The run returns "done" with `RunSpec`'s answer. It adds `RunSpec`'s memory items and forwarded input, and adds its captured turn to the index. |

Where the design description and the code disagree, the model follows the code:

- A step with no tools and no forwarded data is abandoned (`core/loop.py:93-94`) without spending a lifeline. The design says the abort consumes one.
- A FURTHER_PROCESSING_REQUIRED result leaves the lifeline loop (`core/loop.py:192`), so the forwarded data is used by the next step, not by another round of the same step. No lifeline is spent.

## Left out

- Embeddings and FAISS: the remote embedding service, the vector arithmetic and normalisation are not modelled. A stored vector is represented by the turn's summary text, and the vector search is an oracle that returns ranked (position, score) pairs.
- Pipeline.HeuristicPipeline.AddHeuristic: requires an instance not already in the pipeline. The source appends any instance, and one registered twice would be updated twice per run; that case is not modelled. Every registration in `modules/heuristics/manager.py:77-136` adds a fresh instance.
- Base.Render: a tool list prints as its tool names in brackets, where Python's `str(list)` prints each tool object's repr. This only shows when a text check is handed a tool list.
- ToolHeuristics.RateCheck: the PASSED metadata's `usage` holds `total` and `expensive` but not the per-step `by_step` table.
- Base.Context: every key is an `Option`, so a key that is present with the value `None` cannot be told apart from a missing key. The source would, for example, build the affinity key `"None:tool"` from `{"query_intent": None}`.
- Memory.ConversationIndex.FindRelevantConversations: takes the search hits as given, so the `top_k` bound is the oracle's. The model proves the filtering (position range, threshold, age) and that the order is kept.
- File and JSON I/O: the session file, the history metadata and the index file are `Stored` values the methods set. Read and write errors are a boolean parameter where the source catches them.
- Memory.MemoryManager.constructor: requires a session id with at least three dash-separated pieces, since the source raises `IndexError` on any other id and no caller handles it.
- YAML configuration loading (`modules/heuristics/manager.py:59-66`): the configuration is a parameter.
- Python `exec`/`compile` of the plan: a plan is an abstract value (load error, whether `solve` is defined, the calls it makes with which errors it catches, and how it ends).
- The language model, the prompt templates (`load_prompt`, `prompt.format`), `summarize_tools` and `select_decision_prompt_path`: the model's answer is an oracle indexed by round.
- `modules/perception.py` is not part of this model: perception is an oracle that returns the tools and the intent for a round.
- PII and hallucination regular expressions: abstract matcher oracles. The redacted PII types are listed in pattern order, where the source's set order is arbitrary.
- MD5 is an uninterpreted digest function of the normalised query.
- Floating point: ratios, scores, latencies and timestamps are `real`. The `:.2f`/`:.1%` formatting in messages is a formatting parameter or omitted.
- `repr` quoting of strings with quotes inside, and Unicode case folding: `lower` folds ASCII letters only.
- async/await runs sequentially. Logging and `print` are left out. Sharing the conversation index between concurrent sessions is not modelled (one thread).
- The context bookkeeping calls `context.step` assignment, `log_subtask` and `update_subtask_status`: they only log.
- The branch for a non-string sandbox result (`core/loop.py:199-200`): the sandbox always returns text, so it cannot be reached.
- The clock, the tool dispatcher and the embedding outcomes are oracles of the `World`, indexed by round.

## Findings

| source | as written | input that shows it | evidently intended | confidence | as-written member | corrected member |
|---|---|---|---|---|---|---|
| modules/heuristics/query_heuristics.py:227-234 | With `use_exact_match` off, a query whose hash is already cached is appended to `query_hashes` again. A later eviction pops that hash a second time and `del self.cache[...]` raises `KeyError`. | cache size 1, `use_exact_match` false, the queries "", "" and "x" in a row, with a digest under which "" and "x" differ | a cached hash is refreshed in place, so each hash is listed once and eviction always finds it | not executed | QueryHeuristics.DedupCheckAsWritten, QueryHeuristics.DedupAsWrittenKeyError | QueryHeuristics.DedupCheck, QueryHeuristics.DedupCheckOutcome |
