# InsightKit, modelled and proved in Dafny

InsightKit answers questions about a database: it asks a language model for a query, checks the query, runs
it, lets the model correct itself a bounded number of times, and streams the outcome to the client. This
project models the parts of it that carry invariants and proves what they promise, for all inputs and all
runs. `dafny verify dfyconfig.toml` checks everything.

## The parts

| files | what they model |
|---|---|
| `SqlComments.dfy`, `SqlGuard.dfy`, `SqlGuardProofs.dfy` | the SQL guard as a rewriting pass: comment stripping, statement splitting, keyword and table checks, LIMIT rewriting, and their composition |
| `MongoGuard.dfy` | the guard for aggregation pipelines, over JSON trees of any depth |
| `Schema.dfy`, `TableSelection.dfy`, `Prompt.dfy` | schema rendering, the foreign-key closure of the relevant tables, schema trimming and the prompt's token budget |
| `SchemaCache.dfy`, `SchemaCacheProofs.dfy` | the schema stored as keyed rows and rebuilt from them |
| `QueryCaching.dfy` | the cache key, the volatility check and the result cache |
| `Answers.dfy`, `Pipeline.dfy` | a whole run of a question: cache, SQL flow, analysis flow and their shared end, with a trace of every effect and of every run |
| `EventGrammar.dfy`, `PipelineProofs.dfy`, `CacheTransparency.dfy` | what holds of whole runs: the events they stream, the queries they execute, what they leave behind for later ones and for kits started afresh |
| `OverlappingRuns.dfy` | questions that overlap on one kit, in any interleaving |
| `Relay.dfy` | the queue between the ask task and the response generator, as a two-process step relation |
| `RateLimiting.dfy`, `RequestMetrics.dfy`, `Evaluation.dfy`, `ConfigMerge.dfy` | the rate limiter, the metrics window, the golden-set comparison and the configuration merge |
| `Text.dfy`, `Sorting.dfy` | ASCII text primitives and stable sorting |

## How the world enters

Model replies, query outcomes, introspected schemas, clock readings, latencies and whether a payload can be
encoded are inputs of a run (`Pipeline.World`), so every statement about a run holds for all of them. A run's
effects (events, model consultations, executed queries, schema readings, the audit attempt, the cache write)
are appended to one ghost log in the order in which the code performs them. The relay runs an arbitrary log of that shape
against the generator, in every interleaving, with exceptions, cancellation and a client that goes away at any
point. A cancelled task may carry on for a while, because the query executor turns a cancellation into an
ordinary query failure (`src/insightkit/db/executor.py:82-83`).

The guard is a parameter of the pipeline, so that the flows are proved once for SQL and MongoDB backends;
`PipelineProofs.ExecutedQueriesAreSafe` and `PipelineProofs.ExecutedPipelinesAreSafe` put the two guards in place.

Every uncached run is recorded with its question, the world it met, the schema version at its start and its
answer. The invariant of a kit says that each recorded answer is what a flow made of that question in that
world, and that the cache's history is exactly what those runs stored, in order. Cache and stored schema outlive
a kit, as they do between two calls of the command line; a kit is started on whatever earlier ones have left.

## What turned out

* Validating is idempotent except in one case: a LIMIT was appended, and the blacklist has an entry that
  reads `limit`. `ValidateIsIdempotent` is the exact condition, `AppendedLimitMeetsBlacklist` an example.
* The cache key is injective exactly for role, schema version and model without `|`. Any other key shares its
  text with one that has none (`CollidesUnlessCanonical`).
* The schema trimming pops the last column whatever it is; its docstring
  (`src/insightkit/llm/prompt.py:174`) speaks of non-key columns. The model follows the code.
* Foreign keys that spell a table's name in different case put the table into the prompt more than once: the
  names looked up are compared case-sensitively, the tables found by them are not. The reachable tables are
  picked for every spelling; how often each is picked is exactly the number of its spellings.
* A golden case can abort the whole evaluation: rows are sorted outside every `try`
  (`src/insightkit/eval.py:137`), and sorting raises when two rows first differ at a missing value beside a
  present one, or at a number beside a text. `RunEval` completes exactly when that does not happen.
* The response generator's timer can go off beside a waiting event, even after the task has ended; the test for
  an empty queue (`src/insightkit/api/app.py:113`) is what keeps that event from being lost. Once the task has
  ended, the generator exits within one turn more than events are waiting unless its wait is given up beside
  waiting events none of which is `done` (`ExitsWithinQueueLength`). A run that streamed `done` never meets that
  exception, a cache hit can (`ExtraWakeUp`).
* The documentation lists neither the `cached` event nor the `values` statement; the code has both
  (`src/insightkit/pipeline.py:195`, `src/insightkit/security/guard.py:31`). The model follows the code.
* A `no_data` answer counts as an error in the metrics, since only `ok` is passed on as success
  (`src/insightkit/api/app.py:121`).

## Model

| member | source | states |
|---|---|---|
| `SqlComments.StripReachesNormalForm` | src/insightkit/security/guard.py:48-49 | one pass leaves no line-comment mark and no opening mark with a closing mark after it |
| `SqlComments.StripCreatesNoPair` | src/insightkit/security/guard.py:33-49 | a pair of adjacent characters in stripped text was adjacent in the original, since comments become a space |
| `SqlComments.StripIsIdempotent` | src/insightkit/security/guard.py:48-55 | stripping again, or stripping any slice of stripped text, changes nothing |
| `SqlComments.StatementsAreStatements` | src/insightkit/security/guard.py:52-55 | every piece is trimmed, not empty, and free of semicolons and comments |
| `SqlGuardProofs.ScanFindsAll` | src/insightkit/security/guard.py:92 | the left-to-right scan finds every LIMIT clause, because no two overlap |
| `SqlGuardProofs.LastMatchIsFinal` | src/insightkit/security/guard.py:92-98 | when the text ends in a LIMIT clause, the scan's last match is that clause |
| `SqlGuardProofs.EnforceKeepsOrLowers` | src/insightkit/security/guard.py:88-101 | a final LIMIT is kept when low enough and otherwise replaced by the limit |
| `SqlGuardProofs.EnforceAppends` | src/insightkit/security/guard.py:93-102 | without a final LIMIT, one is appended, even if another LIMIT occurs earlier |
| `SqlGuardProofs.NewClauseAddsNoKeyword` | src/insightkit/security/guard.py:58-65 | a keyword found after LIMIT was rewritten was there before |
| `SqlGuardProofs.TokensAreExact` | src/insightkit/security/guard.py:108 | the scanned tokens are exactly the runs of identifier characters from their first possible start on |
| `SqlGuardProofs.MentionsAfterNewClause` | src/insightkit/security/guard.py:105-115 | rewriting LIMIT makes no table name occur, except `limit` itself when the clause was appended |
| `SqlGuardProofs.ValidateAccepts` | src/insightkit/security/guard.py:68-131 | acceptance, exactly: a positive limit and one harmless statement; the second stripping is a no-op |
| `SqlGuardProofs.AcceptedShape` | src/insightkit/security/guard.py:127-131 | an accepted result is one comment-free statement with an allowed first word and no forbidden keyword, ends in a LIMIT no higher than allowed, differs from the checked statement only in that LIMIT, and names a blacklist entry exactly when that reads `limit` and the clause was appended |
| `SqlGuardProofs.ValidateIsIdempotent` | src/insightkit/security/guard.py:127-131 | validating an accepted result returns it unchanged if and only if not both LIMIT was appended and the blacklist names `limit` |
| `SqlGuardProofs.AppendedLimitMeetsBlacklist` | src/insightkit/security/guard.py:102-114 | a concrete query that is accepted once and rejected the second time |
| `MongoGuard.FindBannedIsExact` | src/insightkit/security/guard.py:138-153 | the walk reports a key exactly when some path leads to an object with a banned key |
| `MongoGuard.ValidateMongo` | src/insightkit/security/guard.py:156-179 | accepts exactly well-shaped payloads of non-empty stages without banned keys at any depth; only one final `$limit` may be added; parse and shape errors exactly |
| `MongoGuard.AcceptedAgain` | src/insightkit/security/guard.py:156-179 | the result of an accepted payload is accepted again and left unchanged |
| `MongoGuard.RevalidateMongo` | src/insightkit/security/guard.py:156-179 | validation is idempotent |
| `Schema.Render` | src/insightkit/db/schema.py:45-63 | the loop over tables prints the lines of the shown tables, joined |
| `TableSelection.RelevantTables` | src/insightkit/llm/prompt.py:86-130 | small schemas pass through; otherwise the result starts with the seeds, is closed under resolvable foreign keys, holds only tables reachable from a seed, and with unique names holds all of those, each as often as it has spellings; the loop ends |
| `TableSelection.FollowKeys` | src/insightkit/llm/prompt.py:115-124 | one table's pass: each change looks up one more of the finitely many references |
| `TableSelection.Fixpoint` | src/insightkit/llm/prompt.py:113-124 | at the fixpoint no foreign key leads out; under unique names it is exactly the reachable set, counted by spellings |
| `TableSelection.RepeatsAreSpellings` | src/insightkit/llm/prompt.py:111-124 | no table is repeated if and only if none comes in under two spellings |
| `TableSelection.ExactSpellingIsEnough` | src/insightkit/llm/prompt.py:111-124 | foreign keys that spell their tables exactly repeat nothing |
| `TableSelection.MisspelledKeyRepeatsTable` | src/insightkit/llm/prompt.py:118-123 | a concrete schema for which a table is picked twice |
| `TableSelection.SeedsScoreHighest` | src/insightkit/llm/prompt.py:94-108 | no table left out scores higher than a seed, and a scoring one is left out only when the maximum is reached |
| `Prompt.SubSchemaIsNoShorter` | src/insightkit/llm/prompt.py:173-198 | no part of a schema is estimated lower than its first table with its first column |
| `Prompt.TrimSchema` | src/insightkit/llm/prompt.py:173-198 | returns a rendering within budget of a prefix of the tables with prefixes of their columns, dropping tables only once all are thin, exactly when the smallest part fits, and nothing otherwise |
| `Prompt.PopColumns` | src/insightkit/llm/prompt.py:187-190 | one pass strictly lowers the column count, although the text can grow back afterwards |
| `Prompt.BlockLeavesSlack` | src/insightkit/llm/prompt.py:157-167 | a schema block within budget keeps the whole prompt ninety tokens below the maximum |
| `Prompt.BuildPrompt` | src/insightkit/llm/prompt.py:138-170 | the schema is in the prompt exactly when its smallest part fits, whole when all of it fits and trimmed otherwise; a kept schema is never discarded; the estimate is within the maximum or that of the bare prompt; the question comes last |
| `SchemaCache.MetaDb.SaveSchema` | src/insightkit/db/cache.py:75-107 | deletes the key's rows, inserts or replaces the new ones, sets the shared instant, and keeps primary keys distinct whatever is saved |
| `SchemaCache.MetaDb.LoadSchema` | src/insightkit/db/cache.py:110-162 | groups the ordered rows of the key by table, or finds nothing |
| `SchemaCacheProofs.SortedRowsAreNormal` | src/insightkit/db/cache.py:117-122 | ordering the saved rows by table and column lists them as the normal form would |
| `SchemaCacheProofs.RegroupingRestores` | src/insightkit/db/cache.py:129-150 | regrouping the rows of a normal schema restores it |
| `SchemaCacheProofs.LoadAfterSave` | src/insightkit/db/cache.py:75-162 | loading what was saved gives its normal form (tables with columns, sorted, missing samples empty), whatever the table held before, so a later save replaces an earlier one |
| `SchemaCacheProofs.OtherKeysUntouched` | src/insightkit/db/cache.py:93-102 | saving under one key leaves what is loaded under another unchanged |
| `SchemaCacheProofs.LoadedIsNormal` | src/insightkit/db/cache.py:110-162 | whatever rows the table holds, distinct primary keys suffice for a loaded schema to be normal: unique sorted tables, unique sorted columns, one sample list per column |
| `SchemaCacheProofs.LoadedSchemasAreStable` | src/insightkit/db/cache.py:75-162 | saving any loaded schema and loading it again is the identity, whatever is in the table by then |
| `QueryCaching.KeysAreInjective` | src/insightkit/cache.py:29-30 | keys whose first three fields lack the delimiter are equal when their texts are |
| `QueryCaching.CollidesUnlessCanonical` | src/insightkit/cache.py:29-30 | a key shares its text with a different delimiter-free key if and only if it has a delimiter in the first three fields |
| `QueryCaching.EntriesAnswerLookups` | src/insightkit/cache.py:42-80 | the replaced rows answer as the full history of stores would |
| `QueryCaching.HitHasASource` | src/insightkit/cache.py:42-64 | a hit is the most recent store under its key, made at most the time to live ago |
| `QueryCaching.QueryCache.Get` | src/insightkit/cache.py:42-64 | returns the latest unexpired payload in the history |
| `QueryCaching.QueryCache.Set` | src/insightkit/cache.py:66-80 | extends the history by one store, or by nothing when encoding fails |
| `Pipeline.InsightKit.GetSchema` | src/insightkit/pipeline.py:161-171 | memory first, then the stored schema, then a fresh reading that is noted and, for a relational backend, stored; schema, version and stored rows follow exactly |
| `Pipeline.InsightKit.RefreshSchema` | src/insightkit/pipeline.py:154-159 | replaces schema, version and, for relational backends only, the stored rows |
| `Pipeline.TracksStep` | src/insightkit/pipeline.py:226-324 | one more round keeps what the loop's state says about the rounds so far |
| `Pipeline.InsightKit.AskSql` | src/insightkit/pipeline.py:216-358 | result, trace and memory in terms of the first round that ends the loop: rows, a substantive answer, or the second refusal |
| `Pipeline.GatheredCompletely` | src/insightkit/pipeline.py:457-486 | a plan without failure let every query through, ran it and kept its frame, in order |
| `Pipeline.InsightKit.RunQueries` | src/insightkit/pipeline.py:457-484 | runs a plan's queries in order up to the first that is refused or fails |
| `Pipeline.InsightKit.AskAnalysis` | src/insightkit/pipeline.py:394-524 | every field of the result, and the trace, in terms of the first plan answered in prose or run completely |
| `Pipeline.InsightKit.Finalize` | src/insightkit/pipeline.py:526-584 | audit attempt, then the store of an answer that may be stored, then `done` |
| `Pipeline.InsightKit.Ask` | src/insightkit/pipeline.py:173-359 | once the schema is there, a hit returns the stored fields and changes neither memory nor store nor cache; a miss runs one flow and the shared end exactly once and joins the recorded runs under the version at its start; schema, version and stored rows afterwards are exactly those of the readings made |
| `EventGrammar.RunIsInGrammar` | src/insightkit/pipeline.py:216-584 | every uncached streamed run of either flow is a sentence of the event grammar, with at most three failed rounds and one final `done` whose status fits what came before |
| `PipelineProofs.SqlRunExecutesGuardedQueries` | src/insightkit/pipeline.py:294-331 | the backend sees exactly the queries that passed the guard, in order, and an `ok` answer's rows come from running its query |
| `PipelineProofs.AnalysisRunExecutesGuardedQueries` | src/insightkit/pipeline.py:460-471 | the analysis flow runs only queries that passed the guard |
| `PipelineProofs.AnalysisUsesOnePlan` | src/insightkit/pipeline.py:457-508 | the final analysis sees the frames of all one to four queries of the last plan, in order, and of no other |
| `PipelineProofs.OkAnalysisIsGrounded` | src/insightkit/pipeline.py:492-524 | an `ok` analysis had such a plan, and carries no query of its own |
| `PipelineProofs.ExecutedQueriesAreSafe` | src/insightkit/pipeline.py:294-313 | with the SQL guard, everything either flow executes is one comment-free statement with an allowed first word, no forbidden keyword, no blacklisted name but possibly `limit`, and a final LIMIT in bounds |
| `PipelineProofs.ExecutedPipelinesAreSafe` | src/insightkit/pipeline.py:294-313 | with the Mongo guard, everything either flow executes reads as a well-shaped payload of safe stages, with a `$limit` if the row limit is positive |
| `PipelineProofs.ConsultsAndAudits` | src/insightkit/pipeline.py:226-259 | an uncached run consults the model for a plan once per attempt, at most three times, and attempts its audit record exactly once |
| `PipelineProofs.RunsHaveAskShape` | src/insightkit/pipeline.py:526-584 | the trace of every streamed run, hit or miss, has the shape the relay is proved for |
| `CacheTransparency.CachedAnswerHasAnOrigin` | src/insightkit/pipeline.py:185-196 | a hit has the stored fields of the last run stored under its key, this kit's or an earlier one's on the same store: a genuine earlier flow outcome, within the time to live, `ok` or `no_data`, not volatile, and with the same role, model, question and start-of-run version when fields lack the delimiter |
| `CacheTransparency.StoreHasARun` | src/insightkit/pipeline.py:556-571 | every store in the cache's history was made by one recorded run, after the stores of the runs before it |
| `CacheTransparency.AskAgain` | src/insightkit/pipeline.py:185-196 | a stored answer is found again by the same question, in time and under the same version, without another run |
| `CacheTransparency.LastReadingStays` | src/insightkit/pipeline.py:314-320 | a run changes schema, version and stored rows only for missing tables, and the schema read last stays |
| `CacheTransparency.RestartFindsTheSchema` | src/insightkit/pipeline.py:154-171 | a kit started afresh on the same store finds the schema read last, in normal form and under the same version, without introspection |
| `CacheTransparency.RoundsKeepRestartable` | src/insightkit/pipeline.py:154-171 | however often a run reads the schema, the store keeps holding a schema of the version in memory |
| `CacheTransparency.AskAfterRestart` | src/insightkit/pipeline.py:113-196 | what one kit cached is found by a second kit started on the same store: same fields, no run, nothing read anew |
| `OverlappingRuns.OverlappingHitsHaveOrigins` | src/insightkit/pipeline.py:185-196 | the same provenance for every hit when questions overlap on one kit in any interleaving and the schema is read anew at any time |
| `Relay.StepInv` | src/insightkit/api/app.py:89-128 | every step of task, generator or client keeps the relay's invariant |
| `Relay.DeliveryIsFaithful` | src/insightkit/api/app.py:89-128 | delivered events are a prefix of produced ones, and all of them when the generator exits with the client connected, even if its timer went off beside a waiting event |
| `Relay.MetricsRecordedOnce` | src/insightkit/api/app.py:116-124 | one sample per delivered `done`, never two; with the client connected, exactly when a `done` was produced |
| `Relay.CancellationComesAfterTheAudit` | src/insightkit/api/app.py:126-128 | while the client stays, a cancellation is requested only once all effects, audit attempt and cache write included, have happened |
| `Relay.EndedTaskDrains` | src/insightkit/api/app.py:109-125 | once the task has ended, every schedule uses up a measure of turns and one of steps, so the generator closes |
| `Relay.ExitsWithinQueueLength` | src/insightkit/api/app.py:109-125 | the generator exits within one turn more than events are waiting, on every schedule, if and only if it is not caught with its wait given up beside waiting events none of which is `done` |
| `Relay.FinishedRunDrainsInTime` | src/insightkit/api/app.py:109-125 | a run that ended by itself after streaming `done` always drains within that bound |
| `Relay.ExtraWakeUp` | src/insightkit/api/app.py:110-115 | a complete cache hit that takes three turns with one event waiting |
| `Relay.EndedTaskIsDelivered` | src/insightkit/api/app.py:109-128 | from every reachable state with an ended task the generator's own steps close it with everything delivered and the metrics recorded, and at its slowest it uses the measures up exactly |
| `RateLimiting.CoherentStep` | src/insightkit/api/auth.py:27-36 | after a call the pruned lists still answer as the full history of accepted requests would |
| `RateLimiting.RateLimiter.Allow` | src/insightkit/api/auth.py:27-36 | admits exactly when fewer than the limit of the user's accepted requests in all history are later than a minute ago; other users' lists stay |
| `RateLimiting.WindowBound` | src/insightkit/api/auth.py:27-36 | no window of a minute holds more than the limit of a user's accepted requests |
| `RateLimiting.IntervalBound` | src/insightkit/api/auth.py:27-36 | a closed interval holds at most the limit times the number of started minutes |
| `RateLimiting.RejectionsConsumeNothing` | src/insightkit/api/auth.py:31-33 | replaying only the accepted requests accepts all of them again |
| `RateLimiting.UsersAreIndependent` | src/insightkit/api/auth.py:25-36 | a user's accepted requests are those of a run without anybody else |
| `RequestMetrics.Metrics.Record` | src/insightkit/api/metrics.py:20-29 | window, token sum and counters stay those of the full log |
| `RequestMetrics.RankInWindow` | src/insightkit/api/metrics.py:32-35 | an element at a rank of the sorted window bounds more of the window than its rank |
| `RequestMetrics.Metrics.TakeSnapshot` | src/insightkit/api/metrics.py:31-48 | both percentiles come from the window, in order, and bound half and ninety-five percent of it; hits and misses add up; errors do not exceed requests |
| `Evaluation.SortRaisesOnClash` | src/insightkit/eval.py:41-42 | sorting normalised rows raises exactly when two of them first differ at cells of different kinds |
| `Evaluation.NeighboursDecide` | src/insightkit/eval.py:41-42 | a completed sort, by whichever algorithm, implies that all rows are comparable |
| `Evaluation.SameResultsIsBagEquality` | src/insightkit/eval.py:124-139 | executed results compare equal exactly when they are the same bag of normalised rows; the comparison crashes exactly when heights agree and rows of one of them clash |
| `Evaluation.NullBesideValueCrashes` | src/insightkit/eval.py:137 | a missing value beside a number: a result compared with itself crashes |
| `Evaluation.RunEval` | src/insightkit/eval.py:89-121 | a run completes if and only if no case's rows clash; then every case is counted as correct or listed as a failure, and exactly the failing ones are listed |
| `ConfigMerge.DeepMerge` | src/insightkit/config.py:32-39 | assigning the override's keys in any order gives the merge |
| `ConfigMerge.OverrideWinsElseBaseSurvives` | src/insightkit/config.py:32-39 | on every path the override decides if it says anything there, and otherwise the base shows through |
| `ConfigMerge.MergeWithItself` | src/insightkit/config.py:32-39 | merging a tree with itself is the identity |
| `ConfigMerge.MergeAgain` | src/insightkit/config.py:32-39 | merging the same override twice equals merging it once |

## Left out

- Runs in which an exception escapes the question (a failing model call, a backend error of another kind): the code writes no record and no `done` there. The relay does allow the task to raise at any point.
- Overlapping questions on one kit: `Pipeline.InsightKit.Ask` runs a question to its end. `OverlappingRuns` interleaves key, lookup, ending and schema readings; the order in which overlapping runs stream and execute is not modelled.
- The model calls, drivers, introspection, HTTP wiring, authentication, command line and web page are inputs or absent.
- Non-ASCII text: whitespace, digits, word characters and case folding are those of ASCII.
- The limit Python puts on the length of a number it converts from text.
- Masking of personal data, choice of model, charts, few-shot ranking, the analysis-question pattern and the parsing of model replies: their results are inputs of a run.
- The texts of the system prompts are a parameter of `BuildPrompt`; the language hints are the program's.
- Escapes inside the quoted sample values of a rendered schema.
- Stored text that is not valid JSON or not a valid instant: encodings are taken to read back what was written.
- The hash over the cache key, taken to be injective.
- Rounding in percentages and cell normalisation: percentile ranks are exact fractions, and normalisation is a parameter of the comparison. Cells that are not a number in the floating-point sense are absent.
- The order in which Python's sort compares rows: insertion sort stands for it. `Evaluation.NeighboursDecide` shows that the choice does not matter for whether sorting raises.
- The table count carried by the `plan` event.
- The mean latency, the hit rate and the uptime of a metrics snapshot, and the reasons listed with failed golden cases.
- The text normalisation that the evaluation falls back to when a query cannot be executed: a parameter.
- The nested mutable objects of a schema are values here, so the trimmed deep copy is independent of the caller's schema by construction.
- Prompt contents across rounds: the error text fed back to the model is tracked only as the last error of the run.
