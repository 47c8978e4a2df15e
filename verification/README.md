# Verified models of the co-worker backend

This project models the stateful cores of the co-worker platform in Dafny and proves what they
promise on every run. Each module follows one component:

| file | component |
|---|---|
| `Restore.dfy`, `Pii.dfy`, `Messages.dfy` | PII placeholders: choosing and splicing them in, merging mappings over a request, restoring |
| `SlidingWindow.dfy`, `RateLimits.dfy` | the Redis sliding-window rate limiter, against a limiter that forgets nothing, and its runs in the callers' terms |
| `TokenBucket.dfy` | the in-memory Graph limiter: token bucket behind per-mailbox semaphores |
| `Audit.dfy`, `AuditConcurrency.dfy` | the hash-chained audit log, in one session and under interleaved transactions |
| `Trace.dfy`, `Engine.dfy`, `Chat.dfy`, `ChatTranscript.dfy`, `ChatContent.dfy` | the step log with running totals, the engine's tool-use loop, the chat turn with its consultations, transcript and texts |
| `Sse.dfy` | the event stream's printer and the browser's incremental parser |
| `Approval.dfy`, `ApprovalSweep.dfy`, `ApprovalRuns.dfy` | the approval queue: proposal, signatures, the dispatch sweep item by item, delivery; and any run of these |
| `Workers.dfy`, `WorkerPool.dfy` | the plugin fan-out: event list, dedup gate, any number of workers |
| `XpmSync.dfy` | the practice-manager sync into the knowledge graph |
| `SharePoint.dfy`, `SharePointCounts.dfy` | the depth-bounded SharePoint indexer, its table and its counters |
| `EmbedCache.dfy` | embedding through a shared cache |
| `Strings.dfy`, `Sorting.dfy`, `Wrappers.dfy` | Python's `str.replace` and stable sort; Option |

Where the code updates state in place, a class or a method with loops does the same and is proved
equal to a function of the old state; the main results are lemmas about that function over whole
runs. Models, tools, recognisers, clocks, random draws, listings and database errors are parameters,
so each result holds for all of them. `dafny verify dfyconfig.toml` checks everything.

## Hypotheses

- Hashes: injective, never the genesis hash or empty (audit); injective and without colons, as hexadecimal is (cache keys;
  `EmbedCache.SomeHashIsOk` shows that there are such functions).
- Random placeholder tails: six bracket-free characters, pairwise distinct within a request; entity
  names hold no bracket; recogniser hits are nonempty and lie in the text.
- A rate-limit key always carries the same capacity (at least 1) and window, and calls arrive in time
  order; window names hold no colon; the bucket's clock does not run backwards.
- `json.dumps` output is one nonempty line that parses back; for the lost-connection result no proper
  prefix of it parses.
- Firm ids and plugin names hold no colon (only for the exactness of the dedup gate).

## Where the code and its documentation disagree

The models follow the code.

- `rate_limit_redis.py` says a denial carries the most restrictive window's `retry_after`; the script
  returns the first full window's. `SlidingWindow.ScriptRetryIsExactIff` says exactly when that suffices.
- `engine.py` comments that tool spend counts towards the budget; `running_cost_cents` adds model calls only.
- `rate_limit.py` (Graph) speaks of a rate per window; `TokenBucket.BoundIsTight` shows twice the
  capacity within one window.
- `embeddings.py` offers one cache to any provider; its key omits every request setting but the model, so
  two callers that differ in Voyage's input type share vectors. `EmbedCache.TransparentIffSameModelAgrees`
  and `EmbedCache.TransparentForEveryProviderIff` give the exact conditions.
- `xpm_sync.py` explains unresolved targets by an entity error; in an incremental sync every edge to a
  client outside the fetch is unresolved too. `XpmSync.UnknownTargetIff` says which are,
  `XpmSync.IncrementalSyncDropsAnEdge` gives the smallest case. It notes each failure and goes on, but after one
  that comes from the database the transaction can only be rolled back (`XpmSync.SavesIff`). And it says that
  the find picks the first of duplicate rows; it raises (`XpmSync.KnowledgeGraph.UpsertEntityFromXpm`).
- An approval can be created with 0 required signatures and still needs one
  (`Approval.NobodyRequiredStillNeedsOne`).
- `items.py` lets an edit keep earlier signatures, so the signers need not have seen what is sent
  (`Approval.FirstSignerMayNotSeeTheFinalPayload`). `ApprovalRuns.SignersSawIffTheyAgree` says exactly when they
  have, `ApprovalRuns.SeenByItsStamps` and `ApprovalRuns.EditedAfterSigningIff` what the row's stamps tell.
- `dispatch.py` keeps a sent item out of the next sweep, but creates the draft before its row is committed, and a
  failed reply can leave its draft behind. `ApprovalRuns.DispatchedAtMostOnceIff` and
  `ApprovalRuns.RetryDuplicatesIffLost` say exactly when an item is drafted twice.
- `anthropic_client.py` says that tool_use blocks are already in placeholder space when they are sent again; they
  were restored before the engine appended them. `Messages.ToolUseGoesBackAsWrittenIff` gives the exact condition.
- `sharepoint_indexer.py` notes a database error and goes on; the session then refuses every further flush and
  the final commit, so nothing of the run is saved. `SharePoint.SavesIff` says exactly which runs are.

## Model

| member | source | states |
|---|---|---|
| `Restore.RestoreIsSubstitution` | backend/coworker/security/pii.py:59-62 | In any order of the mapping's entries, the chain of replacements equals the simultaneous substitution, for every text of literals and placeholders whose substitution contains no placeholder |
| `Restore.ReplaceFills` | backend/coworker/connectors/anthropic_client.py:943-946 | One `str.replace` replaces exactly the placeholder tokens of that name: no match starts in literal text or inside another placeholder |
| `Restore.FillKeepsMeaning` | backend/coworker/connectors/anthropic_client.py:943-946 | A replacement leaves the substitution of the text unchanged and creates no occurrence of any placeholder |
| `Restore.RestoreInString` | backend/coworker/connectors/anthropic_client.py:943-946 | The loop over the mapping, in an order nobody chooses, returns the simultaneous substitution |
| `Restore.UntouchedIffFresh` | backend/coworker/security/pii.py:59-62 | A text that nothing was scrubbed from survives restoring if and only if it does not contain the placeholder: freshness is needed |
| `Pii.SelectionIsSound` | backend/coworker/security/pii.py:103-120 | The spans kept are hits, pairwise disjoint, and every dropped hit overlaps a kept one of higher score, or of equal score and no shorter |
| `Pii.SelectNonOverlapping` | backend/coworker/security/pii.py:103-120 | The greedy loop returns such a selection, judged by score and length |
| `Pii.OverlapsIff` | backend/coworker/security/pii.py:118 | Two spans overlap exactly when they have a character in common |
| `Sorting.SortIsStable` | backend/coworker/security/pii.py:95 | The sort keeps the order of elements that tie, in place by place |
| `Pii.AcceptedDescend` | backend/coworker/security/pii.py:95 | Sorted by descending start, each kept span ends before the one before it begins, and sorting neither adds nor loses one |
| `Pii.Scrub` | backend/coworker/security/pii.py:78-100 | The result is the input with exactly the selected spans replaced by placeholders, and the mapping records one original per span |
| `Pii.Splice` | backend/coworker/security/pii.py:92-100 | The end-to-start loop produces that text and mapping: offsets still to come stay valid |
| `Pii.SpliceStep` | backend/coworker/security/pii.py:95-99 | Each captured original is the slice of the INPUT although it is taken from the partly rewritten text |
| `Pii.OriginalsAreSlices` | backend/coworker/security/pii.py:96-98 | With distinct random tails no recorded original is overwritten by a later one |
| `Pii.PlaceholdersDiffer` | backend/coworker/security/pii.py:96 | Distinct tails of equal length make distinct placeholders whatever the entity names |
| `Pii.ScrubHides` | backend/coworker/security/pii.py:78-100 | The scrubbed text means the input under its own mapping and under every mapping that extends it |
| `Pii.HiddenIsRestored` | backend/coworker/security/pii.py:59-62 | Restoring such a text, in any order, returns the original if its placeholders are fresh for it |
| `Messages.MessageScrubber.ScrubText` | backend/coworker/connectors/anthropic_client.py:776-780 | The text is scrubbed exactly, its placeholders join the merged mapping, and nothing recorded earlier is overwritten |
| `Messages.MessageScrubber.ScrubBlock` | backend/coworker/connectors/anthropic_client.py:792-824 | Text and tool_result blocks are scrubbed at any depth, tool_use and other blocks pass unchanged, and the merged mapping explains the result |
| `Messages.MessageScrubber.ScrubBlocks` | backend/coworker/connectors/anthropic_client.py:781-785 | The same for a list of blocks, also under mappings that later blocks extend |
| `Messages.MessageScrubber.ScrubToolUseMessages` | backend/coworker/connectors/anthropic_client.py:749-790 | Every message is scrubbed, and substituting the mapping merged over all messages back into its text returns it if the placeholders are fresh for it |
| `Messages.HiddenBlockRestored` | backend/coworker/connectors/anthropic_client.py:792-824 | Scrubbing a block loses nothing: restoring its texts with the merged mapping, nested ones included, returns the block |
| `Messages.HiddenMessageRestored` | backend/coworker/connectors/anthropic_client.py:776-790 | The same for a message |
| `Messages.ValueRestored` | backend/coworker/connectors/anthropic_client.py:949-960 | A tool input written with placeholders is restored at any depth to its simultaneous substitution; keys and scalars stay |
| `Messages.RestorePlaceholdersInBlocks` | backend/coworker/connectors/anthropic_client.py:907-940 | Every block of a reply is restored: texts, and tool inputs at any depth, mean what the model wrote; other blocks pass |
| `Messages.ReplyBlockRestored` | backend/coworker/connectors/anthropic_client.py:907-940 | A reply block written with placeholders is restored to what it means, in any order of the mapping |
| `Messages.ToolUseGoesBackAsWrittenIff` | backend/coworker/connectors/anthropic_client.py:757-763 | A restored tool_use, sent back in the next request, is what the model wrote if and only if its input held no placeholder |
| `Messages.RequestIsAsWrittenIff` | backend/coworker/connectors/anthropic_client.py:749-790 | In a whole request, every tool_use of the earlier replies goes out as the model wrote it if and only if no earlier reply held a placeholder in a tool_use |
| `SlidingWindow.Redis.Eval` | backend/coworker/connectors/rate_limit_redis.py:65-90 | The script's two loops compute the check-then-record function of the store |
| `SlidingWindow.Acquire` | backend/coworker/connectors/rate_limit_redis.py:125-173 | `acquire` runs the script on the limits' keys and turns a denial into `retry_after`; an empty list does nothing; the whole call is `Acquired`, whose runs `RateLimits` is about |
| `SlidingWindow.RecordAddsOnce` | backend/coworker/connectors/rate_limit_redis.py:83-88 | The record loop adds the event once per key, also when two windows share a key, and touches no other key |
| `SlidingWindow.ScriptRefinesIdeal` | backend/coworker/connectors/rate_limit_redis.py:65-90 | One call: the trimmed, expiring sets answer as the full history does and still show it afterwards; a denied call records nothing |
| `SlidingWindow.TrimmingIsUnobservable` | backend/coworker/connectors/rate_limit_redis.py:65-90 | On every run the script replies as the limiter that never forgets: trimming on denied calls and key expiry cannot be observed |
| `SlidingWindow.FreshRedisAgrees` | backend/coworker/connectors/rate_limit_redis.py:65-90 | The same from an empty Redis |
| `SlidingWindow.RunWithinCapacity` | backend/coworker/connectors/rate_limit_redis.py:65-90 | At every instant t of every run, each key's admissions in (t - window, t] are within its capacity |
| `SlidingWindow.ScriptNeverOverAdmits` | backend/coworker/connectors/rate_limit_redis.py:65-90 | The same about the script's own replies: the calls it admitted in any window's width never exceed the capacity |
| `SlidingWindow.RetryAfterIsALowerBound` | backend/coworker/connectors/rate_limit_redis.py:164-173 | In the limiter that forgets nothing: after a denial no interleaving of other callers lets the same call through before now + retry_after |
| `SlidingWindow.ScriptDeniesUntilRetryAfter` | backend/coworker/connectors/rate_limit_redis.py:65-90 | The same of the script: of two equal calls in a run, the later is denied if it comes before the earlier one's `retry_after` is over, whatever came between |
| `SlidingWindow.RoomIff` | backend/coworker/connectors/rate_limit_redis.py:65-90 | In the limiter that forgets nothing, with nothing admitted in between, a call goes through at an instant exactly when every full window has room by then |
| `SlidingWindow.RetryAfterIsExactIff` | backend/coworker/connectors/rate_limit_redis.py:164-173 | There, waiting `retry_after` suffices if and only if no full window frees up later than the reported first one |
| `SlidingWindow.ScriptRetryIsExactIff` | backend/coworker/connectors/rate_limit_redis.py:65-90 | The script admits a denied call repeated at now + retry_after if and only if no full window frees up later; always when there is a single window |
| `SlidingWindow.SingleWindowRetry` | backend/coworker/connectors/rate_limit_redis.py:164-173 | In the limiter that forgets nothing a call on a single window is admitted at exactly now + retry_after |
| `SlidingWindow.ReportedRetryCanBeTooEarly` | backend/coworker/connectors/rate_limit_redis.py:74-80 | A two-window call that is denied again after waiting as told: the first full window is reported, not the most restrictive |
| `RateLimits.KeysIdentifyLimits` | backend/coworker/connectors/rate_limit_redis.py:144-147 | Two limits share a key exactly when scope key and window name agree |
| `RateLimits.AdmittedIff` | backend/coworker/connectors/rate_limit_redis.py:125-173 | On every run of `acquire` calls from an empty Redis, a call is admitted if and only if each of its limits has more capacity than requests admitted under its key in the last `window_seconds` |
| `RateLimits.NeverOverCapacity` | backend/coworker/connectors/rate_limit_redis.py:125-173 | The requests admitted under a scope key and window name in any `window_seconds` are at most the limit's capacity |
| `RateLimits.DeniedUntilThen` | backend/coworker/connectors/rate_limit_redis.py:164-173 | A denied request repeated before the `retry_after` it was told, in seconds, is denied again, whatever the others did |
| `RateLimits.AdmittedThen` | backend/coworker/connectors/rate_limit_redis.py:164-173 | With a single limit, one that comes next and exactly then is admitted |
| `RateLimits.OtherLimitsDoNotMatter` | backend/coworker/connectors/rate_limit_redis.py:125-173 | Requests with limits of other keys may be left out of a run: the rest are told the same, down to the seconds |
| `TokenBucket.AsyncTokenBucket.constructor` | backend/coworker/graph/rate_limit.py:48-57 | A new bucket is full |
| `TokenBucket.AsyncTokenBucket.Refill` | backend/coworker/graph/rate_limit.py:78-85 | Refilling adds rate times elapsed time, capped at capacity |
| `TokenBucket.AsyncTokenBucket.TryAcquire` | backend/coworker/graph/rate_limit.py:59-76 | One turn of the retry loop: refused parameters, a grant, or the time to sleep |
| `TokenBucket.AsyncTokenBucket.Acquire` | backend/coworker/graph/rate_limit.py:59-76 | While nobody else uses the bucket, `acquire` sleeps at most once and then returns with the tokens taken; it raises exactly on n <= 0 or n above capacity |
| `TokenBucket.MailboxSemaphores.Get` | backend/coworker/graph/rate_limit.py:110-116 | A mailbox's semaphore is created full on first use and kept |
| `TokenBucket.BucketBound` | backend/coworker/graph/rate_limit.py:59-85 | Under any interleaving of callers the tokens stay in [0, capacity] and no interval of length d sees more than capacity + rate * d granted |
| `TokenBucket.BoundIsTight` | backend/coworker/graph/rate_limit.py:59-85 | That bound is reached: twice the capacity can go out within one refill window |
| `TokenBucket.WaitIsNeeded` | backend/coworker/graph/rate_limit.py:73-76 | Before the computed sleep is over the request is refused, whatever the others do |
| `TokenBucket.WaitIsEnough` | backend/coworker/graph/rate_limit.py:73-76 | If nobody else takes a token, it is granted as soon as the sleep is over |
| `TokenBucket.StepKeepsInv` | backend/coworker/graph/rate_limit.py:110-147 | Every step of `slot` keeps the semaphores balanced and the bucket bounded; a token is consumed only by a caller holding its mailbox's semaphore |
| `TokenBucket.LimiterSafe` | backend/coworker/graph/rate_limit.py:135-147 | On every run at most `per_mailbox_limit` requests per mailbox are past the semaphore, and the grants obey the bucket bound |
| `Audit.AuditLog.AppendAudit` | backend/coworker/security/audit.py:12-76 | Appends one entry linked to the firm's latest hash; keeps every firm's chain sound and the new hash distinct from all others |
| `Audit.AuditLog.VerifyChain` | backend/coworker/security/audit.py:79-111 | Accepts exactly the sound chains; otherwise names the first bad entry, everything before it being sound |
| `Audit.EndHashDeterminesChain` | backend/coworker/security/audit.py:47-61 | Two chains that verify and end in the same hash are equal field by field, their lengths included |
| `Audit.HashesAreDistinct` | backend/coworker/db/models/audit.py:39 | The unique constraint on entry hashes cannot fail, across firms and for identical entries too |
| `Audit.AppendKeepsSound` | backend/coworker/security/audit.py:38-61 | An appended entry keeps every firm's chain sound |
| `AuditConcurrency.HolderSeesAll` | backend/coworker/security/audit.py:32-45 | While it holds the firm's advisory lock, a transaction sees every live row of the firm |
| `AuditConcurrency.StepKeepsInv` | backend/coworker/security/audit.py:32-76 | Each lock, read, insert, commit or rollback keeps every firm's live rows one chain with the committed ones first |
| `AuditConcurrency.CommittedRowsVerify` | backend/coworker/security/audit.py:32-76 | After any interleaving of transactions each firm's committed rows, in id order, are one unforked chain from genesis |
| `AuditConcurrency.WithoutTheLockChainsFork` | backend/coworker/security/audit.py:32-36 | A run of two transactions without the lock commits two different rows that both follow genesis; with it the second would have had to wait |
| `Trace.AgentTraceWriter.constructor` | backend/coworker/orchestrator/trace.py:42-63 | A new writer has an empty, consistent log |
| `Trace.AgentTraceWriter.StartTrace` | backend/coworker/orchestrator/trace.py:85-105 | The trace starts running with zero totals |
| `Trace.AgentTraceWriter.InsertStep` | backend/coworker/orchestrator/trace.py:285-346 | Appends one step; indices are 0..num_steps-1 and the row's totals are the sums over the steps at every point; refused before the trace is started |
| `Trace.AgentTraceWriter.FinishTrace` | backend/coworker/orchestrator/trace.py:258-283 | Ends a running trace once; an ended one is left alone; the log does not change |
| `Engine.CostCents` | backend/coworker/orchestrator/engine.py:523-539 | A call's recorded cost is at least its exact charge and less than one cent more |
| `Engine.WholeMillionsCost` | backend/coworker/orchestrator/engine.py:88-92 | For whole millions of tokens the cost is exactly the list price of the model, or Sonnet's for one that is not listed |
| `Engine.DispatchTool` | backend/coworker/orchestrator/engine.py:373-495 | Every tool outcome writes its steps and returns a tool_result block with the same id; the block's content and flag are those that `DispatchTells` states outcome by outcome |
| `Engine.DispatchTells` | backend/coworker/orchestrator/engine.py:373-520 | The model is sent the tool's own result, not marked as an error, if and only if the tool returned one, and otherwise what went wrong, marked as an error; the call, the bug if one showed, and one tool result are recorded, with that content and flag and the error's class |
| `Engine.RecordAndReturnError` | backend/coworker/orchestrator/engine.py:497-520 | The error result recorded is the one returned to the model |
| `Engine.DispatchUses` | backend/coworker/orchestrator/engine.py:308-329 | All tool uses of a reply are dispatched in order, one block each |
| `Engine.Run` | backend/coworker/orchestrator/engine.py:182-371 | The loop does what the run function says, and its result's totals are the trace's |
| `Engine.EveryLogParses` | backend/coworker/orchestrator/engine.py:250-347 | The step log of every run reads as (model_call (tool_call error? tool_result)*)* error?, with the ids of each reply's tool uses in order |
| `Engine.DispatchAnswers` | backend/coworker/orchestrator/engine.py:308-329 | The tool_result ids of a message equal the tool_use ids of the reply, in order |
| `Engine.TranscriptPaired` | backend/coworker/orchestrator/engine.py:304-329 | Every assistant tool-use message of every run is followed by one message answering exactly its tool uses, in order |
| `Engine.EveryAnswerTells` | backend/coworker/orchestrator/engine.py:308-329 | In every message of every run that answers a reply's tool uses, the k-th block carries what the k-th tool came to, as in `DispatchTells` |
| `Engine.RecordedAsTold` | backend/coworker/orchestrator/engine.py:308-329 | On every run the tool results in the step log are, in order, the blocks that the model is sent |
| `Engine.RequestsReplay` | backend/coworker/orchestrator/engine.py:253-292 | The n-th recorded request is a prefix of the final transcript, two messages longer per earlier round, and records the n-th reply |
| `Engine.EndExplained` | backend/coworker/orchestrator/engine.py:250-347 | The status, iterations, number of calls and cost of a run are exactly those of the first iteration that does not go on, or of the cap |
| `Engine.EveryRunConcludes` | backend/coworker/orchestrator/engine.py:182-371 | A run is finished with the reason and text of its last reply, with the class of the model's error, which is its last step, or with the limit that it came to and no text |
| `Engine.CostWithinACentPerCall` | backend/coworker/orchestrator/engine.py:276-292 | Over n calls of mixed models 10^6 times the recorded cost exceeds the exact charge by between 0 and 999999 n |
| `Engine.CostAndBudget` | backend/coworker/orchestrator/engine.py:331-340 | Every call but the first starts below the budget, so a run overshoots by less than its last call's cost |
| `Chat.ConsultSpecialist` | backend/coworker/chat/specialist_consultation.py:82-179 | The generator's events: one error for an unknown specialist, else started, the deltas, then one complete or error event |
| `Chat.ConsultationShape` | backend/coworker/chat/specialist_consultation.py:98-107 | Seen from the orchestrator a consultation emits its start and exactly one closing event, and adds to the totals the tokens recorded with its result |
| `Chat.HandleUse` | backend/coworker/chat/orchestrator.py:374-577 | One tool use writes its call and result steps, emits its events and yields one answer, or fails the turn |
| `Chat.PlayUses` | backend/coworker/chat/orchestrator.py:373-581 | All tool uses of a round in order, up to the first failing one |
| `Chat.PlayRound` | backend/coworker/chat/orchestrator.py:297-581 | One streamed round: tokens, the model call step, and the dispatch of its tool uses |
| `Chat.StreamChat` | backend/coworker/chat/orchestrator.py:296-647 | The whole turn over any number of rounds: events, trace status and last event; the trace ends as failed if and only if the turn failed |
| `Chat.RoundsKeepInv` | backend/coworker/chat/orchestrator.py:297-581 | Every round keeps the events bracketed, the indices of the closing events equal to the positions of the consultations' results, and the totals equal to the trace's |
| `Chat.TurnIsWellFormed` | backend/coworker/chat/orchestrator.py:296-647 | On every turn each started consultation is closed once, by an event of the same index, before anything else; the n-th closing event carries the index of the n-th consultation result of the trace; `done` carries the trace's totals, and a finished turn ends in `done` or `error`, once |
| `ChatTranscript.UsesAnswered` | backend/coworker/chat/orchestrator.py:373-581 | Each tool use gets exactly one tool_result block, in order |
| `ChatTranscript.TurnIsPairedIff` | backend/coworker/chat/orchestrator.py:366-647 | Every tool-use message of a turn, running, done or failed, is answered by the next message if and only if the turn did not fail inside a tool use |
| `ChatContent.StreamTells` | backend/coworker/chat/orchestrator.py:299-313 | The token events of a stream spell its text deltas, in order, and its tool uses are collected in order |
| `ChatContent.CallTells` | backend/coworker/chat/orchestrator.py:314-371 | The model call step of a round holds the request, and the text, stop reason and tokens of the stream's last completion event; the totals grow by these tokens |
| `ChatContent.RoundEndsIff` | backend/coworker/chat/orchestrator.py:299-365 | A turn ends well after a round if and only if its stream was not cut off and there are no tool uses or its last completion event, if any, does not stop for them |
| `ChatContent.TurnStreams` | backend/coworker/chat/orchestrator.py:296-647 | On every turn the token events are, in order, the text deltas of all rounds played |
| `ChatContent.ClosingTells` | backend/coworker/chat/specialist_consultation.py:119-179 | A completed consultation has the text and tokens of its last completion event, or the streamed text and no tokens if none came; a failed one has the error and the text so far |
| `ChatContent.AnswerTells` | backend/coworker/chat/orchestrator.py:374-541 | The consultation's text is what the model is answered and what is recorded, marked as an error if and only if the consultation failed or the specialist is unknown |
| `ChatContent.UnknownToolTells` | backend/coworker/chat/orchestrator.py:374-402 | A call of any other tool is answered and recorded as an error that names the tool, and emits nothing |
| `ChatContent.ErrorClassTells` | backend/coworker/chat/orchestrator.py:465 | The class recorded with a failed consultation is the error's text before its first colon |
| `ChatContent.StatusTells` | backend/coworker/chat/orchestrator.py:583-647 | A turn's trace ends as failed if and only if something failed, and says whether a connector did |
| `Sse.ParseSSEEvent` | frontend/src/api/chatStream.ts:144-188 | The line loop computes the frame's event, or nothing when it has no name, no data, unparsable data or an unknown name |
| `Sse.LinesTell` | frontend/src/api/chatStream.ts:147-153 | Whatever the lines of a frame: the last one that names the event decides, the data is that of all data lines in order, and other lines are ignored |
| `Sse.Drain` | frontend/src/api/chatStream.ts:129-136 | The inner loop yields every complete frame of the buffer and keeps the rest |
| `Sse.CutInTwo` | frontend/src/api/chatStream.ts:113-141 | Cutting a text in two anywhere, also inside a separator, yields the same frames |
| `Sse.StreamChatMessage` | frontend/src/api/chatStream.ts:113-141 | What the client yields is a function of the concatenated chunks alone |
| `Sse.FrameParses` | backend/coworker/chat/orchestrator.py:168-169 | A printed frame is parsed back to its event |
| `Sse.EventTells` | frontend/src/api/chatStream.ts:175-187 | A yielded event has exactly the data's members and a `type`, which is the sent name unless the data brings its own |
| `Sse.PrintedStream` | backend/coworker/chat/orchestrator.py:168-169 | Printed frames are cut apart exactly, whatever follows them |
| `Sse.RoundTrip` | frontend/src/api/chatStream.ts:113-188 | For any events printed by the server and any chunking the client yields exactly those events in order |
| `Sse.UnterminatedStream` | frontend/src/api/chatStream.ts:119-127 | A stream that ends without its last one or two newlines loses no event |
| `Sse.PartialFrame` | frontend/src/api/chatStream.ts:120-126 | A cut-off frame yields nothing, or its whole event when only newlines are missing |
| `Sse.LostConnection` | frontend/src/api/chatStream.ts:113-188 | A connection lost at any character yields a prefix of the events sent |
| `Approval.ApprovalItem.constructor` | backend/coworker/approval/items.py:109-155 | A new row is approved, signed by the system alone, if and only if one signature is required and the confidence reaches the threshold; otherwise it is pending and unsigned, and either way it satisfies the invariant of rows |
| `Approval.ApprovalItem.ApproveItem` | backend/coworker/approval/items.py:256-287 | Signs and, at the required number, approves; refuses a decided row and a second signature of the same user without any change |
| `Approval.DecisionIsTheLastSigners` | backend/coworker/approval/items.py:197-317 | A decided row names the user whose signature or rejection decided it, and when; before that it names nobody, and a repeated signature is refused |
| `Approval.ApprovalItem.RejectItem` | backend/coworker/approval/items.py:290-317 | Rejects a pending row and no other |
| `Approval.ApprovalItem.EditItem` | backend/coworker/approval/items.py:320-362 | Replaces the payload of a pending row and of no other |
| `Approval.ApprovalItem.DispatchItem` | backend/coworker/approval/dispatch.py:78-174 | Each failure and the success write exactly their row changes and label; an exception that escapes leaves the row alone |
| `Approval.LabelsTell` | backend/coworker/approval/dispatch.py:78-174 | Each action label is returned exactly for its outcome, and the row says the same: sent with the draft's id and time, or failed with that label as its reason; payload and signatures stay |
| `Approval.ApprovalItem.MarkDeliveryFailed` | backend/coworker/approval/delivery.py:88-112 | A bounce marks the row failed with the detail cut to 500 characters |
| `ApprovalSweep.SweepFirm` | backend/coworker/approval/dispatch.py:246-282 | The sweep tries the items in turn; an exception that escapes, or a failing last commit, takes the rows back to what was committed last; the counters are the tally of the labels |
| `ApprovalSweep.SweptOk` | backend/coworker/approval/dispatch.py:78-174 | However a sweep ends, every row moved as a dispatch may move it, every row now sent has a draft, no item has two, and a draft is left whose row is not sent if and only if a reached item failed leaving its draft, or the sweep was rolled back with no commit after some item's draft |
| `ApprovalSweep.EachIsTried` | backend/coworker/approval/dispatch.py:246-282 | In a sweep from which nothing escapes every item is tried once and on its own: its row and label are what its own outcome makes of it, whatever happened to the others |
| `ApprovalSweep.SweepFirmDelivery` | backend/coworker/approval/delivery.py:181-221 | Every row the query returned is confirmed, so a second sweep finds none of them |
| `ApprovalRuns.StepKeepsInv` | backend/coworker/approval/items.py:83-362 | Each action keeps every row signed for its status and `sent` in step with the delivery status, and rows only move forward; afterwards no draft is doubled or about to be, if and only if none was before and the action lost none |
| `ApprovalRuns.RunKeepsInv` | backend/coworker/approval/items.py:83-362 | After every run every row is signed as its status demands (exactly the required users, or the system alone at its threshold) and every sent row has its draft; the queue is free of doubled or pending drafts if and only if no sweep lost one |
| `ApprovalRuns.EnoughHaveSigned` | backend/coworker/approval/items.py:94-155 | On every run a row that has been approved bears the signatures of two different users if its category demands it and no override was given, of m different users after an override of m, and one signature otherwise |
| `ApprovalRuns.RunProgresses` | backend/coworker/approval/items.py:256-362 | From any point of a run to any later one: a decided row keeps its payload and signatures, a rejected row never changes again, delivery never goes back |
| `ApprovalRuns.DispatchedAtMostOnceIff` | backend/coworker/approval/dispatch.py:148-174 | At every point of every run: no item has two drafts and the sent items are exactly those with one, if and only if in no sweep a reached item failed leaving its draft, or an escaping exception or a failing last commit found no commit after a draft |
| `ApprovalRuns.RetryDuplicatesIffLost` | backend/coworker/approval/dispatch.py:246-282 | A next sweep in which all goes well gives some item two drafts if and only if in an earlier sweep that happened |
| `ApprovalRuns.GoodSweepSendsAll` | backend/coworker/approval/dispatch.py:246-282 | A sweep in which all goes well sends every email draft that is approved or failed before, marks those with a bad payload as failed, and touches no other row |
| `ApprovalRuns.DraftsWereApproved` | backend/coworker/approval/dispatch.py:78-162 | An item with a draft had been signed by exactly the required number of different users, or by the system alone at its threshold, and has the payload it was decided with |
| `ApprovalRuns.DeliveryMovesLegally` | backend/coworker/approval/delivery.py:88-112 | Delivery only moves unknown, sent, delivered, failed or sent, failed; `delivered` only in a sweep more than the full window after the draft |
| `ApprovalRuns.DeliverySweepConfirms` | backend/coworker/approval/delivery.py:181-219 | A delivery sweep takes for delivered exactly the rows sent more than 14400 seconds ago, and touches no other |
| `Approval.NobodyRequiredStillNeedsOne` | backend/coworker/approval/items.py:109-155 | An override of 0 required approvals still needs one signature |
| `Approval.FirstSignerMayNotSeeTheFinalPayload` | backend/coworker/approval/items.py:320-362 | A two-person row can be approved with a payload put in after its first signature |
| `ApprovalRuns.SignersSawIffTheyAgree` | backend/coworker/approval/items.py:256-362 | On every run: the signers of an approved row all signed the payload it has if and only if they all signed the same one |
| `ApprovalRuns.UneditedMeansSeen` | backend/coworker/approval/items.py:320-362 | If no edit succeeded after the first signature, every signer saw the payload |
| `ApprovalRuns.SeenByItsStamps` | backend/coworker/approval/items.py:320-362 | What a caller can read off the row: last edited never, or before the first signature, means that every signer saw the payload |
| `ApprovalRuns.EditedAfterSigningIff` | backend/coworker/approval/items.py:320-362 | Unless both bear the same stamp, the payload was edited after the first signature if and only if the last edit is stamped later |
| `Approval.EqualStampsDoNotTell` | backend/coworker/approval/items.py:320-362 | With equal stamps no condition on the row can tell: both orders of an edit and a signature leave the same row |
| `Workers.PluginEventQueue.Enqueue` | backend/coworker/workers/plugin_queue.py:70-88 | The message becomes the newest waiting one |
| `Workers.PluginEventQueue.Dequeue` | backend/coworker/workers/plugin_queue.py:90-109 | Hands out the oldest waiting message, or nothing from an empty list |
| `Workers.PluginRunDedup.ClaimRun` | backend/coworker/workers/dedup.py:100-133 | Grants when there is no token or no live key, and then sets the key to expire after the TTL; otherwise changes nothing |
| `Workers.TokensIdentifyEvents` | backend/coworker/workers/dedup.py:51-75 | An event has a token exactly when its trigger is one of three and its id is not empty; tokens agree exactly when trigger and id are repeated |
| `Workers.KeysIdentifyClaims` | backend/coworker/workers/dedup.py:119-123 | A Redis key names one firm, one plugin and one token, as names hold no colon |
| `Workers.EntryTells` | backend/coworker/workers/processor.py:163-274 | A plugin is skipped exactly when the event has a token and the plugin's key for it is held; otherwise it is run, the key is set to expire after the time-to-live, and the entry is how the run ended |
| `Workers.RefusedIffHeld` | backend/coworker/workers/processor.py:187-191 | After a fan-out entry k is `deduped` if and only if the event has a token and its key for plugin k was held at its turn, and otherwise how its run ended; unless a plugin is listed twice, held at its turn means held when the fan-out began |
| `Workers.NotesTell` | backend/coworker/workers/processor.py:190-271 | A note of the skipped list tells which plugin was skipped and why |
| `Workers.EachPluginOnce` | backend/coworker/workers/processor.py:147-160 | Every plugin considered is in exactly one of run_results and skipped, in order |
| `Workers.ProcessResult.RunOnePlugin` | backend/coworker/workers/processor.py:163-274 | One plugin: its claim, and its run only if that is granted (`EntryTells`); one entry in one of the two lists |
| `Workers.ProcessEvent` | backend/coworker/workers/processor.py:82-160 | The fan-out over all plugins, in which `RefusedIffHeld` says who runs: results, notes and keys; nothing when the firm is unknown |
| `WorkerPool.StepKeepsInv` | backend/coworker/workers/loop.py:77-124 | Every step of every worker keeps the list, the hands, the keys and the grants consistent |
| `WorkerPool.RunsAreSpaced` | backend/coworker/workers/dedup.py:115-133 | On every interleaving two granted runs for the same firm, plugin and token are more than the TTL apart, and no event reaches a plugin twice |
| `WorkerPool.PluginIsSteps` | backend/coworker/workers/processor.py:163-191 | One plugin's turn in the fan-out is a claim step of the pool, and if that is granted the end of its run |
| `WorkerPool.FanOutIsSteps` | backend/coworker/workers/processor.py:147-160 | The fan-out of an event is a run of the pool's steps and ends in the same keys and entries |
| `WorkerPool.FanOutIsSpaced` | backend/coworker/workers/dedup.py:100-133 | In a fan-out at any point of any run of the pool, a plugin that is run is run more than the time-to-live after every earlier run for the same firm, plugin and token |
| `WorkerPool.GateOpensIff` | backend/coworker/workers/dedup.py:115-133 | The gate opens exactly when no run of the same claim was let through within the TTL |
| `WorkerPool.EventsAreConserved` | backend/coworker/workers/plugin_queue.py:70-109 | Every enqueued event is in the list, in exactly one worker's hands, or ended, and events leave in enqueue order |
| `WorkerPool.ReturnedCoversEveryPlugin` | backend/coworker/workers/processor.py:147-160 | An event whose processing returned has exactly one entry per listening plugin |
| `XpmSync.KnowledgeGraph.UpsertEntityFromXpm` | backend/coworker/knowledge_graph/xpm_sync.py:196-239 | Finds, inserts or updates the client's row, or fails on duplicates; a rejected insert breaks the session at once, a rejected update at the next statement |
| `XpmSync.KnowledgeGraph.UpsertRelationshipFromXpm` | backend/coworker/knowledge_graph/xpm_sync.py:242-317 | An active record updates the conflicting active row or inserts one; an inactive record deactivates it |
| `XpmSync.KnowledgeGraph.Sync` | backend/coworker/knowledge_graph/xpm_sync.py:93-193 | The two passes compute the synced graph and its statistics for every listing; a sync in which the database rejected something leaves the graph as it was |
| `XpmSync.SavesIff` | backend/coworker/knowledge_graph/xpm_sync.py:122-192 | A sync of a sound graph is saved if and only if the database takes every client's row and every record between two different clients of the fetch |
| `XpmSync.EveryClientIsCounted` | backend/coworker/knowledge_graph/xpm_sync.py:122-137 | Created + updated + entity errors = clients, in every sync |
| `XpmSync.EntityPassOk` | backend/coworker/knowledge_graph/xpm_sync.py:127-137 | The first pass keeps at most one row per client id, loses none, and changes no other row, whatever fails |
| `XpmSync.SavedRowsReflect` | backend/coworker/knowledge_graph/xpm_sync.py:196-239 | After a saved sync each fetched client has a row with the name, type and attributes that its last record gives |
| `XpmSync.AllOpsAre` | backend/coworker/knowledge_graph/xpm_sync.py:144-189 | In a saved sync the records applied are exactly those of resolved clients whose target is resolved and different |
| `XpmSync.UpsertEdgeSets` | backend/coworker/knowledge_graph/xpm_sync.py:274-317 | One statement sets its own key to the record's flag and touches no row of another key |
| `XpmSync.LastRecordDecides` | backend/coworker/knowledge_graph/xpm_sync.py:144-190 | For every key the last record applied decides whether it is active; keys not named keep their rows |
| `XpmSync.LastListedDecides` | backend/coworker/knowledge_graph/xpm_sync.py:144-192 | After a saved sync the edge of a key is active if and only if the last record sent that names it is, clients in the order of the fetch and records in the order of their listing |
| `XpmSync.EdgeNamesItsRecord` | backend/coworker/knowledge_graph/xpm_sync.py:242-317 | After a sync an active edge bears the id of the last record applied for its key, and is dated by that sync, `first_seen` included |
| `XpmSync.SyncKeepsSound` | backend/coworker/knowledge_graph/xpm_sync.py:93-193 | Every sync, whatever fails, keeps one entity per client, one active edge per key and no self-loop |
| `XpmSync.SyncDecidesMentionedKeys` | backend/coworker/knowledge_graph/xpm_sync.py:93-193 | A sync that is not saved changes nothing; after one that is, the keys that some record names with both clients resolved follow the last such record, and other keys keep their rows |
| `XpmSync.SecondSyncChangesNothing` | backend/coworker/knowledge_graph/xpm_sync.py:93-193 | Syncing the same snapshot again is saved or not as the first time, creates no entity and leaves the active edges as they are, whatever the database rejects |
| `XpmSync.ErrorsAre` | backend/coworker/knowledge_graph/xpm_sync.py:144-189 | An error is noted in the second pass if and only if it is that of a resolved client's failed listing, or of one of its records whose target is unresolved or the client itself, or which is sent when the session is broken, by this or any earlier rejected row |
| `XpmSync.UnknownTargetIff` | backend/coworker/knowledge_graph/xpm_sync.py:158-168 | When the second pass is run, a listed record of a resolved client is reported as an unresolved target if and only if its target was not resolved in the first pass; with no entity failing, if and only if its target is outside the fetch |
| `XpmSync.IncrementalSyncDropsAnEdge` | backend/coworker/knowledge_graph/xpm_sync.py:158-168 | Two clients in the graph, one fetched: its edge to the other is reported as unresolved though no entity failed |
| `SharePoint.Indexer.Upsert` | backend/coworker/memory/sharepoint_indexer.py:219-294 | Inserts a row or refreshes the item's one, keeping the other keys of its data |
| `SharePoint.Indexer.Walk` | backend/coworker/memory/sharepoint_indexer.py:160-216 | The recursive walk computes the walk function, errors and counters included |
| `SharePoint.Indexer.IndexDrive` | backend/coworker/memory/sharepoint_indexer.py:99-157 | The run over the top-level items, with its final commit, computes the index function, or saves nothing |
| `SharePoint.UpsertGrows` | backend/coworker/memory/sharepoint_indexer.py:240-294 | One upsert touches the row of its item and no other, adds at most that one, and keeps one row per item |
| `SharePoint.WalkGrows` | backend/coworker/memory/sharepoint_indexer.py:160-216 | A walk that is not aborted touches exactly the items of its recursive footprint |
| `SharePoint.TouchedIffReachable` | backend/coworker/memory/sharepoint_indexer.py:160-216 | That footprint is exactly the files that some short enough path of folders reaches, cycles and shared folders included |
| `SharePoint.WalkGoesIff` | backend/coworker/memory/sharepoint_indexer.py:160-216 | A walk goes wrong if and only if it comes to a folder whose listing raises or to a file whose row the database rejects |
| `SharePointCounts.WalkAccounts` | backend/coworker/memory/sharepoint_indexer.py:160-216 | A walk that is not aborted enters every folder it comes to, and its counters and errors grow by exactly what its visits find, an unrecorded file counting as found |
| `SharePoint.SavesIff` | backend/coworker/memory/sharepoint_indexer.py:99-157 | A run is saved if and only if the root's listing does not raise, no short enough path leads to a folder whose listing does, and no reachable file is rejected |
| `SharePointCounts.SavedRunCounts` | backend/coworker/memory/sharepoint_indexer.py:99-157 | The counters of a saved run: the folders visited, the files in them, the other items, the folders that could not be listed or lie too deep, and the top-level folders that no entity was found for, each in order and as often as it is come to |
| `SharePoint.RunIndexesExactlyTheReachable` | backend/coworker/memory/sharepoint_indexer.py:132-157 | A run over such a drive leaves rows for the old items and exactly the files through at most 20 folders, other rows untouched; a run over any other drive leaves the table as it was |
| `SharePoint.RowsDescribeTheirFiles` | backend/coworker/memory/sharepoint_indexer.py:132-294 | After a saved run each row of a reached file carries its name, URL and type and the entity that the last top-level folder from which it is reached resolves to |
| `SharePoint.NothingFailsIndexesAll` | backend/coworker/memory/sharepoint_indexer.py:132-157 | If no listing and no upsert fails, the run is saved and every reachable file has its row |
| `SharePoint.SecondRunAddsNothing` | backend/coworker/memory/sharepoint_indexer.py:240-294 | After a run that was saved the next one is saved too, adds no row and keeps keys that other stages have added meanwhile |
| `EmbedCache.KeysIdentify` | backend/coworker/memory/embeddings.py:355-359 | A cache key identifies the model and the text |
| `EmbedCache.EmbeddingCache.GetMany` | backend/coworker/memory/embeddings.py:90-102 | Cached vectors in input order, None for missing or undecodable ones |
| `EmbedCache.EmbeddingCache.SetMany` | backend/coworker/memory/embeddings.py:104-113 | Stores each text's vector under its key |
| `EmbedCache.MissesAre` | backend/coworker/memory/embeddings.py:278 | The requested positions are exactly the missing ones, in increasing order |
| `EmbedCache.MergeAt` | backend/coworker/memory/embeddings.py:292-301 | Cached vectors stay in place and the k-th missing position gets the k-th fetched vector |
| `EmbedCache.EmbedWithCache` | backend/coworker/memory/embeddings.py:259-302 | From a coherent cache and a provider's own reply, the answer is the provider's and the cache stays coherent; in every case the answer, the request made and the cache afterwards |
| `EmbedCache.CallIsTransparent` | backend/coworker/memory/embeddings.py:259-302 | From a cache that is coherent for a group, a call is answered as its provider would and leaves the cache coherent |
| `EmbedCache.OnlyTheMissingAreAsked` | backend/coworker/memory/embeddings.py:278-290 | The provider is asked exactly for the texts that are not cached, not at all if there are none, and a call that fails stores nothing |
| `EmbedCache.LookThenFinish` | backend/coworker/memory/embeddings.py:259-302 | A lookup followed by its answer, as steps of a run, is the call as the code makes it: same answer, same cache |
| `EmbedCache.MergeIsRight` | backend/coworker/memory/embeddings.py:272-302 | From right cached vectors and a pointwise provider the answer is the provider's, duplicates included |
| `EmbedCache.StepKeepsInv` | backend/coworker/memory/embeddings.py:259-302 | Lookups of a group of callers, answers, failures, eviction and undecodable values keep the cache coherent if the group agrees |
| `EmbedCache.SecondGetsTheFirstsVector` | backend/coworker/memory/embeddings.py:355-359 | A caller with the same model name but other request settings is given the first caller's vector |
| `EmbedCache.TransparentIffSameModelAgrees` | backend/coworker/memory/embeddings.py:259-302 | For any group of callers that share a cache: on every run of theirs each answer is the caller's own provider's, if and only if those with the same model name are given the same vectors |
| `EmbedCache.TransparentForEveryProviderIff` | backend/coworker/memory/embeddings.py:355-359 | The cache is transparent for the group whatever the provider, if and only if the group uses one setting per model name |

## Left out

- HTTP, SDK, OAuth, Graph, practice-manager and Teams calls: their outcomes are parameters.
- SQL, row-level security, migrations and the ORM: tables are sequences or maps with the stated
  constraints; the audit log's transactions read what has been committed at each statement.
- Entity recognition, SHA-256, AES-GCM, JSON codecs, UUIDs, type-name normalisation: parameters with the
  hypotheses above; firm ids are taken in canonical form, and JSON columns to come back as they were stored.
- Float rounding and real-time scheduling: integers, exact reals and an explicit clock.
- Fairness of locks and semaphores: the results are about what happens, not that it happens soon.
- Order of sorted-set members with equal scores: Redis orders them by member, the model by arrival;
  only the scores are read.
- `audit.py`: entry ids and timestamps are not hashed, so no result covers them.
- `engine.py`: exceptions of the model call other than connector errors, which escape the loop without ending the trace.
- `chat/orchestrator.py`: the stored message text with its collapsible sections, and token costs (recorded as 0); the loop has no cap, so no termination is claimed.
- `chatStream.ts`: data that parses to something other than an object, HTTP errors and aborting.
- `approval/dispatch.py`: other actions in the middle of a sweep, overlapping sweeps of one firm, and the process dying; commits and escaping exceptions within a sweep are modelled.
- `ApprovalRuns.SeenByItsStamps`: needs the last edit stamped strictly before the first signature, because with equal stamps the row does not tell (`Approval.EqualStampsDoNotTell`).
- `approval/delivery.py`: a sweep's informational counter of rows without a message id.
- `workers/processor.py`: running without a dedup gate, and resolving the mailbox owner of an event.
- `xpm_sync.py`: whether a final commit after a database error raises or is silently a rollback; nothing is saved either way, and the statistics are as counted until then.
- `sharepoint_indexer.py`: a drive that changes during a run, paging, and rolling back an aborted run, which is the caller's.
- `embeddings.py`: encoding of vectors as text; an undecodable value counts as missing.
- `plugins/scheduler.py`, `memory/retriever.py`, `sanitise.py`, envelope encryption, subscription renewal, the React UI and the command lines: single-pass or one-step facts, or library arithmetic.
