# Frostgate and Frostcode, modelled in Dafny

Frostgate is an LLM gateway: it authorizes callers, compresses prompts, caches answers, spreads load
over providers and API keys, and can run tools between model turns. Frostcode is a coding agent on
top of it. This project models the stateful algorithms of both and proves what they keep over all
runs.

Each object of the program is a `class` with the same fields and the same loops, and each of its
methods is proved to compute a function on values. The theorems are then about runs of those
functions, so they hold for the classes as well.

| file | models |
|---|---|
| `Common`, `Text`, `Schema` | string helpers, messages, requests and responses, the token estimate |
| `Accounts` | one identity's token bucket and spend: rate bound, denied checks, budget overshoot |
| `Governance`, `GovernorRuns`, `Store` | the governor over all identities, restarts, the state file |
| `Sse`, `SseTheorems`, `SseLaws`, `Anthropic` | the streaming assembler and the stream that is translated into it |
| `Vectors`, `Cache`, `CacheRuns` | text similarity, the response cache, its agreement with a log of Puts |
| `Editing`, `Workspace` | edit_file and multi_edit, the file tools and their undo captures |
| `AgentModel`, `Agent` | the agent's step machine, as functions and as the class that refines them |
| `AgentEffects`, `AgentRuns` | what a call does to the files and the conversation; when a run goes on and why it stops |
| `AgentShape`, `AgentUndo`, `AgentGate`, `AgentSessions` | conversation shape, undo, gating, and all of it over whole sessions |
| `Compress` | context compression and its accounting |
| `Paths`, `Sandbox` | lexical paths and the directory sandbox |
| `Router`, `Mcp`, `Gateway` | key selection and fallback, tool ownership, the request pipeline and its counters |

Choices that hold throughout:

- Times, bucket levels and similarities are exact reals; similarities are compared as squares, so no
  square root appears. Integers are unbounded. A character stands for one byte, and white space and
  letter case are those of ASCII.
- What the program only calls is a parameter: JSON decoding, the token verifier, the cache-key hash,
  the hash behind key selection, models, providers, tools, approval prompts and file-system faults.
  Where an answer may change from call to call, the parameter takes the number of the call, so the
  outside world may answer differently every time; the one exception, compression's summarizer, is
  listed under "Left out".
- A method guarded by a mutex is one step. The agent's read-only tools are the one place with real
  concurrency; they fill their slots in an arbitrary order.
- Maps are ranged over by picking arbitrary remaining keys, so results hold for every order.

Where the code differs from what its comments or documentation suggest, the code is followed, and a
lemma says exactly what holds:

- `multi_edit` is described as the atomic form of a series of edits. It equals edit_file applied one
  edit at a time exactly on texts in which every carriage return begins a CRLF
  (`MultiEditIsAtomicFold`; `DifferExample` is a text on which the two differ).
- Undoing `move_file` renames back whatever it finds. It restores the files if and only if the
  destination was free, or was the source itself (`UndoOfOneCall`, `MoveOntoExample`).
- A window can rewrite the prompt and report nothing (`SilentRewrite`, with the exact condition, and `SilentRewriteExample`).
- A root `/` in the sandbox grants only itself (`SlashGrantsOnlyItself`).
- An entry that expires right now is refused by the exact lookup and still served by the scan
  (`ExpiryBoundary`).
- A flush forgets persisted spend of an OIDC subject that has not authenticated since the start
  (`UnseenNameIsForgotten`), and two accounts of one name share one persisted number
  (`RestartResumes`; `NamesAgreeExactly` gives the configurations without that trouble). A virtual-key secret that begins with `oidc:` is billed to a subject
  (`BillingRoundTrip`).
- A server name configured twice loses the transport of its first successful dial; nothing closes it
  (`Mcp.Manager.constructor`, `Mcp.Manager.Close`).
- `Reset` keeps the undo history, and compaction clears it; `EverySession` accounts for both.

## Model

| member | source | states |
|---|---|---|
| RateLimit.TraceConservation | internal/governance/governance.go:161-189 | on any trace, clock steps backwards included, the level stays in [0, rpm] and allowed requests plus the remaining level never exceed the starting level plus what the clock's forward movement refills |
| Accounts.CheckDecides | internal/governance/governance.go:161-189 | a check denies for the model exactly if a model list does not name it, for the budget exactly if that is spent otherwise, and for the rate only with less than one token after the refill, which is written out; it never changes spend, and counts exactly the allowed requests |
| RateLimit.WindowBound | internal/governance/governance.go:161-189 | in any window of any trace at most rpm + rpm·D/60 checks are allowed, D being the clock's forward movement in the window |
| RateLimit.BurstIsExact | internal/governance/governance.go:171-187 | the bound is met: of n checks at one instant a bucket allows exactly as many as it holds whole tokens |
| RateLimit.RefillInTwoSteps | internal/governance/governance.go:172-181 | refilling at t and again at u equals one refill at u, the cap included |
| RateLimit.DeniedCheckIsTransparent | internal/governance/governance.go:161-189 | with a clock that never steps back, inserting a rate-limited check anywhere changes no other decision, no spend, and no level that any later check could see |
| RateLimit.SpacedClientIsServed | internal/governance/governance.go:171-187 | a client whose checks are at least 60/rpm seconds apart is never rate limited |
| RateLimit.NewClientIsServed | internal/governance/governance.go:142-189 | the same from the instant an account is opened, its first check coming at any time from that instant on |
| Budget.SpendConservation | internal/governance/governance.go:193-211 | spend is the initial value plus exactly the positive amounts recorded; checks cost nothing |
| Budget.BudgetOvershoot | internal/governance/governance.go:168-170 | with at most k allowed and unrecorded requests of cost at most c, spend never exceeds max(initial spend, maxTokens − 1 + k·c) |
| Budget.OvershootIsReached | internal/governance/governance.go:168-170 | that limit is tight: a schedule exists that reaches it exactly |
| Governance.KeyState.CheckState | internal/governance/governance.go:161-189 | the in-place check leaves exactly the account and the decision that the trace theorems are about |
| Governance.Governor.constructor | internal/governance/governance.go:71-93 | one full account per configured secret, the last entry of a repeated secret winning, with the spend loaded for its name |
| Governance.Governor.OidcState | internal/governance/governance.go:142-158 | a subject's account is opened once, with a full bucket and the spend loaded for its name; every other account is untouched |
| Governance.Governor.Authorize | internal/governance/governance.go:108-133 | disabled, everybody is let in unbilled; otherwise a caller is unauthorized, and nothing changes, exactly if its JWT is refused or its token is empty or no configured key; and anybody else gets the decision, the name and the billing id of its own account, and changes no other |
| Governance.AdmitIsJustified | internal/governance/governance.go:108-189 | the same of the function that Authorize is tied to, in terms of tokens, dots, keys, model lists, spend and buckets |
| Governance.Governor.RecordSpend | internal/governance/governance.go:193-211 | a positive amount is added to the account the billing id names, a subject's if it begins with `oidc:`, and nothing else changes; without such an account, or disabled, nothing does |
| Governance.Governor.Flush | internal/governance/governance.go:214-229 | after success the store loads a snapshot of the accounts held, after a failed save what it loaded before; the accounts do not change |
| Governance.Governor.SpendByName | internal/governance/governance.go:215-228 | in whatever order the maps are ranged over, the snapshot has exactly the names of the accounts held, each with the spend of an account of that name |
| Governance.BillingRoundTrip | internal/governance/governance.go:193-211 | a billing id leads back to the identity that was checked, except exactly for a static secret that begins with `oidc:` |
| GovernorRuns.Isolation | internal/governance/governance.go:108-211 | under any interleaving of Authorize and RecordSpend calls of all callers, with tokens that may expire or stop verifying between calls, each account evolves and is granted requests exactly as under its own calls alone |
| GovernorRuns.IdentityRateBound | internal/governance/governance.go:161-189 | the rate bound for one identity of the whole governor, in any window of any interleaving |
| GovernorRuns.SubjectRateBound | internal/governance/governance.go:142-189 | the rate bound of an OIDC subject from its first authenticated call on, with the configured default |
| GovernorRuns.EveryRateBound | internal/governance/governance.go:71-189 | for a governor started from any configuration, any calls before and any window: every identity with a limit, configured key or subject, is granted at most the limit plus what the clock's forward movement refills |
| GovernorRuns.IdentitySpend | internal/governance/governance.go:193-211 | an identity's spend grows by exactly its own positive records |
| GovernorRuns.IdentityOvershoot | internal/governance/governance.go:161-211 | the overshoot bound for one identity of the whole governor: under any interleaving of calls and of requests that end without a record, with at most k of its requests allowed and unrecorded and each costing at most c, its spend never exceeds max(initial spend, maxTokens − 1 + k·c) |
| GovernorRuns.SubjectOvershoot | internal/governance/governance.go:142-211 | the same for an OIDC subject from its first authenticated call on, with the configured default and the spend loaded for its name |
| GovernorRuns.RestartResumes | internal/governance/governance.go:71-93 | a start over a flushed snapshot resumes the spend of every live identity if and only if accounts of one name have spent the same |
| GovernorRuns.CarefulNamesAgree | internal/governance/governance.go:77-90 | if different secrets of the configuration have different names, and none bears the name of a subject some token speaks for, accounts of one name agree after every run |
| GovernorRuns.DistinctNamesAreCareful | internal/governance/governance.go:83-91 | pairwise distinct configured names without the prefix `oidc:` are enough for that |
| GovernorRuns.OpenAllEntry | internal/governance/governance.go:83-91 | the account of a configured secret comes from the last entry that has it, with a full bucket, the spend loaded for its name and no requests |
| GovernorRuns.NamesAgreeExactly | internal/governance/governance.go:71-211 | and it is exact: with secrets that are not empty and do not begin with `oidc:`, accounts of one name agree after every run if and only if the configuration is of that kind |
| GovernorRuns.SharedNameExample | internal/governance/governance.go:83-91 | a configuration that fails: two keys named `n`, one of them charged |
| GovernorRuns.SpendSurvivesRestart | internal/governance/governance.go:71-229 | for a configuration whose names are kept apart as above: start, run any calls, flush, start again; every configured key and every subject that had authenticated has the spend it had at the flush |
| GovernorRuns.CrashThenRestart | internal/store/store.go:83-95 | under the same condition, a start after a crash anywhere in the save of a flush resumes the flushed spends if the rename was reached, and otherwise is exactly the start over the old file |
| GovernorRuns.UnseenNameIsForgotten | internal/governance/governance.go:214-229 | a loaded name whose subject has not authenticated is missing from the next snapshot |
| Store.CrashLeavesOldOrNew | internal/store/store.go:63-95 | wherever a crash stops Save, Load gives what it gave before or the new snapshot, and the new one exactly when the rename was reached |
| Store.File.Load | internal/store/store.go:63-81 | a missing file is an empty snapshot; an unreadable one is an error with an empty snapshot |
| Store.File.Save | internal/store/store.go:83-95 | after success Load gives the snapshot; after a refused or stopped write or a refused rename it gives what it gave before; and so at every moment in between |
| Sse.SseAssembler.Write | internal/gateway/sse.go:50-63 | one write handles exactly the complete lines of what was buffered plus what came, and buffers what follows the last newline |
| Sse.SseAssembler.HandleChoice | internal/gateway/sse.go:107-133 | text, reasoning, fragments and finish reason of one choice are added, with the callbacks in order |
| Sse.SseAssembler.Response | internal/gateway/sse.go:137-174 | one call for each index in first-seen order, content only if there is text, finish reason `stop` by default |
| SseTheorems.ChunkingIndependence | internal/gateway/sse.go:50-63 | however a stream is cut into writes, state, callbacks and buffer equal handling its complete lines at once |
| SseTheorems.SameStreamSameResult | internal/gateway/sse.go:50-63 | two chunkings of one stream cannot be told apart |
| SseTheorems.TableInvariant | internal/gateway/sse.go:107-133 | after any writes `order` has no duplicates, the same members as `calls`, and is first-seen order |
| SseTheorems.OrderOnlyGrows | internal/gateway/sse.go:115-121 | calls keep their places: whatever else is written, `order` is only extended |
| SseTheorems.Reassembly | internal/gateway/sse.go:107-174 | for any stream in any chunks, the calls read back from the response carry the concatenated fragments of their own index and its last non-empty id and name, in first-seen order; the content is the concatenation of the text deltas, which are what onText heard |
| SseLaws.CallsOfStream | internal/gateway/sse.go:115-163 | each call of the response is that of one index, in the order of the indices' first fragments: the arguments of its fragments joined in arrival order, and the last id and name among them that are not empty |
| SseLaws.StreamFields | internal/gateway/sse.go:98-174 | for any stream in any chunks: the last non-empty id, model and finish reason (`stop` if none), the last usage reported, one assistant message; and the callbacks are each choice's reasoning and then its text, in order |
| SseLaws.DataLine | internal/gateway/sse.go:65-97 | a line carries what follows its `data:`, blanks aside, unless that is empty or `[DONE]` |
| SseLaws.OtherLine | internal/gateway/sse.go:65-69 | any other line carries nothing |
| SseLaws.LinesAreTheStream | internal/gateway/sse.go:50-63 | lines and rest are the stream, each line ends with its only newline and the rest has none |
| SseTheorems.InterleavingIndependence | internal/gateway/sse.go:50-174 | two streams, in whatever chunks, whose fragments agree index by index and introduce the indices in the same order give responses with the same calls, however the fragments interleave |
| Anthropic.Stream | internal/provider/anthropic.go:177-211 | the loop over the scanned lines writes exactly the translation of its events into the assembler |
| Anthropic.StreamPreservesText | internal/provider/anthropic.go:177-237 | for any event stream, the assembled response has the concatenated text of the content_block_delta events, no tool calls and finish reason `stop`, and any text comes with the fixed stream id and the requested model; malformed and unrelated events leave no trace |
| Anthropic.EventLine | internal/provider/anthropic.go:181-196 | an upstream line carries the event after its `data:`, blanks aside |
| Vectors.CauchySchwarz | internal/cache/cache.go:169-186 | the squared dot product is at most the product of the squared norms, with equality only for vectors in proportion |
| Vectors.SimilarityLaws | internal/cache/cache.go:156-186 | the similarity is symmetric, lies in [0, 1], is 1 for equal vectors with a term, and 1 only for vectors in proportion |
| Vectors.InnerOverEither | internal/cache/cache.go:169-186 | summing over the smaller map, the larger map or the union of terms gives one and the same symmetric dot product |
| Vectors.Vectorize | internal/cache/cache.go:156-167 | term counts of the normalized text and their sum of squares, in any range order |
| Vectors.DotProduct | internal/cache/cache.go:169-186 | the loop over the smaller map, in any range order, gives the dot product over all terms |
| Cache.ResponseCache.Get | internal/cache/cache.go:72-108 | a copy, fresh in all its parts and marked, of the unexpired entry of the very key; else of an entry of the very model, not expired, whose squared cosine reaches the squared threshold and which no candidate surpasses, under every range order; and nothing exactly if there is no such entry |
| Cache.LookupIsMeant | internal/cache/cache.go:72-108 | that answer, multiplied out over dot products and norms, is what the lookup over cosines finds |
| Cache.ResponseCache.Put | internal/cache/cache.go:112-137 | a copy is stored under the request's key and oldest keys are dropped down to the cap; nothing else changes |
| Cache.MutateAfterPut | internal/cache/cache.go:112-137 | writing to a response after it was put, to its fields, its choices in place or its metadata in place, changes nothing the cache holds |
| Cache.MutateAfterGet | internal/cache/cache.go:188-202 | writing to any of those parts of a response that a hit returned changes nothing the cache holds |
| CacheRuns.RefinesLog | internal/cache/cache.go:72-137 | after any Puts the cache is exactly the last maxItems insertions, oldest first and without repetition, each with the latest entry put under its key |
| CacheRuns.ExactHitIsLatest | internal/cache/cache.go:82-84 | an exact hit serves the latest Put of its key, before that Put's expiry |
| CacheRuns.GoneAfterMaxInsertions | internal/cache/cache.go:127-136 | a key that was put is gone if and only if at least maxItems insertions followed its own last one, and those were of distinct other keys |
| CacheRuns.InsertionsSpread | internal/cache/cache.go:127-136 | any maxItems + 1 consecutive insertions are of different keys |
| CacheRuns.NoRoomKeepsNothing | internal/cache/cache.go:131-136 | with no room configured the cache stays empty |
| CacheRuns.SameTextNeverMisses | internal/cache/cache.go:85-108 | with a threshold in (0, 1], a request whose final user text equals that of a live same-model entry with at least one term never misses |
| CacheRuns.RecentTextIsHit | internal/cache/cache.go:85-137 | after any Puts, a request whose final user text equals that of the latest Put under some key is a hit if that Put is live and of the request's model and fewer than maxItems insertions came after the key's own last one |
| CacheRuns.ServedWasPut | internal/cache/cache.go:72-137 | whatever a lookup serves is the last Put of its key: under the request's very key less than the ttl ago, or for the request's very model, no more than the ttl ago, with a text that is alike |
| CacheRuns.FinalUserTextIsLast | internal/cache/cache.go:145-154 | the compared text is that of the last user message, empty if it has none |
| CacheRuns.SameWordsSameVector | internal/cache/cache.go:141-167 | a text's vector counts its words as they are in small letters, whatever the spacing |
| CacheRuns.HighThresholdNeverHits | internal/cache/cache.go:94-104 | a threshold above 1 turns the scan off |
| CacheRuns.ExpiryBoundary | internal/cache/cache.go:82-97 | at the instant of expiry the exact lookup refuses and the scan still serves a same-text request |
| Editing.RunMultiEdit | internal/agent/tools.go:264-297 | the loop yields exactly the fold of the edits over the normalized text, or the first error |
| Editing.EditFileMeaning | internal/agent/tools.go:155-172 | edit_file succeeds exactly if the old string occurs once, or several times with replace_all, and then the text is its pieces between the occurrences joined by the new string, all with newlines only; the error says whether it was missing or ambiguous |
| Editing.MultiEditMeaning | internal/agent/tools.go:273-296 | multi_edit succeeds exactly if there are edits and each succeeds on what the ones before it left, and gives the last text; otherwise the first failing edit says why |
| Editing.CutsMeaning | internal/agent/tools.go:162-172 | the pieces of a text, for every old string, the empty one included: joined by it they are the text, by another string what replacing gives, and they are one more than the occurrences |
| Editing.MultiEditIsAtomicFold | internal/agent/tools.go:150-297 | multi_edit equals its edits one at a time through edit_file, for all carriage-return-free edits, if and only if every carriage return of the text begins a CRLF |
| Editing.DifferExample | internal/agent/tools.go:162-173 | a concrete text and two ordinary edits on which they differ |
| Editing.ReplaceMeaning | internal/agent/tools.go:164-172 | replacing keeps the pieces of text between occurrences and changes only what joins them; the count is the number of joints |
| Editing.PiecesAreLeftmost | internal/agent/tools.go:164-172 | those pieces are cut at leftmost occurrences, and the last contains none |
| Editing.ReplaceLength | internal/agent/tools.go:164-172 | a replacement changes the length by count·(\|new\| − \|old\|), the empty old string included |
| Editing.LFLeavesLoneCR | internal/agent/tools.go:162-163 | normalizing leaves no carriage return exactly when each begins a CRLF |
| Workspace.FileToolTouchesOnePath | internal/agent/tools.go:125-297 | outside the resolved path no file changes, even when a write is refused or torn |
| Workspace.RevertInvertsRun | internal/agent/tools.go:69-87 | the captured restore undoes whatever the tool did, success, failure or torn write, if and only if it was not a move onto an existing other file |
| Workspace.MoveOntoExample | internal/agent/tools.go:436-446 | a concrete move onto an existing file whose undo loses that file's contents |
| Agent.Agent.ExecToolCall | internal/agent/agent.go:511-567 | unknown tools, plan mode and the approver are tried in that order, and a call that does not pass only gets its refusal as an answer; one that passes leaves in the files exactly what its tool promises, and gets that tool's outcome as its one answer, cut to 8000 characters |
| AgentEffects.ToolDid | internal/agent/tools.go:125-337 | write_file leaves the content at the path, delete_file takes the file away, edit_file and multi_edit leave the edited text, move_file the source's contents at the destination and no source; nothing else changes, success is reported exactly then, and a refused or impossible operation changes nothing |
| AgentEffects.ExecIsExecuted | internal/agent/agent.go:511-601 | the same of a whole call: gate, files, answer text, and at most one undo entry with the call's preview |
| AgentEffects.BatchIsStaged | internal/agent/agent.go:432-507 | a batch executes every call once, first those of tools that only read, then the others, each group in the order of the calls |
| Agent.Agent.ExecToolCalls | internal/agent/agent.go:432-507 | for every completion order of the fanned-out calls the outcome is that of the sequential stable partition |
| Agent.Agent.FanOut | internal/agent/agent.go:453-477 | goroutines that complete in any order fill exactly their own slots |
| Agent.Agent.Compact | internal/agent/agent.go:151-217 | compaction happens exactly if asked for or over a positive budget, with more messages than the at least two to be kept; then all system messages, the note and the kept messages remain, the history is cleared and the saving is never negative; a failing model or a blank summary changes nothing |
| Agent.Agent.Run | internal/agent/agent.go:331-427 | after the compaction of the old conversation with the user's message, rounds follow one another, each the model's reply with calls and a result for each; and the run ends interrupted, failed, empty, answered or out of steps exactly as the world's answers after the last round say |
| AgentRuns.RunEnds | internal/agent/agent.go:331-427 | the rounds of a run and the exact condition of each of its five exits, from messages, ticks and the world's answers |
| AgentRuns.QuietRunEnds | internal/agent/agent.go:341-426 | without cancellation and failing turns a run ends only with an answer, an empty turn, or all its rounds done |
| AgentRuns.AnsweredShows | internal/agent/agent.go:390-401 | a run was answered exactly if its last message is an assistant message without calls |
| AgentRuns.CommandsMean | internal/agent/agent.go:104-107 | mode and goal changes rewrite the system message in front and nothing else; reset keeps only it, and files, mode and history |
| Agent.Agent.Undo | internal/agent/agent.go:113-123 | the last entry is popped even when its restore fails; its file gets its prior contents, or goes if it was new, or is moved back; and the description is returned exactly if that could be done |
| AgentModel.ExecOfReadOnly | internal/agent/agent.go:464-489 | a read-only call run outside the gate has the same effect as one run through it |
| AgentShape.CutOnlyAtFront | internal/agent/agent.go:172 | what a cut leaves of a sequence of blocks is some tool results and then whole blocks |
| AgentShape.ExecAppends | internal/agent/agent.go:511-601 | every path of a call appends one tool message with its id and nothing else |
| AgentShape.BatchAnswers | internal/agent/agent.go:432-507 | a batch appends one result for each call, the ids being a permutation of the call ids |
| AgentShape.CompactKeepsTranscript | internal/agent/agent.go:151-217 | compaction moves the cut and never changes what was said |
| AgentShape.RunExtends | internal/agent/agent.go:331-427 | at every exit of Run the conversation is well shaped and extends the transcript by the user's message and what followed |
| AgentShape.ApplySystemKeeps | internal/agent/agent.go:252-267 | rewriting the system prompt leaves one in front and keeps the transcript |
| AgentShape.AddSystemKeeps | internal/agent/agent.go:305 | an appended system message keeps shape and transcript |
| AgentShape.ResetKeeps | internal/agent/agent.go:296-302 | after a reset only the system message is left |
| AgentUndo.UndoAllUnwinds | internal/agent/agent.go:113-123 | undoing as often as there are entries empties the history and restores all of it in reverse, failing restores included |
| AgentUndo.UndoInvertsBatch | internal/agent/agent.go:432-567 | after any mix of approved, denied, failing and succeeding calls, undoing until the history is empty restores every file, if every logged run is reversible |
| AgentUndo.UndoOfOneCall | internal/agent/agent.go:545-552 | one call that recorded an entry is undone by it if and only if it was not a move onto an existing other file |
| AgentUndo.LoopUndoes | internal/agent/agent.go:341-423 | the entries that a whole Run loop adds lead back to the files it started with, if every run it logged is reversible (no uncaptured tool, no move onto an existing other file) |
| AgentGate.ExecGated | internal/agent/agent.go:511-567 | captures and destructive runs happen in build mode only, and directly after a yes to the very same call when an approver is set |
| AgentGate.RunGated | internal/agent/agent.go:331-427 | that holds over a whole Run; files change only if a run was logged, and never when the approver always refuses |
| AgentGate.PlanModeIsReadOnly | internal/agent/agent.go:523-529 | in plan mode a whole Run changes no file, whatever the model asks for |
| AgentGate.DenialKeepsFiles | internal/agent/agent.go:533-543 | an approver that always refuses keeps every file over a whole Run, whatever happened before |
| AgentGate.RunAsksTruthfully | internal/agent/agent.go:533-543 | every recorded yes or no is the approver's own answer to that very call, and what ran is the tool the table holds under that name |
| AgentSessions.EverySession | internal/agent/agent.go:113-427 | after any series of user commands: message 0 is a system message, the rest are whole blocks after a cut front, everything destructive passed the gate, and undoing everything leads back to the files where the history began, if every run since then is reversible (no uncaptured tool, no move onto an existing other file) |
| AgentSessions.UndoRestoresStart | internal/agent/agent.go:113-123 | with any tool table, and a user who never approves an uncaptured tool or a move: after any session undoing everything restores the files where the history began, and without compaction those the agent was built over |
| AgentSessions.ReversibleSessionIsUndone | internal/agent/agent.go:113-123 | with any tools, the same without compaction when every run of the session was reversible |
| Compress.Compressor.Apply | internal/compress/compress.go:50-83 | the messages become what the strategy gives, the saving is the positive part of before − after, and a strategy is named exactly when the estimate fell |
| Compress.CompressionActs | internal/compress/compress.go:50-165 | which strategy acts and when: nothing when off; every message spaced under trim; otherwise nothing within a positive limit or with nothing to drop, and else the older messages give way to their summary, if one can be had, or to their number |
| Compress.Compressor.Split | internal/compress/compress.go:109-123 | system messages, dropped middle and recent tail, each in order |
| Compress.Itoa | internal/compress/compress.go:168-180 | the 20-byte buffer suffices and holds the decimal notation; a negative number gives the empty string |
| Text.DecimalDenotes | internal/compress/compress.go:168-180 | that notation consists of digits, denotes the number and has no leading zero |
| CompressionLaws.TrimMessageLaws | internal/compress/compress.go:96-105 | trimming keeps a message's words, is idempotent and never raises its estimate |
| CompressionLaws.TrimIsIdempotent | internal/compress/compress.go:96-105 | trimming a prompt twice is trimming it once |
| CompressionLaws.TrimNeverCosts | internal/compress/compress.go:96-105 | trimming never raises a prompt's estimate |
| CompressionLaws.ElideShape | internal/compress/compress.go:127-140 | after messages are dropped: all system messages in order, one note, the last keep others in order |
| CompressionLaws.WindowIsStable | internal/compress/compress.go:127-140 | window applied twice equals window applied once, also after a summary |
| CompressionLaws.ElideAccounting | internal/compress/compress.go:50-163 | before − after is the estimate of the dropped middle minus that of the note |
| CompressionLaws.SilentRewrite | internal/compress/compress.go:76-83 | a window rewrote the prompt and reports nothing exactly when the dropped middle was estimated at no more than the note |
| CompressionLaws.SilentRewriteExample | internal/compress/compress.go:76-83 | a concrete one-word prompt whose rewrite raises the estimate |
| CompressionLaws.CompressionIsProjection | internal/compress/compress.go:50-163 | whatever the strategy, compression does nothing, or trims every message in its place, or keeps every system message in order, adds one, and keeps exactly the most recent others |
| CompressionLaws.CompressionIsIdempotent | internal/compress/compress.go:50-163 | compressing twice, under any configuration and with any summarizer, is compressing once |
| Schema.EstimateMessages | internal/tokens/tokens.go:24-34 | the running total is the estimate that distributes over concatenation |
| Schema.EstimateAppend | internal/tokens/tokens.go:24-34 | the estimate of a concatenation is the sum of the estimates |
| Schema.EstimateSplit | internal/tokens/tokens.go:24-34 | moving system messages to the front keeps the estimate |
| Schema.EstimateTextRounds | internal/tokens/tokens.go:9-20 | the estimate of a text is a quarter of its length, rounded up |
| Paths.CleanIsIdempotent | internal/agent/sandbox.go:73-78 | cleaning an absolute path twice is cleaning it once |
| Paths.UpCancels | internal/agent/sandbox.go:73-78 | a component and the `..` after it cancel, anywhere in a path |
| Paths.ComponentsOfRender | internal/agent/sandbox.go:73-85 | writing components as a path and reading them back is the identity |
| Paths.JoinLeads | internal/agent/sandbox.go:75-77 | joining a cleaned relative path to a directory leads where walking its components from there leads |
| Paths.UnderIsInside | internal/agent/sandbox.go:82-85 | string prefix plus separator equals component prefix, for every root but `/` |
| Sandbox.Sandbox.Resolve | internal/agent/sandbox.go:68-88 | accepts exactly the non-blank paths whose target's components extend those of some root, and returns the target |
| Sandbox.TargetMeans | internal/agent/sandbox.go:73-77 | an absolute path leads to its own components, a relative one to its components below the primary directory |
| Sandbox.Sandbox.Add | internal/agent/sandbox.go:46-63 | a directory not yet granted is added at the end, one already granted is not listed again, anything else is refused, and no root is ever lost |
| Sandbox.ResolveIsIdempotent | internal/agent/sandbox.go:68-88 | a resolved path resolves to itself |
| Sandbox.AcceptanceGrows | internal/agent/sandbox.go:46-88 | granting roots never rejects a path that was accepted |
| Sandbox.SlashGrantsOnlyItself | internal/agent/sandbox.go:82-85 | the root `/` accepts `/` and nothing below it |
| Router.Router.PickKey | internal/router/router.go:93-130 | for a pool of several keys the counter goes up by one modulo 2^64, and the key is that of the position between whose sums of weights the residue of the counter's hash lies; one key is returned as it is, and an empty pool gives the empty key |
| Router.Router.Pick | internal/router/router.go:123-129 | the subtract-and-test loop finds the interval of the residue; the fallback after it is unreachable |
| Router.Router.SetProviderKey | internal/router/router.go:136-145 | a configured provider's pool becomes one key and every pool keeps weights of at least 1 |
| Router.Router.Resolve | internal/router/router.go:57-80 | the attempts are the configured targets in order, each with the next key of its provider, and the counters advance as those picks advance them; there is an error exactly when there is no attempt |
| WeightedSelection.TargetsOf | internal/router/router.go:57-72 | a model's targets are its route; else the one its own text names as provider/model; else there are none |
| Router.Chat | internal/router/router.go:163-179 | the first answer wins; every attempt before the last failed without a status, with 429 or with 500 and above; any other status or a cancelled wait stops the chain and is the error; otherwise all failed and the last failure is reported |
| WeightedSelection.SelectionCount | internal/router/router.go:105-129 | position i is chosen for exactly weight i of the residues 0..total−1 |
| WeightedSelection.SelectionPartition | internal/router/router.go:105-129 | every residue chooses one position and no other |
| WeightedSelection.KeyCount | internal/router/router.go:105-129 | of the residues 0..total−1, exactly as many make PickKey return a key as the positions that carry it weigh together |
| WeightedSelection.SplitOfWritten | internal/router/router.go:83-89 | splitting is the inverse of writing provider/model |
| WeightedSelection.SplitWritesBack | internal/router/router.go:83-89 | what a split returns writes back to the input, with a slash-free provider and both sides non-empty |
| Mcp.Manager.constructor | internal/mcp/manager.go:99-120 | every configured server ends up as its last dial left it, index and catalog are right, and the only transports lost are those of successful earlier dials of a repeated name |
| Mcp.DialedLast | internal/mcp/manager.go:110-117 | a server's client is what its last dial gave: that dial's transport and tools if it succeeded, and neither otherwise |
| Mcp.Manager.Reconnect | internal/mcp/manager.go:277-291 | the old transport is closed, one client is replaced and the index is right again; an unknown name changes nothing; no transport is lost |
| Mcp.Manager.Close | internal/mcp/manager.go:305-313 | every client's transport is closed; what stays open is what was lost before |
| Mcp.Manager.Dial | internal/mcp/manager.go:126-151 | a server that cannot be used leaves no open transport behind |
| Mcp.Manager.RebuildCatalog | internal/mcp/manager.go:156-175 | the catalog is strictly name-sorted and lists exactly the owned names, each owned by the first connected server that advertises it, with that server's first definition |
| Mcp.Manager.CatalogEntry | internal/mcp/manager.go:156-175 | told from the servers: every catalog entry is the first tool of its name at the first server in configuration order that offers it, and later entries have later names |
| Mcp.Manager.OfferedIsListed | internal/mcp/manager.go:159-171 | every name that some connected configured server offers has a catalog entry |
| Mcp.LessIsLexicographic | internal/mcp/manager.go:172-174 | the order of the catalog is that of the names' first difference |
| Mcp.Manager.Claim | internal/mcp/manager.go:164-170 | one server gets exactly the names nobody claimed before |
| Mcp.Manager.Route | internal/mcp/manager.go:294-302 | a call goes to the first configured server that is connected and has a tool of that name, and to nobody exactly if there is none |
| Mcp.IndexIsDetermined | internal/mcp/manager.go:156-175 | index and catalog depend on the configuration order and the live servers only, not on the history of dials |
| ToolLoop.OneAnswer | internal/router/router.go:163-179 | a chain of attempts has at most one answer and one winner |
| ToolLoop.NoCallsNoRounds | internal/gateway/gateway.go:182-213 | no tool result counted means no round was appended |
| Gateway.Gateway.RunToolLoop | internal/gateway/gateway.go:182-213 | at most MaxIterations rounds, each the model's answer to everything before it; only whole assistant-plus-results blocks are appended, results in call order; it ends with a final answer, a failure or the last round allowed |
| Gateway.RoundsHaveCalls | internal/gateway/gateway.go:194-209 | every round is a reply with calls, and each call's result carries its id and its owner's answer or the error as text |
| Gateway.ConclusionHasNoCalls | internal/gateway/gateway.go:190-197 | with tools on, what ends a conversation before the rounds are used up (four by default) has no calls |
| Gateway.Gateway.CallTool | internal/mcp/manager.go:294-302 | a tool's owner answers; an unknown tool or a failure becomes text |
| Gateway.Gateway.LookUp | internal/gateway/gateway.go:117-123 | the cache is asked under the compressed prompt's key; a hit keeps the stored body and carries this request's metadata |
| Gateway.Gateway.Finish | internal/gateway/gateway.go:148-157 | an answer is stored, stamped, under the key of the request's present messages exactly when no tool was called |
| Gateway.Gateway.Complete | internal/gateway/gateway.go:106-158 | a request is served from the cache, unroutable, failed or sent, each exactly when the cache, the routes and the providers say so; the key stored is the key looked up; besides the request, exactly one of hits, errors and a provider's count goes up by one |
| Gateway.AnswerMeans | internal/gateway/gateway.go:148-157 | an answered request names its winner and model, what compression saved and how many tools were called; it leaves a new cache entry, under the compressed prompt and for the ttl, only if no tool was called, the cache is on and the request is no stream |
| Gateway.LookupMeans | internal/gateway/gateway.go:117-123 | what the pipeline serves from the cache, told from the entries: the live one of the key, or an alike one of the model |
| Gateway.ObservedTotal | internal/metrics/metrics.go:29-33 | observing a provider raises the sum over all providers by one |
| Gateway.ObservedOne | internal/metrics/metrics.go:29-33 | and counts for that provider and no other |
| Gateway.Gateway.ToolChat | internal/gateway/gateway.go:274-290 | one turn past cache and compression counts a provider but no request; the answer keeps what metadata it brought, but for provider and model |
| Gateway.Gateway.PrepareStream | internal/gateway/gateway.go:217-229 | a stream counts as a request at once; it gets the attempts for its model's usable targets, or is an error exactly if there are none |
| Gateway.Gateway.FinishStream | internal/server/server.go:135-143 | a stream ends as one error or one provider count |
| Gateway.Gateway.Deny | internal/server/server.go:76-81 | a denied request is an error that was never counted as a request |
| Gateway.StoredIsFound | internal/cache/cache.go:82-136 | what was just stored is an exact hit until it expires, if there is room for one entry |
| Gateway.AskTwice | internal/gateway/gateway.go:106-158 | the same request asked again before expiry is served the first answer's body without any provider being asked, if no tool was used; two requests, one provider count and one cache hit are recorded |
| Gateway.AskUnknown | internal/gateway/gateway.go:126-130 | a model without a route, whose name is no provider/model, gets no answer and counts as one request and one error |

The conservation law of the counters is `Balanced`, a part of `Gateway.Valid`, which every method
above keeps: requests + agent turns + denials = cache hits + errors + the sum over providers + open
streams. With Complete alone this is requests = cache hits + errors + the sum over providers.

## Left out

- HTTP servers and clients, subprocesses, the terminal interface, the dashboard, installers, self-update and configuration parsing: input and output with little logic behind them.
- JSON, SHA-256, RSA, JWT and base64 are abstract functions. The state file's codec is assumed to read back what it wrote; a decoded stream chunk is arbitrary, except that the translated chunks decode to what was encoded and hold no newline.
- The cache key is an arbitrary function of model, messages and temperature, the only fields the code reads; it is not claimed to be injective.
- Unicode: multi-byte white space is not trimmed, case folding is that of ASCII, counting and replacing an empty old string work byte by byte and not by UTF-8 sequence, and the eight-thousand-byte clip may split a character as it does in the code.
- Floating-point rounding of levels and similarities, and overflow of 64-bit spend and counters.
- Directories, permissions, symbolic links and unreadable files: the file system is a map from resolved paths to contents. Deleting an empty directory, `make_dir` and its capture, and creating parent directories are not modelled.
- `bash` and MCP tools of the agent have no capture; they may change files arbitrarily, and the undo theorems exclude them, by what the user approves or by the log.
- The wording of the agent's own notices and of its system prompt; only where they go is modelled. Reasoning effort, temperature and the advertised tool list of a model turn are not.
- `AddTool`, `ReplaceMCPTools` and saved sessions: the agent's tool table is fixed, its tools that are not destructive only read, and its conversation starts empty.
- What a read-only tool answers is an arbitrary function of the call's number, the call and the files; the sub-agent tool is one of these.
- `Router.Stream`, which may retry after bytes were written, and the duration and jitter of the back-off.
- The summarizer is a function of model and history, so it answers equal questions equally; its own calls through the router do not advance the key counters.
- Injecting MCP tools into the request's own tool list, and the request fields that neither cache nor compression reads.
- Key weights below 1, which configuration loading replaces, and a negative `KeepRecentTurns`, on which the code's slicing is out of range.
- The in-memory store, whose only logic is a copy.
- The scanner's limit of one megabyte for a line and write errors of the client connection, after which a stream ends early.
- Sandbox.Sandbox.Add: whether a path is a directory is a parameter.
- The raw bytes inside one message of a response are values; its fields, choices and metadata block are objects that can be written in place.
