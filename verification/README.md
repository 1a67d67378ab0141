# A verified model of the agent runtime

The repository is an agent server. This project models the parts of it that carry the most
state, and proves what they keep:

- **Context repair and compression** (`internal/contextmgmt`). Conversations are repaired so
  that every tool call is answered, cut into rounds, and compressed to a summary and a
  verbatim tail, with a cache kept in step with a history that only grows.
- **The agent loop** (`internal/agent`). Turn by turn a provider stream is assembled into a
  message, gated, dispatched and recorded, under cancellation, hook aborts, truncation and
  context overflow, with a trace of every frame it attempts to emit.
- **Following a run** (`internal/chatapi`). A client attaches to the live log of a run and
  recovers what the live channel lost; an encoder brackets what it is sent.
- **Dreaming passes** (`internal/dreaming`). Any number of instances fold new messages into
  long-term memory under one advisory lock, a watermark per session, a token budget and
  caps per kind of memory.
- **One-time codes** (`internal/identity/otpthrottle.go`). Pruned sliding windows that must
  answer as an unpruned log would.

Each loop or object of the source that updates state is a method or class here, proved
against a specification function; the lemmas state what that function guarantees. Provider,
tools, policies, summarizer, clocks, database answers, live channel and client are inputs,
so every result holds for all of their behaviours.

Modules: `Provider` (messages and blocks), `Pairing*`, `Round*`, `Progress`, `Budget*`,
`Compress*`, `Middleware`, `OverflowProperties`, `Stream*`, `Attempts`, `ToolGate` with
`GateProperties`, `RunTrace`, `AgentLoop`, `Run*`, `WholeRun*` (the loop with its model calls
in place), `Emitter*`, `Attach*`, `Memory*`, `Dream*`, `Otp*`, and the helpers `Sets` and
`Selections`. A module named after a source file holds its operations with the functions they
are proved against. The others say what those functions mean without naming them, and what
holds across operations. `dafny verify dfyconfig.toml` checks all of them.

## Where the code and its documentation differ

- `pairing.go:12-19` calls the result normalized. It always is closed (each call answered
  once, in time), but it is left alone by a second pass only for settled lists; a call
  followed by an ordinary user message gains a message on every pass
  (`PairingProperties.OnePassEnough`, `UnsettledForever`, `InterruptedCallNeverSettles`).
- `loop.go:399-407` says repairing again on later iterations would never change anything.
  That holds exactly for settled histories when no call id is used twice
  (`RunProperties.RepairOnce`, `ReusedId`; over whole runs
  `WholeRunProperties.RepairOnceSuffices`).
- `middleware.go:411-434` keeps the cache aligned with what is sent, except when it takes a
  user message that starts with the summary marker for the summary: the message leads a view
  that the cached summary does not lead (the summarizer failed or the breaker is tripped), or
  it is the only message left (`OverflowProperties.RetryInStep`, `LookAlikeHead`,
  `MistakenUserMessage`).
- `middleware.go:435-444` records a dropped prefix; when a message that looks like a summary
  leads the view, what was dropped is not a prefix (`OverflowProperties.RetryCarried`,
  `DroppedBehindHead`).
- `loop.go:424-433` rebuilds the view without the prefix already dropped. Without a cache the
  count of dropped messages need not end between two rounds, and the next view may start with
  the answer to a call that is gone. A retry that drops an exchange with a tool behind a
  leading look-alike leaves such a count (`WholeRunCases.SplitExchange`), and so may a
  truncation recovered after a retry: `loop.go:802-843` reads the view from before the
  retries and counts a round again that one of them dropped (`WholeRunCases.DroppedTwice`).
  Otherwise the rebuilt views are well-formed (`WholeRunViews.IterationKeepsView`).
- `emitter.go:344-372` closes text and reasoning but not calls: a run that ends after a
  fragment of a call finishes with that call open (`EmitterProperties.ClientSeesBrackets`,
  `CutOffCall`).
- `emitter.go` ends a call once, but nothing stops a later fragment for the same id; that
  takes a provider that reuses an id (`EmitterProperties.CallsBracketed`, `LateFragment`).
- `attach.go:332-343` drains the queue before it reads the ring, so a queued frame that
  overtook a dropped one costs that frame although it is retained
  (`AttachProperties.DrainedIff`, `DrainOvertakes`).
- `otpthrottle.go:88-90` is never decided by its second guard
  (`OtpProperties.LengthGuardUnreachable`).
- `otpthrottle.go:80-108` forgets a failure recorded under a lock that it does not renew, once
  that lock ran out; exactly such failures make its answers differ from the log's
  (`OtpDiscipline.ExactDiscipline`, `ForgottenFailure`). No failure that directly follows an
  allowed check is one (`DirectChecksAsLogged`).
- `lock.go:67-69` says that giving up the connection releases the lock. The model lets a
  failed unlock go either way, and a failed query for the lock too. Mutual exclusion holds in
  every case, but a lock left with a pooled session is never freed while that session lives,
  and shuts every other session out (`DreamProtocol.StuckForever`, `StuckLock`).

## Model

| member | source | states |
|---|---|---|
| Pairing.RemovePending | internal/contextmgmt/pairing.go:109-117 | What is left of the pending ids is, in order, those the id does not answer |
| Pairing.KeepFresh | internal/contextmgmt/pairing.go:47-63 | An assistant message keeps everything except calls whose id was used earlier in the list or in the message; the kept calls become pending |
| Pairing.KeepAnswers | internal/contextmgmt/pairing.go:67-83 | A non-assistant message keeps everything except results that answer no pending id; an id that was answered can never be pending again |
| Pairing.EnsurePairing | internal/contextmgmt/pairing.go:20-89 | The single pass with its four running sets computes the stateless reference repair, in which each message is rewritten from the original list alone |
| Pairing.WrittenStep | internal/contextmgmt/pairing.go:28-88 | Writing off the open answers before an assistant message, after any other message, and at the end, amounts to one written-off message per message that abandons calls |
| PairingProperties.RepairCloses | internal/contextmgmt/pairing.go:12-89 | For every role-clean list the result has non-empty messages and distinct call ids, and every call is answered within the next two messages and before the next assistant message |
| PairingProperties.ClosedAnswersOnce | internal/contextmgmt/pairing.go:12-19 | In such a list each call has exactly one result in the whole list, and it stands in its window |
| PairingProperties.RepairKeepsSurvivors | internal/contextmgmt/pairing.go:46-88 | Each input message appears at its place with its role and exactly its surviving blocks in order, or the placeholder text if none survive; only duplicate calls and unasked results go |
| PairingProperties.AskedSurvive | internal/contextmgmt/pairing.go:47-61 | A call is asked for exactly when its id occurs nowhere before it |
| PairingProperties.RepairAdds | internal/contextmgmt/pairing.go:28-44 | Every message the repair adds stands right behind one that abandons calls, and there is no other addition |
| PairingAnswers.AddedExactly | internal/contextmgmt/pairing.go:28-88 | The result is what becomes of each message in turn and, right behind a message that leaves calls open, one user message that answers exactly those calls, in their order, with an error saying they were interrupted |
| PairingProperties.StrictUntouched | internal/contextmgmt/pairing.go:12-89 | A strictly paired list is returned as it is |
| PairingProperties.FixedPoints | internal/contextmgmt/pairing.go:12-89 | A role-clean list is returned as it is exactly when it is strictly paired |
| PairingProperties.OnePassEnough | internal/contextmgmt/pairing.go:83-88 | A second pass changes nothing exactly when no message that may answer leaves a call before it open |
| PairingProperties.UnsettledForever | internal/contextmgmt/pairing.go:83-88 | Otherwise each pass lengthens the list and leaves it as unsettled as before, so that no number of passes normalizes it |
| PairingProperties.InterruptedCallNeverSettles | internal/contextmgmt/pairing.go:83-88 | The smallest such list: a call followed by an ordinary user message |
| Rounds.GroupRounds | internal/contextmgmt/rounds.go:24-48 | The scan with its inner answer count computes the reference rounds, each a call with its run of answers or a single message |
| Rounds.CollectToolUseIds | internal/contextmgmt/rounds.go:51-60 | The set of non-empty call ids of a message |
| Rounds.CountAnswers | internal/contextmgmt/rounds.go:73-83 | How many of the wanted ids a result message answers |
| RoundsProperties.RoundsPartition | internal/contextmgmt/rounds.go:20-48 | The rounds of any list are contiguous, non-empty and cover it without gap or overlap |
| RoundsProperties.StrictRoundEnd | internal/contextmgmt/rounds.go:24-48 | In a well-formed list a call and its answer form one round and every other message is a round by itself |
| RoundEnds.RoundReaches | internal/contextmgmt/rounds.go:26-88 | In any list the round of an assistant message reaches exactly as far as result messages follow and fewer blocks than it has distinct non-empty call ids have answered them; every other message is a round by itself |
| RoundsProperties.BoundariesAreCuts | internal/contextmgmt/rounds.go:11-48 | The round boundaries of a well-formed list are exactly the positions where both halves are strictly paired |
| RoundsProperties.DropFront | internal/contextmgmt/rounds.go:89-98 | Dropping the oldest round of a well-formed list leaves a well-formed list that repair does not touch |
| RoundsProperties.DropSecond | internal/contextmgmt/rounds.go:106-140 | Dropping behind a leading summary keeps it, cuts at a boundary, and leaves a list that repair does not touch |
| Progress.RepairRank | internal/contextmgmt/pairing.go:20-89 | Repair changes neither the number of assistant messages nor the number of messages before the first of them, though it may lengthen the list |
| Progress.DropsMakeProgress | internal/contextmgmt/rounds.go:89-140 | On every list, each of the three drops lowers the pair (assistant messages, messages before the first one) lexicographically |
| Budget.MeasureBytes | internal/contextmgmt/compress.go:87-110 | The fingerprint loop equals the specified serialized size |
| Budget.BytesConcat | internal/contextmgmt/compress.go:87-110 | The fingerprint of a concatenation is the sum of the fingerprints, which is what lets coverage be advanced by the dropped part alone |
| Budget.EstimateTokens | internal/contextmgmt/compress.go:37-84 | The counter run over all blocks yields the specified estimate, ASCII by fours and other characters singly, rounded once per list |
| BudgetProperties.BytesAreUtf8 | internal/contextmgmt/compress.go:87-110 | The byte length of a text is the length of its UTF-8 encoding |
| BudgetProperties.FingerprintMeasures | internal/contextmgmt/compress.go:87-110 | The fingerprint of a list is the UTF-8 length of all its texts joined, plus a fixed charge per argument and for every image that is only a reference |
| BudgetProperties.TokensMeasure | internal/contextmgmt/compress.go:37-84 | The estimate of a list is a quarter of its ASCII characters and of what is charged besides text, rounded down once, plus its other characters |
| Compress.CompressionCache.Advance | internal/contextmgmt/compress.go:174-184 | Coverage and fingerprint grow by the dropped messages; an empty cache is left alone |
| Compress.CompressionCache.Invalidate | internal/contextmgmt/compress.go:186-190 | The cache is as new |
| Compress.ShrinkToBudget | internal/contextmgmt/compress.go:299-331 | On every input the loop ends with the reference shrink of the view, and the coverage moves past exactly the messages lost, if the history has that many |
| Compress.Decide | internal/contextmgmt/compress.go:223-281 | The branch taken is the one the reference plan prescribes for history, policy and cache |
| Compress.CompressWithCache | internal/contextmgmt/compress.go:223-293 | Reply, request to the summarizer and resulting cache are those of the reference step, in which a hit asks for nothing and a failed summary leaves the cache as it was; at or under the trigger, or with no more rounds than are to be kept, the history goes unchanged, nothing is asked and the cache stays |
| Compress.Install | internal/contextmgmt/compress.go:282-293 | Recording a new summary and shrinking the view that carries it matches the reference commit |
| CompressDecisions.LeftAlone | internal/contextmgmt/compress.go:223-229 | A call compresses nothing, asks nothing and leaves the cache alone unless the estimate is over the trigger and there are more rounds than are to be kept |
| CompressDecisions.SplitKeeps | internal/contextmgmt/compress.go:227-232 | Behind the split stand exactly as many rounds as are to be kept |
| CompressDecisions.AskedExactly | internal/contextmgmt/compress.go:232-281 | Over the trigger the summarizer is asked for everything before the kept rounds when the cache does not describe it, for the old summary and what came since when it does and no longer fits, and for nothing otherwise |
| CompressDecisions.Outcome | internal/contextmgmt/compress.go:232-293 | Over the trigger the reply is the cached summary with all it does not cover while that fits; otherwise the new summary, or the cached one when it covers just that part, with the kept rounds, shrunk; or the failure of the summarizer with the cache as it was |
| CompressDecisions.CrowdedLeads | internal/contextmgmt/compress.go:223-293 | Over the trigger with more rounds than are to be kept a reply is never the raw history: its first message is a user message with the summary the cache then holds |
| CompressDecisions.CrowdedCovers | internal/contextmgmt/compress.go:223-331 | On a well-formed history that reply is the summary and exactly the messages the cache does not cover, at least one being covered |
| CompressDecisions.ShrinkNeeded | internal/contextmgmt/compress.go:299-331 | The shrink drops no more than it has to: every view with an older cut is still over the trigger |
| CompressDecisions.ReadIsAsked | internal/contextmgmt/compress.go:258-281 | The messages a call is said to have read are those in the request to the summarizer |
| CompressDecisions.SummariesAre | internal/contextmgmt/compress.go:145-166 | A message counts as a summary exactly when it is a user message whose first block starts with the marker; the message made for a summary does, and the summary can be read off it |
| CompressProperties.ShrinkEnds | internal/contextmgmt/compress.go:299-331 | A view led by a summary keeps it through the shrink, and ends under the trigger or as the summary alone |
| CompressProperties.ShrinkKeepsTail | internal/contextmgmt/compress.go:299-331 | On a well-formed history the shrunk view is the summary and a later tail of the history, cut at a boundary |
| CompressProperties.CallConsistent | internal/contextmgmt/compress.go:223-331 | One call answers with the history as it stands or with the cached summary and exactly the messages the new cache does not cover, and the cache fingerprint matches the covered prefix |
| CompressProperties.HitFits | internal/contextmgmt/compress.go:247-257 | A hit asks nothing, leaves the cache alone and fits the token limit |
| CompressProperties.RestFits | internal/contextmgmt/compress.go:282-331 | Every other compressed view is under the trigger unless it is the summary alone |
| CompressRuns.RunInvariant | internal/contextmgmt/compress.go:160-331 | After any sequence of calls on a growing well-formed history, with any policies and summarizers, the covered prefix ends at a round boundary with the right fingerprint, and every covered message was either read into the summary or hard-dropped, never both |
| CompressRuns.RunReplies | internal/contextmgmt/compress.go:223-331 | Every reply of such a run is consistent with the cache it leaves |
| Middleware.CircuitBreaker.Tripped | internal/agent/middleware.go:275-280 | Tripped exactly when the last outcomes, as many as the limit, were all failures, whatever came before them |
| Middleware.CircuitBreaker.Record | internal/agent/middleware.go:283-292 | One outcome joins the record, and the count stays the length of the run of failures the record ends with |
| Middleware.CompressView | internal/agent/middleware.go:321-381 | A tripped breaker changes nothing and asks nothing; otherwise view, cache and breaker follow the reference compression, a failed summary leaving the view alone |
| CompressPolicy.PolicyShares | internal/agent/middleware.go:325-368 | View, envelope and reply share the window exactly, except that a reply or an envelope that would leave nothing is not counted; unset options become threshold 0.8, two rounds kept, three failures |
| CompressPolicy.RequestFits | internal/agent/middleware.go:321-381 | A request compression lets through fits the window together with its envelope and the reply, unless it is the summary alone or the history never had more rounds than are to be kept |
| Attempts.WrapModelCall | internal/agent/middleware.go:392-448 | Over one provider stream per try: retries follow only overflows that surfaced before any frame reached the client, never exceed the limit, stop when one round is left; every view sent is what a retry makes of the one before, books included; a success hands on exactly what the last stream amounts to |
| Middleware.ShrinkView | internal/agent/middleware.go:406-447 | One shrink extends the trail of views sent; without one a single round is left and nothing changed |
| Middleware.Rebook | internal/agent/middleware.go:418-446 | The books after a drop are those of the reference retry |
| OverflowProperties.RetryInStep | internal/agent/middleware.go:392-442 | With a cache, whatever leads the view and whatever the cache covers, a retry leaves the cache alone or keeps it in step with the view, exactly unless it takes a user message for the cached summary: a look-alike leads a view that is not led by the summary, or is the only message left behind the head |
| OverflowProperties.MistakenUserMessage | internal/agent/middleware.go:423-434 | A concrete history on which the only message left is taken for the summary and the books no longer match the view |
| OverflowProperties.LookAlikeHead | internal/agent/middleware.go:418-434 | A concrete history whose first message is a look-alike: after a failed summary a retry makes the cache cover a message it never read, and the fingerprint notices exactly when two messages differ in size |
| OverflowProperties.TrailStands | internal/agent/middleware.go:392-448 | Over all retries of a call the books are kept at every one of them exactly when none is mistaken, and then every view stands as the first did |
| OverflowProperties.RetryCarried | internal/agent/middleware.go:435-444 | Without a cache, after a retry the next rebuilt view starts with the view sent, exactly unless the drop happened behind a leading summary |
| OverflowProperties.DroppedBehindHead | internal/agent/middleware.go:435-444 | A concrete view on which the count brings back the dropped message and loses the summary |
| OverflowProperties.IterationStands | internal/agent/middleware.go:321-448 | Over compression (done, failed, or skipped by a tripped breaker) and any number of retries the books are kept exactly when no retry is mistaken, and then the cache describes a prefix of the history |
| OverflowProperties.IterationsStayAligned | internal/agent/middleware.go:321-448 | Over whole runs the cache never drifts from the history, as long as no retry takes a user message for the summary |
| OverflowProperties.RunKeepsBooks | internal/agent/middleware.go:321-448 | Over whole runs every retry keeps the books exactly when none is mistaken |
| OverflowProperties.PlainHistoryClean | internal/agent/middleware.go:392-448 | In a history without look-alikes no retry is ever mistaken |
| OverflowProperties.TrailCarried | internal/agent/middleware.go:435-444 | Without a cache, what is rebuilt next starts with what was sent, at every retry of a call, exactly when none drops behind a leading look-alike |
| StreamAssembly.Consume | internal/agent/loop.go:1015-1137 | Without a failure the message is the closed blocks in closing order and then the open ones by ascending index, each with the concatenation of its own deltas; every fragment was forwarded once in arrival order; with a failure the frames sent are those of a prefix of the stream |
| StreamAssembly.OnEvent | internal/agent/loop.go:1023-1136 | One receive is stopped exactly by a cancellation, the provider’s error, a second start on an open index, a fragment without an open block, or a fragment the client does not get |
| StreamBlocks.MessageCarries | internal/agent/loop.go:1043-1166 | The blocks of the message are the started blocks, each once: a text or thinking block carries its fragments joined, a signature its own fragments or the one it started with, a call the arguments its fragments decode to, or an error mark when they do not decode |
| StreamBlocks.CallsAreBlocks | internal/agent/loop.go:1143-1166 | The calls are, in order, the tool_use blocks with their id, name, arguments and error mark |
| StreamBlocks.FragmentInPlace | internal/agent/loop.go:1572-1587 | A fragment stands in its block between those that came before it and those that came after |
| StreamFrames.FramesInOrder | internal/agent/loop.go:1069-1111 | Of text, thinking and arguments the client is sent exactly one frame for every event that brings something of it, in order, with the event’s own fragment and, for a call, the id and name of its block |
| StreamBlocks.TextIsShown | internal/agent/loop.go:1090-1112 | What a client is shown of a stream’s text is the text of its block |
| StreamBlocks.Announcements | internal/agent/loop.go:1143-1166 | Each finished call is announced once, in order, with its id, name and decoded arguments |
| StreamAssembly.OnStart | internal/agent/loop.go:1054-1076 | Opening a block at a free index keeps the accumulators equal to the open blocks and their deltas; a second start on an open index is refused |
| StreamAssembly.OnDelta | internal/agent/loop.go:1078-1111 | A fragment goes to its own block and out to the client once; one without an open block is refused |
| StreamAssembly.OnStop | internal/agent/loop.go:1113-1121 | Closing a block finalizes exactly its own deltas and frees the index |
| StreamAssembly.Close | internal/agent/loop.go:1028-1047 | The blocks still open when the stream ends are finished once each, by ascending index |
| StreamAssembly.AppendBlock | internal/agent/loop.go:1143-1166 | A finished block joins the message, and the calls if it is one, together with its announcement |
| StreamAssembly.SortedKeys | internal/agent/loop.go:1035-1042 | All open indices, strictly ascending |
| StreamProperties.FragmentsConserved | internal/agent/loop.go:1078-1111 | All fragments of an index, joined in arrival order, are the contents of its blocks one after the other |
| StreamProperties.MessageHasEveryBlock | internal/agent/loop.go:1015-1137 | The blocks of the message are the started blocks, each exactly once and whole, closed by the stream or not |
| StreamProperties.CallsMatchBlocks | internal/agent/loop.go:1143-1166 | The calls are exactly the tool_use blocks of the message, in order |
| StreamProperties.UsageNeverShrinks | internal/agent/loop.go:995-1008 | No later usage report lowers any count |
| StreamBlocks.UsageWasReported | internal/agent/loop.go:995-1008 | Every count of the usage is one that some report gave |
| StreamProperties.StopIsLastReported | internal/agent/loop.go:1123-1130 | The stop reason is the last non-empty one |
| Attempts.RealAttempt | internal/agent/loop.go:896-914 | An attempt succeeds exactly when nothing stopped the reader, and is an overflow exactly when the provider’s own error stopped it and is one; a failure is marked mid-stream exactly when some frame of it reached the client; a success hands on exactly what the stream amounts to |
| Attempts.ReportedExactly | internal/agent/loop.go:896-914 | An attempt on a stream succeeds exactly when nothing stops the reader, and is an overflow exactly when the provider’s error stops it first and is one |
| Attempts.Tracked | internal/agent/loop.go:917-930 | The tracker is set exactly when some frame went through |
| Attempts.OneStreamDelivers | internal/agent/middleware.go:392-405 | Within one model call, if a stream reached the client it is the last one |
| ToolGate.InteractionGate | internal/agent/loop.go:1178-1216 | The gated calls are, in order, exactly the parsed and valid ones that are ask_user, client-side, or refused for approval |
| ToolGate.Dispatch | internal/agent/loop.go:1228-1283 | Each result stands at its call’s index, and the executed calls are exactly those that pass the screen |
| GateProperties.ExecutedExactly | internal/agent/loop.go:1228-1283 | The executed calls are exactly the permitted ones of the batch, in order: parsed, registered, not denied, and with a schema that accepts their arguments less the description; each runs with its own id and name and with exactly its other arguments, in order and each once |
| GateProperties.Stripped | internal/agent/loop.go:349-363 | What a tool gets are the entries under other keys than the description, in order and each once |
| GateProperties.NothingToStrip | internal/agent/loop.go:349-363 | Arguments without that key stay as they are |
| GateProperties.ResultIs | internal/agent/loop.go:1228-1304 | A permitted call is answered with what its execution gave, any other with a non-empty error |
| GateProperties.RefusalSays | internal/agent/loop.go:1236-1264 | A refusal names the parse error, the unknown tool or the policy’s reason |
| GateProperties.GatedExactly | internal/agent/loop.go:1178-1216 | The interactions are exactly the calls that wait for the client, in order, each with its kind, id, name, input and batch |
| ToolGate.UngatedBatch | internal/agent/loop.go:1178-1283 | In a batch with nothing gated only registered, server-side, valid and permitted calls execute |
| ToolGate.NoApprovalRefused | internal/agent/loop.go:1256-1264 | In such a batch no call is refused for an approval reason |
| AgentLoop.Run | internal/agent/loop.go:388-715 | Every run ends with one terminal frame after one AfterRun pass and a finished step; what was produced equals the recorded messages with every call answered in order by the next message (except a last message left to the client); frame usage sums to the run’s; at most one recovery; and the run took exactly the turns the reference decision prescribes |
| AgentLoop.Iterate | internal/agent/loop.go:410-707 | One turn leads where the reference decision says, adds exactly its messages and executions, and keeps the run’s invariant |
| AgentLoop.CallModel | internal/agent/loop.go:448-506 | A failed attempt ends the run, as cancelled if the run was; otherwise its result is handled |
| AgentLoop.HandleResult | internal/agent/loop.go:457-507 | Usage is counted before anything can be thrown away; an empty response fails the run, a recoverable truncation is never recorded |
| AgentLoop.RecoverTruncation | internal/agent/loop.go:488-506 | A recoverable truncation is retried exactly when none was before and a round can be dropped; nothing is recorded of it either way |
| AgentLoop.AfterMessage | internal/agent/loop.go:507-592 | A hook abort after the message still answers its calls; otherwise the turn goes by whether it has calls |
| AgentLoop.FinalTurn | internal/agent/loop.go:551-592 | A turn without calls completes exactly on a natural end or a genuine output limit |
| AgentLoop.BatchTurn | internal/agent/loop.go:601-706 | A batch is executed only when uncut and ungated; in every other case each call gets an answer saying why, unless the client is to answer |
| AgentLoop.Suspend | internal/agent/loop.go:671-702 | The run ends on exactly the gated calls, one interrupt each, or fails with the batch answered when an interrupt is lost |
| AgentLoop.RecordToolResults | internal/agent/loop.go:1363-1385 | Result frames go out call by call, and the message recorded is a user message with one block per call: its id, the error flag and the content of its result, or "(no output)" exactly when that is empty; so every call of the record is answered again |
| AgentLoop.Exchange | internal/agent/loop.go:1532-1549 | Appending the result message of a batch restores the rule that the next message answers all calls of the one before |
| RunDecisions.GoesOnExactly | internal/agent/loop.go:457-706 | A run goes on exactly after a first truncation by the context that leaves a round to drop, after a batch that ran, and after one that was cut and is to be issued again |
| RunDecisions.SucceedsExactly | internal/agent/loop.go:551-702 | It completes exactly with an answer without calls that is finished, and awaits the client exactly when a call of a whole batch does and every interrupt got through |
| RunDecisions.CancelsExactly | internal/agent/loop.go:410-706 | It is cancelled exactly when the cancellation was seen between steps, in the model call, or after an answer that did not fail by itself |
| RunDecisions.FailsExactly | internal/agent/loop.go:430-706 | Each way to fail has its exact condition on what the turn brought |
| RunDecisions.RecordsExactly | internal/agent/loop.go:457-706 | Unless the answer is one to act on a turn records and executes nothing; then it records the model’s filled blocks in order, and right behind them the answers to its calls, unless there are none or they are left to the client |
| RunDecisions.StepTold | internal/agent/loop.go:601-706 | A step that another follows ends with its turn’s usage and says why: its calls ran, the limit cut it, or its answer was not a whole one |
| RunDecisions.ViewShows | internal/agent/loop.go:424-437 | The view of an iteration is the conversation without the front that was dropped, and the injected messages of that iteration behind it |
| RunResults.BatchAnswered | internal/agent/loop.go:1465-1549 | The calls of a turn are left to the client, or answered one by one: a call that ran with its own result, any other with an error saying it was not executed |
| RunResults.RefusalsTold | internal/agent/loop.go:1390-1530 | Every call of a batch that did not run is told the same, and which reason it was |
| RunResults.TurnExecutes | internal/agent/loop.go:1178-1283 | What a turn executes are exactly the permitted calls of a batch that runs |
| RunResults.EmptyBlocksGo | internal/agent/loop.go:1459-1486 | The recorded message has exactly the blocks that say something, in order |
| RunResults.RunAccounts | internal/agent/loop.go:457-462 | The usage of a run is the sum of what its turns were charged, thrown away or not, and one step was opened per turn after the first that was not cancelled before it began |
| RunResults.OutcomeTold | internal/agent/loop.go:717-758 | The terminal frame tells how the run ended, and the reason of the last step why |
| RunResults.CompletedMeans | internal/agent/loop.go:551-592 | A completed run ends with a message without calls, at a natural end or with the allowed output used up |
| AgentLoop.DropEmptyKeepsCalls | internal/agent/loop.go:1465-1486 | Dropping empty blocks never drops a call, and never empties a message that has one |
| RunTrace.OneTerminal | internal/agent/loop.go:717-758 | In a trace with one terminal frame, at its end, no other frame is terminal |
| RunTrace.StepsClosed | internal/agent/loop.go:418-422 | In a bracketed trace every started step is finished before the next start or the end |
| RunTrace.CountsAre | internal/agent/loop.go:717-758 | The tally of a trace counts its steps, passes, recoveries and terminal frames |
| RunTrace.BookedIsSum | internal/agent/loop.go:457-462 | The usage booked is the sum over the frames that carry one |
| RunTrace.ResultsAgree | internal/agent/loop.go:1363-1385 | Every message of results a run records shows, block by block, exactly the results streamed to the client since the one before |
| RunProperties.ClientView | internal/agent/loop.go:410-758 | Both for every ended run |
| RunProperties.RepairOnce | internal/agent/loop.go:399-433 | Repairing only the history at the start gives the same views as repairing again exactly when the history is settled and no call id is used twice |
| RunProperties.ReusedId | internal/agent/loop.go:399-407 | The smallest run on a settled history that a second repair changes: a provider that reuses a call id |
| RunProperties.RecoveredViewCarried | internal/agent/loop.go:802-843 | After a recovered truncation without retries the next view is the shrunk view and what was produced since, exactly unless a look-alike led the view and kept its place, or had the drop booked on a cache |
| WholeRun.MakeCall | internal/agent/middleware.go:321-448 | One model call through the whole chain: what compression hands on is tried with ever smaller views, and result and books are those of the last try |
| WholeRun.Run | internal/agent/loop.go:388-715 | The loop over real model calls takes the course the reference prescribes for the turns those calls amount to, and ends as every run does; once the breaker is tripped it stays so |
| WholeRunProperties.RunReached | internal/agent/loop.go:410-715 | The states of every run are reached one by one, each turn growing the record and the executions by its effect |
| WholeRunProperties.RepairOnceSuffices | internal/agent/loop.go:399-433 | At the start of every iteration of every run over real streams the once repaired history and the record need no repair, exactly when the history was settled and no call id is used twice |
| WholeRunProperties.ExecutedWasAnnounced | internal/agent/loop.go:896-1283 | Whatever a run executes was announced by a stream that was read to its end, and no other stream of that model call reached the client |
| WholeRunResults.ResultsAreTrue | internal/agent/loop.go:1228-1549 | At every moment of a run each result of the record is what an execution of its call gave, or an error, and every execution is shown by the record |
| WholeRunResults.ExecutedAsStreamed | internal/agent/loop.go:896-1304 | Whatever a run executes has the id and name of a block that was streamed, and the arguments its fragments decode to less the description; no call executes whose arguments do not decode |
| WholeRunResults.TurnIsStream | internal/agent/loop.go:896-914 | A turn has a result exactly when the last stream of its call was read to its end, and then it is that stream’s: blocks, calls, last stop reason and merged usage |
| WholeRunResults.FirstIs | internal/agent/middleware.go:321-381 | The first view sent is the one the loop built when nothing compresses, the breaker is tripped or the summarizer failed, with the cache as it was; otherwise what compression made of it |
| WholeRunProperties.RunKeepsCache | internal/agent/middleware.go:321-448 | Through any run with compression that has not recovered a truncation, the cache describes a prefix of the conversation at the start of every iteration and no message was dropped from it, as long as no retry takes a user message for the summary; a run that finds the breaker tripped never has a cache, and every call of it sends uncompressed views |
| WholeRunViews.IterationKeepsView | internal/agent/loop.go:424-506 | Without compression the loop goes on rebuilding what a cut leaves of the conversation exactly when what the iteration drops in all is sound: a recovered truncation must cut the view sent last between its messages, and without one the last retry must not drop an exchange with a tool behind a leading look-alike |
| WholeRunViews.RunKeepsView | internal/agent/loop.go:424-506 | Over whole runs without compression every rebuilt view is well-formed and a tail of the conversation, as long as what each iteration drops, by its retries and its recovery, is sound in that sense |
| WholeRunCases.DroppedTwice | internal/agent/loop.go:802-843 | A concrete run whose next request starts with the answer to a call that is gone: a retry dropped the oldest round, and the recovery in the same iteration counts it again |
| WholeRunCases.SplitExchange | internal/agent/middleware.go:404-446 | A concrete run on which that happens without a recovery: a retry drops an exchange with a tool behind a leading look-alike, and the count it keeps ends between the call and its answer |
| WholeRunViews.RetryShaped | internal/agent/middleware.go:404-446 | Without a cache every view sent has as many messages as the books leave and ends like the conversation behind its head; a retry makes the count end inside an exchange exactly when it drops one behind a look-alike |
| WholeRunViews.OldestCuts | internal/agent/loop.go:813-843 | A recovery fits whenever the call had no retry and no look-alike leads the view |
| Emitter.SseEmitter.Write | internal/chatapi/emitter.go:394-418 | What reached the client is what was intended up to the write that fails, and the failure is latched exactly when that write was made |
| Emitter.SseEmitter.Emit | internal/chatapi/emitter.go:138-329 | Each event is encoded as the reference says, unless the context is done or a write failed, in which case nothing changes |
| Emitter.SseEmitter.WriteToolCallStart | internal/chatapi/emitter.go:379-392 | A non-empty id is started once |
| Emitter.SseEmitter.EmitCall | internal/chatapi/emitter.go:194-230 | Fragments and the finished call write the reference frames |
| Emitter.SseEmitter.FinishWithReason | internal/chatapi/emitter.go:344-372 | Open blocks are ended, then the finish frame with the resolved reason and the stashed usage, then the end of stream |
| EmitterProperties.ClientSeesBrackets | internal/chatapi/emitter.go:138-418 | For every event sequence and every point at which writing stops, what the client got is well bracketed; the whole stream ends with text and reasoning closed, and with every started call ended exactly when every call that a fragment opened is finished by a later event |
| EmitterProperties.CutOffCall | internal/chatapi/emitter.go:344-372 | The smallest run that leaves a call open at its finish frame: it ends after a fragment |
| EmitterProperties.OpenCalls | internal/chatapi/emitter.go:194-230 | After any events the calls started are the calls ended exactly when each call opened by a fragment is finished later |
| EmitterPayloads.Drive | internal/chatapi/emitter.go:138-418 | The emitter itself, told any events with the run cancelled at any point and any write failing, takes exactly the events before the cancellation up to the one whose frames contain the failing write, and leaves the client with the reference stream for them, well bracketed and cut at that write; what reads back from it is a prefix of those events |
| EmitterPayloads.EventsReadBack | internal/chatapi/emitter.go:138-332 | From a whole stream every event but those about a call’s arguments reads back with its payload, in order: texts, results with their error flags, error texts, steps with their counts; from a cut stream a prefix of them |
| EmitterPayloads.TextIsWhole | internal/chatapi/emitter.go:147-171 | The text the client gets is the deltas of the text events joined, and the reasoning that of the thinking events |
| EmitterPayloads.FinishFrame | internal/chatapi/emitter.go:298-377 | The finish frame has the counts of the last usage event, and the reason given, else that of the last failure or cancellation, else "stop" |
| EmitterPayloads.ErrorsAreFailures | internal/chatapi/emitter.go:298-316 | An error text and a failed status go out together, and only for an error event |
| EmitterPayloads.CallsAreNamed | internal/chatapi/emitter.go:194-230 | A call is opened with the id and name of the first event that mentions it |
| EmitterProperties.PanicsExactly | internal/chatapi/emitter.go:194-206 | No event writes to a map that was not made exactly when every fragment for an empty id comes after a call was opened |
| EmitterProperties.CallsBracketed | internal/chatapi/emitter.go:194-230 | No fragment or end of a call follows its end exactly when no event comes after the call was finished |
| EmitterProperties.LateFragment | internal/chatapi/emitter.go:194-230 | The smallest event sequence that breaks it |
| EmitterProperties.FailureNotStop | internal/chatapi/emitter.go:298-329 | A run that reported an error or a cancellation never finishes as "stop" |
| StreamedArguments.EncodeContributes | internal/chatapi/emitter.go:194-230 | What one event adds to a call’s arguments on the wire: a fragment, or the whole input if no fragment went before |
| StreamedArguments.ArgumentsSoFar | internal/agent/loop.go:1064-1116 | While a call’s block is open the client has exactly its fragments so far; once it is closed, its whole arguments |
| StreamedArguments.ArgumentsOnce | internal/agent/loop.go:1064-1107 | For a whole stream in which one block has the id, the client receives the call’s arguments exactly once, however the blocks interleave; an empty id must not meet an emitter without maps |
| StreamedArguments.WholeStreamFinishes | internal/agent/loop.go:1028-1047 | A stream that is read to its end leaves no call open at the client |
| Attach.Attach | internal/chatapi/attach.go:50-224 | Whatever the live channel drops, repeats or reorders, the frames given are exactly the run-scoped log frames in (after, max] outside the recorded holes; with everything retained following leaves no hole and the drain exactly those its queue skipped; the stream settles at the first step that settles it |
| Attach.Follow | internal/chatapi/attach.go:143-223 | The same for the select loop alone |
| Attach.OnFrame | internal/chatapi/attach.go:198-222 | A stale or foreign frame changes nothing; a new one is preceded by every retained frame of the run it would overtake, so a read that works leaves no hole |
| Attach.FillGap | internal/chatapi/attach.go:247-262 | Exactly the retained frames of the run strictly between the two offsets, or none when the read fails |
| Attach.CatchUp | internal/chatapi/attach.go:90-100 | Everything retained after the start is given; a failed read costs nothing, because a later gap read covers it |
| Attach.DrainContent | internal/chatapi/attach.go:344-373 | The queued frames that are new, then the ring: holes are exactly what the queue skips, unless the ring lost more |
| Attach.DrainLifecycle | internal/chatapi/attach.go:306-321 | The run’s own lifecycle events in order |
| Attach.Settle | internal/chatapi/attach.go:273-297 | Content and lifecycle are drained before the reason is decided, so a failure still queued is not reported as success |
| Attach.Take | internal/chatapi/attach.go:90-100 | The new frames of the run from an ordered list, and the last offset |
| AttachProperties.CompleteIff | internal/chatapi/attach.go:90-222 | The client missed nothing exactly when no frame of the run lies in a hole |
| AttachProperties.OnceAscending | internal/chatapi/attach.go:90-373 | Each frame at most once, strictly ascending, under any losses, failures, evictions and drains |
| AttachProperties.FollowingComplete | internal/chatapi/attach.go:198-222 | While following with everything retained the client has every frame of the run up to its offset |
| AttachProperties.DrainedIff | internal/chatapi/attach.go:344-373 | With everything retained, a finished attach delivered every frame of the run in the whole log exactly when no queued frame overtook a dropped one and no frame lies beyond the queue where the drain does not look: the channel was closed, the last read failed, or the frame came after it |
| AttachProperties.DrainOvertakes | internal/chatapi/attach.go:344-373 | An attach that ends without a frame the broker still holds, so that the client never sees its text: a queued frame overtook it |
| AttachProperties.Resumes | internal/chatapi/attach.go:90-100 | Continuing at the last offset neither loses nor repeats a frame |
| AttachProperties.FinishTells | internal/chatapi/attach.go:264-297 | The stream finishes "stop" exactly when it carried no error or cancellation and the run is not known to have failed or been cancelled |
| AttachProperties.AttachedBrackets | internal/chatapi/attach.go:50-297 | The attached stream is well bracketed wherever writing stopped; whole, it ends with text and reasoning closed, and with every started call ended exactly when every opened call is finished |
| AttachProperties.FollowingKeepsUp | internal/chatapi/attach.go:182-222 | A following client stands where it had caught up to, or at the newest frame of the run the channel delivered, whichever is later |
| AttachProperties.CatchesUpTo | internal/chatapi/attach.go:85-100 | Catching up reaches every frame of the run the ring still holds |
| AttachProperties.LossesHaveCause | internal/chatapi/attach.go:85-373 | A frame of the run that a subscribed client was passed by without was not to be had when the ring was read, at the start, for the gap before a live frame or in the final drain, or was overtaken in the queue that is drained |
| AttachTexts.EventsAreTold | internal/chatapi/attach.go:90-373 | The emitter is told the events of the delivered frames in log order and the run’s lifecycle events in theirs |
| AttachTexts.AttachedText | internal/chatapi/attach.go:90-373 | The text an attached client gets is that of the delivered frames, in log order |
| AttachTexts.SharedFrames | internal/chatapi/attach.go:322-331 | A client gets the frames of its run and those of no run, and no others |
| AttachTexts.TerminalNoteTells | internal/chatapi/attach.go:226-236 | A lifecycle event ends the run exactly when it reports completion, an error or a cancellation |
| AttachTexts.OwnAre | internal/chatapi/attach.go:306-322 | Of the lifecycle events buffered at the end exactly the run’s own are shown, in order |
| AttachTexts.HeardAre | internal/chatapi/attach.go:185-198 | The same of those that come while following |
| AttachTexts.StatusTells | internal/chatapi/attach.go:273-297 | Without a failure among what was told the run’s status decides how the stream finishes: failed as error, cancelled as other, anything else as stop |
| MemoryCaps.OverCap | internal/dreaming/caps.go:89-116 | As many as the pool is over its limit, each older by (creation time, id) than every member that stays |
| MemoryCaps.LiveOf | internal/dreaming/caps.go:118-127 | Exactly the memories that are not deprecated |
| MemoryCaps.EvictPool | internal/dreaming/worker.go:495-502 | The oldest of one pool are deprecated and counted, or, when a call fails, some of them |
| MemoryCaps.EnforceCaps | internal/dreaming/worker.go:482-505 | On success exactly the oldest over-cap members of every pool are deprecated; on failure only some of those |
| MemoryCaps.CapsHold | internal/dreaming/worker.go:482-505 | Every pool then holds the minimum of what it held and its cap, its survivors are newer than what went, and no other memory or pool changed |
| MemoryCaps.CapsSettled | internal/dreaming/worker.go:482-505 | A second enforcement evicts nothing |
| MemoryCaps.EvictionDetermined | internal/dreaming/caps.go:106-115 | The evicted set depends on the store alone, not on the order it is listed in |
| MemoryEvictions.EvictionsMean | internal/dreaming/caps.go:39-116 | A successful enforcement leaves of summaries, of insights and of all other memories as many live ones as there were or the cap allows; what it retires was created before all that stay, smaller ids first among equal times; nothing but deprecation happens to the store |
| DreamWorker.ProcessSession | internal/dreaming/worker.go:308-357 | The stages run are the longest affordable prefix, each after the success of the one before |
| DreamWorker.FoldedMeans | internal/dreaming/worker.go:308-357 | A batch is folded in without error exactly when extract and compress left allowance and no stage nor the caps failed; otherwise it failed or ran out |
| DreamWorker.VisitSession | internal/dreaming/worker.go:243-284 | One session moves the pass as the reference says |
| DreamWorker.RunOver | internal/dreaming/worker.go:240-288 | The loop with its early exits equals the fold over all pending sessions |
| DreamWorker.RunForUser | internal/dreaming/worker.go:202-237 | The store is reviewed exactly when the pass did not fail and no listed session had messages; the caps are then enforced unless the review failed, and either failure is reported; every call is made under the budget |
| DreamWorker.PassWithinBudget | internal/dreaming/worker.go:240-357 | Every model call of a pass starts with budget left, within a batch too |
| DreamWorker.NothingLost | internal/dreaming/worker.go:240-288 | A pass that neither failed nor reported exhaustion folded in every pending batch |
| DreamWorker.VisitMarks | internal/dreaming/worker.go:266-283 | A watermark moves only for a batch that went through all stages and the caps without an error |
| DreamPasses.PassFolds | internal/dreaming/worker.go:240-357 | A pass folds in exactly the sessions it comes to with allowance for all their stages and nothing going wrong, in order; it goes on past a session exactly when budget was left for it and nothing broke; each adds what its stages take |
| DreamPasses.PassReports | internal/dreaming/worker.go:240-288 | A pass fails exactly when something broke at a session it came to, and reports exhaustion exactly when a session was left for lack of budget or allowance |
| DreamLock.PGAdvisoryLock.TryAcquire | internal/dreaming/lock.go:44-65 | Granted when free or held by the same session; a refusal leaves no connection behind; a query that fails leaves the lock as it was, or with the pooled session when the server had granted it |
| DreamLock.PGAdvisoryLock.Release | internal/dreaming/lock.go:70-82 | The connection is given up in every case, and the lock as often as it was taken through it, unless the unlock fails on a live session |
| DreamLock.Runner.Begin | internal/dreaming/runner.go:214-224 | Granted exactly when no pass is claimed |
| DreamLock.Runner.ClaimCrossInstance | internal/dreaming/runner.go:229-242 | Without the cross-instance lock the claim is undone |
| DreamLock.Runner.Abort | internal/dreaming/runner.go:247-253 | The claim is given up and no outcome recorded |
| DreamLock.Runner.Finish | internal/dreaming/runner.go:258-277 | The outcome is recorded under its owner with claim and lock given up |
| DreamProtocol.ExclusionStep | internal/dreaming/runner.go:139-193 | Every step of every thread keeps: one claim per instance, and a thread in its pass holds the advisory lock through its own instance’s connection |
| DreamProtocol.AtMostOnePass | internal/dreaming/lock.go:15-29 | Over any number of instances and threads and any interleaving, at most one pass is in flight |
| DreamProtocol.ConsistentStep | internal/dreaming/worker.go:240-284 | Every step also keeps the watermarks, what running passes have read, and the batches in agreement |
| DreamProtocol.FoldedOnce | internal/dreaming/worker.go:264-283 | The batches that moved a watermark are consecutive intervals that went through every stage, and together hold every message up to it exactly once, in order |
| DreamProtocol.WatermarkRises | internal/dreaming/worker.go:279-283 | No step lowers a watermark |
| DreamProtocol.StuckLock | internal/dreaming/lock.go:67-82 | If a failed unlock leaves the lock with a live session, only that session can take it again |
| DreamProtocol.StuckForever | internal/dreaming/lock.go:44-82 | A lock left with a live session, by a failed unlock or a grant nobody heard of, is never freed again: later passes give back only what they took, and ever after every pass of every instance runs on that session |
| DreamProtocol.LeftStep | internal/dreaming/lock.go:44-82 | No step of any thread takes a lock left behind away from its session |
| DreamProtocol.UnheardGrant | internal/dreaming/lock.go:52-56 | A grant whose answer is lost leaves the lock with the session that went back to the pool |
| DreamProgress.StartClaims | internal/dreaming/runner.go:213-227 | A trigger claims its instance’s runner exactly when no pass has it, and touches nothing else |
| DreamProgress.LockGranted | internal/dreaming/lock.go:44-66 | A session is granted the lock exactly when nobody or itself holds it; whoever is refused or fails leaves it alone, unless it was granted unheard |
| DreamProgress.WorkFolds | internal/dreaming/worker.go:243-288 | A batch is folded in and its watermark moved to its last message exactly when the allowance covers its stages and nothing fails; otherwise no watermark moves |
| DreamProgress.ReadsTheRest | internal/dreaming/worker.go:248-256 | A pass reads exactly the messages of a session that no batch holds yet |
| DreamProgress.PassEnds | internal/dreaming/runner.go:258-290 | A pass that ends gives lock and runner back and leaves its outcome with its owner and nobody else |
| DreamProgress.PassCompletes | internal/dreaming/runner.go:131-290 | Whatever happened before, an instance that is idle while the lock is free can run a pass that brings every session it lists up to date, records its success and leaves instance and lock free |
| OtpThrottle.OTPThrottler.CheckVerify | internal/identity/otpthrottle.go:75-92 | Answer and pruned state are those of the specification |
| OtpThrottle.OTPThrottler.FailVerify | internal/identity/otpthrottle.go:95-108 | A recorded failure locks the key when it completes a set; a refused one changes nothing but what was swept |
| OtpThrottle.OTPThrottler.SuccessVerify | internal/identity/otpthrottle.go:111-117 | The key’s history and lock are gone |
| OtpThrottle.OTPThrottler.AllowSend | internal/identity/otpthrottle.go:121-134 | Allowed exactly when both windows are below their quotas |
| OtpThrottle.OTPThrottler.RecordSend | internal/identity/otpthrottle.go:137-147 | Phone and address are each recorded where admitted |
| OtpThrottle.OTPThrottler.AdmitKey | internal/identity/otpthrottle.go:190-199 | A key may grow its map only below the cap or after a sweep, unless it is tracked |
| OtpThrottle.OTPThrottler.SweepAll | internal/identity/otpthrottle.go:168-184 | All four maps lose exactly their expired entries, and expired locks take their history along |
| OtpThrottle.Prune | internal/identity/otpthrottle.go:151-164 | One key keeps exactly its entries inside the window |
| OtpProperties.Bounded | internal/identity/otpthrottle.go:149-199 | With a monotone clock no map ever exceeds the key cap and every locked key is tracked |
| OtpProperties.LengthGuardUnreachable | internal/identity/otpthrottle.go:87-91 | After any run the second guard of CheckVerify never decides: the lock always does |
| OtpProperties.SendsAsLogged | internal/identity/otpthrottle.go:121-147 | AllowSend answers as counting the unpruned log of recorded sends would |
| OtpProperties.ChecksAsLogged | internal/identity/otpthrottle.go:75-117 | When every failure finds no lock on its key or completes a set, CheckVerify answers, to the second, as the unpruned log of failures would: locked after any failure that made a full set |
| OtpWindows.WindowHolds | internal/identity/otpthrottle.go:149-166 | A window holds exactly the entries made within its time, in order |
| OtpWindows.SendsInNumbers | internal/identity/otpthrottle.go:121-147 | A code may be sent exactly when fewer than ten recorded sends went to the phone and fewer than thirty came from the address in the last 24 hours |
| OtpWindows.ChecksInNumbers | internal/identity/otpthrottle.go:75-117 | On a disciplined run a check is refused exactly during the fifteen minutes after the last failure that was the fifth within fifteen minutes, and says for how much longer |
| OtpWindows.AdmitsExactly | internal/identity/otpthrottle.go:168-199 | Below the cap every key is admitted; at the cap what left its window goes first, and a key is admitted exactly when it is still tracked or the sweep made room |
| OtpDiscipline.DirectChecksAsLogged | internal/identity/otpthrottle.go:73-117 | When each failure directly follows an allowed check of its key, no failure is ever forgotten and every check is answered as the unpruned log would |
| OtpDiscipline.ExactDiscipline | internal/identity/otpthrottle.go:73-117 | The condition is exact: at every moment of a run all checks are and stay answered as logged, whatever safe calls follow, exactly when every failure found no lock or completed a set |
| OtpDiscipline.UnsafeForgets | internal/identity/otpthrottle.go:80-108 | Any other failure is forgotten: when its lock ran out, one check and enough safe failures leave the key open although the log locks it |
| OtpDiscipline.ForgottenFailure | internal/identity/otpthrottle.go:80-86 | A concrete run: a sixth failure under the lock, then a check and four more failures after it ran out leave the key open with five failures in the window |
| Pairing.AssistantTurn | internal/contextmgmt/pairing.go:47-65 | The assistant branch keeps the loop in the state the reference prescribes after the message |
| Pairing.OtherTurn | internal/contextmgmt/pairing.go:67-85 | So does the branch for every other message |
| Rounds.FindEnd | internal/contextmgmt/rounds.go:29-43 | A round ends where the following results have answered all its calls, or stop being results |
| Budget.TokenCounter.Add | internal/contextmgmt/compress.go:37-45 | Each character is counted once, as ASCII or not |
| Budget.TokenCounter.AddBlock | internal/contextmgmt/compress.go:54-72 | Every text a block carries is counted, with the overhead of inputs and images |
| StreamAssembly.OnOther | internal/agent/loop.go:1123-1133 | Stop metadata changes neither open blocks nor content |
| StreamAssembly.FinishOpen | internal/agent/loop.go:1038-1046 | Each open block is finalized with exactly its own deltas |
| StreamAssembly.AppendBlocks | internal/agent/loop.go:1043-1046 | Blocks are appended in order, calls and announcements with them |
| AgentLoop.FailWith | internal/agent/loop.go:726-738 | A failure exit ends the run with a finished step, one AfterRun pass and the error frame, adding no message |
| AgentLoop.ReissueBatch | internal/agent/loop.go:1363-1385 | A batch that is not executed is answered call by call, and the run goes on |
| AgentLoop.EmitInterrupts | internal/agent/loop.go:694-699 | One interrupt per gated call in order; it fails exactly when one of them is lost |
| AgentLoop.AwaitClient | internal/agent/loop.go:700-702 | The run ends successfully, awaiting exactly the gated calls |
| AgentLoop.AbandonBatch | internal/agent/loop.go:695-698 | A lost interrupt fails the run with its whole batch answered |
| AgentLoop.RunBatch | internal/agent/loop.go:705-706 | Exactly the permitted calls of an ungated batch run, and their results answer it index for index |
| AgentLoop.RunOut | internal/agent/loop.go:713-714 | Using up the turns ends the run as a failure and adds nothing |
| AgentLoop.TakeTurn | internal/agent/loop.go:410-707 | A turn extends the course of the run, or ends it |
| AgentLoop.RunTurns | internal/agent/loop.go:410-707 | The turns are taken one after the other until one leaves the loop or none is left |
| Emitter.SseEmitter.EndThinking | internal/chatapi/emitter.go:162-165 | An open reasoning block is ended, once |
| Emitter.SseEmitter.EmitDelta | internal/chatapi/emitter.go:153-172 | Text and reasoning fragments open their block first; text ends reasoning |
| Emitter.SseEmitter.EmitError | internal/chatapi/emitter.go:298-310 | The failure is latched as a truncation exactly after a final length step |
| Emitter.SseEmitter.EmitCancelled | internal/chatapi/emitter.go:311-326 | Open blocks are ended before the run is reported cancelled |
| Emitter.SseEmitter.EmitOther | internal/chatapi/emitter.go:148-297 | Every other event writes its frame and touches no block |
| Attach.Begin | internal/chatapi/attach.go:78-100 | After replay and catch-up the client stands where the reference says, having heard the whole lifecycle so far |
| Attach.OnStep | internal/chatapi/attach.go:185-222 | A step that does not settle the stream passes on the run’s own events and frames, and nothing of other runs |
| Attach.Finish | internal/chatapi/attach.go:181-184 | Settling drains both channels and decides the reason |
| MemoryCaps.DeprecateAll | internal/dreaming/worker.go:495-502 | The listed memories are deprecated in order and counted, up to the first failure |
| MemoryCaps.MemoryPort.Deprecate | internal/memory/port.go:83-84 | One memory stops being live, nothing else changes |
| DreamLock.Database.TryAdvisoryLock | internal/dreaming/lock.go:54-62 | The lock has one holder at a time, and its holder takes it once more |
| DreamLock.Database.AdvisoryUnlock | internal/dreaming/lock.go:76-80 | Only the holder can give the lock up, as often as it took it |
| OtpThrottle.Sweep | internal/identity/otpthrottle.go:168-171 | Every key keeps exactly its recent entries, in whatever order the map is walked |
| OtpThrottle.DropExpired | internal/identity/otpthrottle.go:172-177 | Exactly the expired locks go, with what was counted for them |

## Left out

- Tool inputs are lists of (key, encoded value) pairs: the iteration order of Go maps, and the encoding itself, are not part of this model.
- The compression threshold is a real number; floating-point rounding is not modelled.
- Tool messages' media, generative UI payloads, subagent and session-state payloads: carried as opaque data or not at all.
- Texts of error results are shortened; they differ per cause as in the source, but not word for word.
- Memory injection, the vision gate and image materialization: extra messages of one iteration's view are an input of the turn; materialized images would change fingerprints.
- WholeRunProperties.RepairOnceSuffices: providers stream no tool_result blocks.
- Compression disabled by a non-positive window: the middleware then only calls on.
- `KeepRecent` is at least one, as the middleware guarantees; zero would index past the rounds.
- Overflow drops while a cache exists but covers nothing: neither branch of the bookkeeping records them.
- WholeRunProperties.RunKeepsCache: speaks of runs up to a recovered truncation; afterwards the loop rebuilds a shorter view that the cache need not describe, and whether its fingerprint notices depends on message sizes. Iterations whose view got injected messages are not covered either, because those messages are in no durable record.
- WholeRunViews.RunKeepsView: covers iterations without injected messages.
- AgentLoop.Run: keeps the run state as a value, so aliasing through hooks that hold the state is not modelled; frames streamed inside an attempt are in `StreamAssembly`, not in the run’s trace. `WholeRun.Run` puts the model calls in place and builds the state handed to the middleware anew for each of them.
- AgentLoop.RecordToolResults: tool execution is an index-aligned function; goroutines, tool panics and timeouts are left out.
- Usage scopes shared with subagents, and the usage frame of the AfterRun pass.
- EmitterPayloads.Drive: events arrive decoded; among the events it takes, a fragment for an empty id must not come before any call was opened, because the source would write to a map that was not made (`EmitterProperties.PanicsExactly`).
- Emitter.SseEmitter.FinishWithReason: is the last call on an emitter; what would follow is not modelled.
- StreamedArguments.ArgumentsOnce: needs the id to belong to one block of the stream, because a reused id is shared on the wire; an empty id additionally needs the maps to be made.
- Attach.Attach: timers and backoff are inputs of each step; the log is not reset while a client is attached.
- AttachProperties.DrainedIff: covers rings that still hold everything; after an eviction `AttachProperties.LossesHaveCause` says why a frame is missing, not exactly when.
- AttachTexts.AttachedText: lifecycle events carry no text, which is so for the kinds the source replays and subscribes to.
- StreamBlocks.TextIsShown: streams with one text block; `StreamFrames.FramesInOrder` covers any number.
- The text of prompts and replies, and the edits a consolidation applies to the store: a stage is its cost and whether it failed.
- Purging deprecated memories, and the wait group behind `Wait`.
- A database connection lost during a pass, the end of a pooled session that a lock was left with, and a watermark update that is reported as failed but took effect.
- DreamProtocol.FoldedOnce: message ids of a session arrive in ascending order, and a pass lists each session once.
- OtpProperties.ChecksAsLogged: needs the discipline that `OtpDiscipline.ExactDiscipline` shows to be exact.
- OtpThrottle.OTPThrottler.CheckVerify: takes the joined key; trimming and joining phone and address is left out.
- HTTP routing, authorization guards, SQL stores, configuration, webhooks, the broker and event bus, the session registry, history folding and server wiring: plumbing around what is modelled.
