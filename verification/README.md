# Sales assistant: a verified model of its concurrent core

The sales assistant answers questions in conversations. Any number of service instances work
against one MySQL database and one Redis server; a knowledge base is cut into chunks, indexed and
searched to give the agent evidence. This project models the parts in which order, concurrency and
arithmetic matter, and proves what they guarantee.

`dafny verify dfyconfig.toml` checks everything.

## What is modelled

**The conversation protocol.** `Entities`, `Tables` and `Conversation` hold the records, the
queries and updates of the repositories, and each unit of work twice: as a function on the rows and
as a method of a service class that carries it out statement by statement and is proved to compute
that function. `Protocol` is the step system: processes (calls of `send_message` and `cancel_run`)
in any number, each with a program counter; the early reads of every unit of work are steps of their
own, so others may commit between a read and the writes that rely on it. The writes of one unit of
work are one step, because the conversation row stays locked from the compare-and-set, or from the
locking read, to the commit. Leases may be lost and processes may stop at any step. `Messaging` is
`send_message` from end to end and shows that a call which nobody disturbs is a run of one process.

The theorems assume no lease unless they say so. What keeps order is the version compare-and-set with the
sequence numbers 2v - 1 and 2v; the fencing token is stored in the run and compared nowhere, although
the repository's README lists fencing among its protections. Eight facts do not hold of every run. For
each there is a case that breaks it and the exact condition under which it holds:

- Terminal statuses stay as they are exactly when every status write finds its run still running, or
  cancels it a second time (`RunStatuses.TerminalKeptIff`). The status update has no guard, so a write
  that read the run before it ended overwrites it. Units of work that run one at a time never do this.
- A run has succeeded exactly when message 2v of its turn exists, as long as no cancellation replaced it
  after it succeeded (`RunStatuses.SucceededIffAnswered`).
- The newest summary opens the context of a run exactly when it was listed before the question of that
  run was committed (`ContextBound.SummaryIsInjectedIff`, `ContextBound.InjectedIffListedBefore`). An
  unbroken lease gives this.
- The messages that the next turn sees neither raw nor through a summary are just those that wait for
  one, exactly when no stored summary was made from more than 1000 uncovered messages
  (`SummaryGaps.UnseenIsWaitingIff`).
- A resumed event stream delivers the terminal event exactly when a round reads one before a round finds
  the run over and nothing to read (`Events.Generate`).
- Fencing tokens have the order of two acquisitions exactly when the earlier owner draws first
  (`Lease.TokensAgreeIff`).
- A caller who may not use a conversation is refused exactly when its tenant has not asked the same question
  under the same key before (`Access.StrangersWriteNothing`): a replay is given without asking for access. Such
  a caller never changes a row.
- Evidence has distinct ids exactly when the reranker's first `final_evidence` positions are distinct, or
  it fails (`RetrievalLaws.EvidenceIsDistinctIff`); the indices of its reply are not checked for repeats.

`Access` says who may ask and cancel. `StatusWrites` and `RunStatuses` follow the statuses of runs,
`Cancellations` holds the two runs in which a status write meets a run that has ended.

**The rolling summary.** `Memory` models the window, the listing of at most 1000 messages, the plan
and the insert of a summary; `RollingSummary`, `SummaryTexts`, `ContextBound` and `SummaryGaps` say what
the summaries hold, when a context contains them, and what no turn sees any more. The field `origin` of a
summary row records what the model was shown when the row was made; no modelled code reads it, it is what
the theorems speak about.

**The lease.** `Lease` models the Redis keys with their expiry, the two scripts and the fence
counter, first as objects and then as a timed step system with any number of holders.

**The chunker.** `Sections`, `Spans`, `Chunker` and `Documents` model the whole of `chunk` for a text
given as its lines; `Coverage`, `LineGroups` and `Layout` say what its chunks are. Token estimates are the
integer 5 * length / 8 rounded half to even.

**Retrieval.** `Fusion` and `Retrieval` model reciprocal rank fusion over exact reals and the pipeline
over the in-memory index. The embedder's vector is not read by that index; the reranker is an
arbitrary function that may fail.

**Cursors.** `Pages` and `Events` model the two readers that continue where they stopped: the message
list and the event stream of a run.

UUIDs are natural numbers of which only the identity matters. The SHA-256 fingerprint is taken as
injective on the conversation and the stripped content. A failure of the database itself is not an
outcome of its own: it is a process that stops.

## Model

| member | source | states |
|---|---|---|
| Entities.AgentRun.TransitionTo | src/sales_assistant/domain/entities.py:120-127 | a transition outside the table is refused and leaves the run alone; an allowed one sets the status and replaces the error code |
| Tables.UnitOfWork.BumpVersion | src/sales_assistant/infrastructure/mysql/repositories.py:122-141 | the version rises by one exactly when the current row has the expected version; otherwise a concurrent write is reported and nothing changes |
| Tables.UnitOfWork.LockAtVersion | src/sales_assistant/infrastructure/mysql/repositories.py:143-159 | the locking read succeeds exactly when the current row has the expected version |
| Tables.UnitOfWork.AddMessage | src/sales_assistant/infrastructure/mysql/repositories.py:166-180 | a row is added exactly when its id and its (conversation, sequence) are new |
| Tables.UnitOfWork.AddRun | src/sales_assistant/infrastructure/mysql/repositories.py:249-271 | a run is added exactly when its id and its (tenant, key) are new |
| Tables.UnitOfWork.SaveRun | src/sales_assistant/infrastructure/mysql/repositories.py:293-311 | every mutable column of the row is overwritten, whatever the row holds by now |
| Tables.UnitOfWork.AddSummary | src/sales_assistant/infrastructure/mysql/repositories.py:213-225 | a summary is added exactly when its id and its (conversation, source version) are new |
| Conversations.ConversationService.PrepareRun | src/sales_assistant/application/conversation_service.py:320-383 | the unit of work computes exactly the rows and the reply of `Prepare`, with all its error branches; leaving without a commit rolls back |
| Conversations.ConversationService.LoadIdempotentResult | src/sales_assistant/application/conversation_service.py:385-404 | the reload after a lost insert race gives exactly `LoadIdempotent` |
| Conversations.ConversationService.BuildExistingResult | src/sales_assistant/application/conversation_service.py:406-431 | the reply is `ExistingReply`: refused on another fingerprint, otherwise the run with its stored question and its stored answer; `Idempotency.ReplayExactlyOnMatch` says what these are in every reachable state |
| Conversations.ConversationService.FinaliseRun | src/sales_assistant/application/conversation_service.py:233-253 | the finalising unit of work computes exactly `Finalise`: answer, status and answer id together or nothing |
| Conversations.ConversationService.MarkRun | src/sales_assistant/application/conversation_service.py:433-449 | a run that is not running any more is left alone, any other one gets the status and the code |
| Conversations.ConversationService.CancelRun | src/sales_assistant/application/conversation_service.py:297-318 | cancelling computes exactly `Cancel`, with the access errors and the refused transition |
| Messaging.Sender.SendMessage | src/sales_assistant/application/conversation_service.py:140-281 | when nobody else commits: a caller with a free key, access, new ids and a free place gets its question, the agent's answer on the assembled history right behind it and the succeeded run that points to both, and these are just the rows added; or the run of the question failed with MODEL_UNAVAILABLE, is conflicted with LEASE_LOST, or is left running by a constraint on the answer. Any other call changes nothing and gets what is stored under its key, or an error. The rows and the outcome are those of one process in the step system |
| Messaging.PlayIsRun | src/sales_assistant/application/conversation_service.py:140-281 | playing the actions of one process is running them in the step system |
| Messaging.SendingStaysReachable | src/sales_assistant/application/conversation_service.py:140-281 | an undisturbed call from a reachable state leaves a reachable state |
| Safety.RunKeepsInv | src/sales_assistant/application/conversation_service.py:140-449 | every step of every process keeps the invariant of rows and processes, and no step takes a stored row away or changes a run's identity |
| TurnOrder.AppendOrder | src/sales_assistant/application/conversation_service.py:226-253 | in every reachable state each message has a higher sequence than all earlier ones of its conversation, with no lease assumed |
| TurnOrder.QuestionSequenceIsFree | src/sales_assistant/infrastructure/mysql/models.py:70-73 | the (conversation, sequence) constraint never refuses a question; only a repeated primary key can |
| TurnOrder.AnswerSequenceIsFree | src/sales_assistant/infrastructure/mysql/models.py:70-73 | nor does it ever refuse an answer |
| TurnOrder.OvertakenRunNeverAnswers | src/sales_assistant/application/conversation_service.py:233-242 | a run without an answer when another request bumps the version never gets one |
| TurnOrder.StepRefinesTurnLog | src/sales_assistant/application/conversation_service.py:351-377 | each step of any process is, for every conversation, a step of the sequential turn log or none |
| TurnOrder.ConversationIsItsTurns | src/sales_assistant/application/conversation_service.py:357-377 | a conversation's messages are its turns v = 1..version, one question with sequence 2v - 1 and at most one answer with 2v; there are as many runs as versions, and run v points to question v |
| Idempotency.OneRunPerKey | src/sales_assistant/infrastructure/mysql/models.py:114-117 | at most one run ever exists for a tenant and key |
| Idempotency.MessageOfOneRun | src/sales_assistant/application/conversation_service.py:357-377 | every message is the question or the answer of exactly one run |
| Idempotency.OneMessagePerPart | src/sales_assistant/application/conversation_service.py:226-253 | a run never has two questions or two answers |
| Idempotency.KeyStaysBound | src/sales_assistant/application/conversation_service.py:331-341 | a key keeps its run, with conversation, fingerprint and question, through every later step |
| Idempotency.SameKeySameRun | src/sales_assistant/application/conversation_service.py:151-174 | all requests with one key that have been given a run, in whatever phase they are by now, have been given the same one, and they asked the same thing |
| Idempotency.OneOwnerPerRun | src/sales_assistant/application/conversation_service.py:168-190 | at any moment only one process owes a run its answer |
| Idempotency.AgentHasOneCaller | src/sales_assistant/application/conversation_service.py:184-212 | over whole runs, crashes included: a process that waits for the agent of a run at some moment is the one that has waited ever since the first moment at which any process did |
| Idempotency.AgentRunsOnce | src/sales_assistant/application/conversation_service.py:184-212 | over whole runs the agent answers or fails at most once for a run |
| Idempotency.ReplayExactlyOnMatch | src/sales_assistant/application/conversation_service.py:392-431 | in every reachable state a taken key is replayed exactly when conversation and stripped content match, and then with its run, its question, whose content strips to the fingerprint's, and its answer, message 2v, exactly when the run has succeeded; otherwise it is refused |
| Idempotency.RaceLoserRollsBack | src/sales_assistant/infrastructure/mysql/repositories.py:268-271 | the loser of an insert race leaves the rows as they were and learns of the conflict |
| Access.WhoMayAsk | src/sales_assistant/application/conversation_service.py:331-350 | a turn is begun exactly under a free key by the owner of the conversation or a caller who may read all of them, and no insert happens otherwise |
| Access.StrangersWriteNothing | src/sales_assistant/application/conversation_service.py:335-349 | anybody else changes no row; in every reachable state such a caller is given a reply, a replay, exactly when its tenant asked the same question under the same key before |
| Access.WhoMayCancel | src/sales_assistant/application/conversation_service.py:297-308 | in every reachable state cancelling goes on exactly for the same callers and a run of their tenant; anybody else gets an error and changes no row |
| StatusWrites.ReachableStatuses | src/sales_assistant/application/conversation_service.py:200-318 | in every reachable state, however units of work interleave, every row and every copy that a process has read has the columns of its status (a succeeded one its answer id and that answer's row, a failed one MODEL_UNAVAILABLE, a conflicted one LEASE_LOST), and a run that a process may still answer or fail is running or cancelled |
| RunStatuses.WriteChangesTerminalIff | src/sales_assistant/infrastructure/mysql/repositories.py:293-311 | in every reachable state, for every answer, failure or cancellation that passes its own guards: the copy it read is out of date exactly when the run is no longer running, and exactly then the write changes a terminal row, except that a second cancellation writes the same row again |
| RunStatuses.TerminalKeptIff | src/sales_assistant/domain/entities.py:48-62 | over any whole run: terminal rows are the same at any two moments exactly when every status write finds its run still running or cancels it again |
| RunStatuses.EndedStaysEnded | src/sales_assistant/domain/entities.py:48-62 | a run leaves Running only for a terminal status and never returns, in any interleaving |
| RunStatuses.SucceededIffAnswered | src/sales_assistant/application/conversation_service.py:233-253 | a run has succeeded exactly when it has an answer id, which is then that of message 2v; and it has succeeded exactly when message 2v exists, if and only if no status write ever replaced it after it succeeded |
| RunStatuses.OnlyCancelsOverwrite | src/sales_assistant/application/conversation_service.py:297-318 | what replaces a succeeded run is a cancellation that read it while it was running: the run ends as cancelled without an answer id, and its message 2v stays |
| RunStatuses.SucceededMeansAnswered | src/sales_assistant/application/conversation_service.py:233-253 | what serialised units of work give: no run is ever replaced so, and succeeding and having message 2v are the same thing |
| RunStatuses.TerminalIsForever | src/sales_assistant/domain/entities.py:48-62 | what serialised units of work give: every status write finds its run running, and a terminal run never changes again, in any column |
| Cancellations.CancelCanBeLost | src/sales_assistant/application/conversation_service.py:297-318 | a run without serialisation in which a cancelled run ends as succeeded although the lease was never lost, for every request, ids and answer |
| Cancellations.AnswerCanBeCancelled | src/sales_assistant/application/conversation_service.py:297-318 | and one in which an answered run ends as cancelled, without an answer id, while its message 2 stays in the log |
| Memory.MemoryService.LoadContext | src/sales_assistant/application/memory_service.py:51-82 | the assembled turns are `Context`, by the loop over the window; `ContextBound.AgentIsShown` says what they hold |
| Memory.MemoryService.ListPending | src/sales_assistant/application/memory_service.py:94-112 | the first unit of work plans what `PlanSummary` says: all but the freshest messages, or nothing below the trigger |
| Memory.MemoryService.MaybeSummarize | src/sales_assistant/application/memory_service.py:84-139 | the rows afterwards are those of `Summarise`, for any two snapshots that its two units of work saw |
| SummaryPlan.PlanContinues | src/sales_assistant/application/memory_service.py:94-120 | a plan made from a sound database continues the chain that is stored |
| RollingSummary.VersionsFormChain | src/sales_assistant/application/memory_service.py:118-134 | under any interleaving the stored versions are 1..n, coverage strictly rises to the sequence of a message, and version k + 1 was built from the text of version k |
| RollingSummary.SummariesAreImmutable | src/sales_assistant/infrastructure/mysql/models.py:93-98 | stored summaries never change and are never removed |
| RollingSummary.SummarisedExactlyOnce | src/sales_assistant/application/memory_service.py:94-134 | what the model was shown for versions 1..n is exactly the log up to the covered sequence, in order, nothing skipped and nothing twice, if and only if no listing behind a version was cut off |
| RollingSummary.ListingCompleteIff | src/sales_assistant/application/memory_service.py:94-104 | a listing holds all uncovered messages exactly when there are at most 1000 of them |
| RollingSummary.PlannedIff | src/sales_assistant/application/memory_service.py:94-120 | in every reachable state a summary is planned exactly when the listed uncovered messages are more than the window and than the trigger, and then of all of them but the last window, with the newest stored text |
| SummaryTexts.SummaryHoldsReply | src/sales_assistant/application/memory_service.py:114-134 | over whole runs every stored summary was inserted by a process that the model had answered before: it holds that reply, stripped, and covers the messages that were sent to the model up to the last of them |
| ContextBound.SummaryIsInjectedIff | src/sales_assistant/application/memory_service.py:59-82 | in every reachable state, with or without the lease, the newest summary opens the context of a run exactly when it leaves at least a window of messages before the run's question, exactly when the log had ended before that question when the summary was listed |
| ContextBound.AgentIsShown | src/sales_assistant/application/memory_service.py:59-82 | in every reachable state, for every run: the turns are the header with the text of the newest summary, exactly when that summary leaves room, and then the messages right before the run's question, as many as the window holds, each with its role and content, and nothing else |
| ContextBound.InjectedIffListedBefore | src/sales_assistant/application/memory_service.py:59-112 | a summary planned at an earlier state, once it is the newest, opens the context of a run exactly when the run's question was not yet committed at that state |
| ContextBound.SummaryIsAlwaysInjected | src/sales_assistant/application/memory_service.py:59-82 | what the lease gives: the newest summary opens every context that is loaded for a committed question |
| SummaryGaps.UnseenIsWaitingIff | src/sales_assistant/application/memory_service.py:94-120 | in every reachable state the messages older than the next window that no summary was shown are as many as those that wait for a summary (not covered, older than the window) and those that cut listings passed over; they are just the waiting ones if and only if every stored summary was made from at most 1000 uncovered messages |
| SummaryGaps.WaitingSinceListing | src/sales_assistant/application/memory_service.py:94-120 | in every reachable state as many messages wait for a summary as were committed after the listing of the newest one |
| SummaryGaps.WrittenIsWantedIff | src/sales_assistant/application/memory_service.py:118-123 | in every reachable state, with or without the lease, a summary that the model has written passes the check before the insert exactly when no other one was stored since it was planned |
| SummaryGaps.InsertStoresIff | src/sales_assistant/infrastructure/mysql/models.py:93-98 | and the insert stores it exactly then; otherwise the stored summaries stay as they are |
| SummaryGaps.WrittenIsWanted | src/sales_assistant/application/memory_service.py:118-123 | what the lease gives: no other one is stored in between, and the check always passes |
| SummaryGaps.SummaryLeavesNothing | src/sales_assistant/application/memory_service.py:94-139 | what the lease gives, whatever other conversations do between listing, check and insert: the insert stores the planned summary, afterwards no message waits for one, and the next turn sees every message raw or through a summary if and only if every stored summary was made from at most 1000 uncovered messages |
| SummaryGaps.FewMessagesWait | src/sales_assistant/application/memory_service.py:103-112 | a turn that ends without planning a summary leaves at most trigger - 2 * recent messages, or none, waiting for one, and no others unseen beside those that cut listings passed over |
| Witnesses.OverlappingSummaryIsDropped | src/sales_assistant/application/memory_service.py:69-73 | without the lease: a summariser that sees the next question covers the first message of that turn's window, and the summary it stored is left out of that context |
| Witnesses.SummaryCanBeDropped | src/sales_assistant/application/memory_service.py:69-73 | for every configuration with a window, and whatever the model returns, there is a run without the lease in which a committed request's context lacks the summary that its conversation has |
| Witnesses.MessagesCanBePassedOver | src/sales_assistant/application/memory_service.py:94-120 | for every configuration there is a run in which a listing is cut off, and afterwards at least 1000 messages are neither in the next window nor among what the model was shown |
| Lease.Redis.EvalRenew | src/sales_assistant/infrastructure/redis/lease.py:20-25 | only the owner that the key names now gets a new time to live |
| Lease.Redis.EvalRelease | src/sales_assistant/infrastructure/redis/lease.py:27-32 | only the owner that the key names now deletes it |
| Lease.ConversationLease.EnsureValid | src/sales_assistant/infrastructure/redis/lease.py:47-50 | the check passes exactly when the lease was not lost before and the key still names the owner; it renews the key or marks the lease as lost for good |
| Lease.ConversationLease.RenewRound | src/sales_assistant/infrastructure/redis/lease.py:98-110 | a round of the renewal loop asks whether or not the lease was found lost, goes on exactly when the renewal succeeded, and never clears the mark |
| Lease.RedisLeaseManager.Enter | src/sales_assistant/infrastructure/redis/lease.py:68-86 | the lease is given exactly when nobody holds the key, with the next number of the fence counter |
| Lease.RedisLeaseManager.Exit | src/sales_assistant/infrastructure/redis/lease.py:92-96 | leaving runs the release script for this owner |
| Lease.GrantExcludes | src/sales_assistant/infrastructure/redis/lease.py:68-81 | for a time to live after its last acquisition or renewal, an owner that has not released holds the key and no other one is granted it |
| Lease.GrantLastsExactly | src/sales_assistant/infrastructure/redis/lease.py:105-110 | a grant that is neither renewed nor released lasts exactly its time to live |
| Lease.ValidMeansHeldThroughout | src/sales_assistant/infrastructure/redis/lease.py:47-50 | a passed check means that the owner held the key at every moment since it acquired it, and nobody else acquired it in between |
| Lease.LapsedOwnerIsHarmless | src/sales_assistant/infrastructure/redis/lease.py:20-32 | once an owner's lease has lapsed, nothing it sends changes any lease key, its next check marks it as lost, and its renewal loop ends with its next round |
| Lease.ReleaseFrees | src/sales_assistant/infrastructure/redis/lease.py:28-32 | a holder that releases while it holds the key frees it at once, and the next to ask acquires it |
| Lease.LostMeansLapsed | src/sales_assistant/infrastructure/redis/lease.py:47-50 | a lease marked as lost is not held, so a round that the loop still sends fails |
| Lease.TokensFollowDraws | src/sales_assistant/infrastructure/redis/lease.py:83-87 | tokens of a conversation are distinct and rise in the order in which they are drawn |
| Lease.TokensFollowAcquisitions | src/sales_assistant/infrastructure/redis/lease.py:79-87 | if the earlier owner still holds the key when it draws, tokens agree with the order of acquisition |
| Lease.TokensAgreeIff | src/sales_assistant/infrastructure/redis/lease.py:79-87 | for two acquisitions of one conversation, one after the other, the tokens have their order exactly when the earlier owner draws first; where it does not, it no longer holds the key when it draws |
| Lease.LapsedDrawInvertsTokens | src/sales_assistant/infrastructure/redis/lease.py:79-87 | a run of seven steps in which the earlier owner draws the higher token |
| Spans.NearestEighths | src/sales_assistant/ingestion/chunker.py:9-13 | rounding gives the nearest integer, the even one of two |
| Spans.EstimateBounds | src/sales_assistant/ingestion/chunker.py:12-13 | the estimate is the nearest integer to the length divided by 1.6, and at least one; a text that is not empty has no more tokens than characters, and at most two characters a token |
| Sections.HeadingIsRead | src/sales_assistant/ingestion/chunker.py:40-40 | every heading of one to six levels is read back with its level and title, whatever blanks surround it |
| Sections.HeadingIsReadIff | src/sales_assistant/ingestion/chunker.py:40-40 | and a line is read as a heading of some level and title only if it has that form |
| Sections.Push | src/sales_assistant/ingestion/chunker.py:70-72 | the pop loop leaves exactly the headings below the new one's level, and the new one |
| Sections.OpenLevelsIncrease | src/sales_assistant/ingestion/chunker.py:57-72 | the levels of the open headings strictly increase |
| Sections.HeadingCloses | src/sales_assistant/ingestion/chunker.py:70-72 | of the headings that are open (none of the same or a lower level came after them), a new heading leaves exactly those below its level open |
| Sections.PathIsBreadcrumb | src/sales_assistant/ingestion/chunker.py:69-73 | a section's path is the path of the section that encloses it, " / " and its own title, or its own title alone |
| Sections.SplitSections | src/sales_assistant/ingestion/chunker.py:49-79 | the sections are those that start at the top and behind every heading, each with the titles open there as its path and the lines up to the next heading |
| Sections.SectionsConserveLines | src/sales_assistant/ingestion/chunker.py:59-76 | the sections' lines, one after the other, are the lines that are not headings |
| Spans.SpansAreOk | src/sales_assistant/ingestion/chunker.py:109-127 | blocks and windows are contiguous with strictly increasing ends, each starts with the longest tail of the one before that fits the overlap budget, and each is greedy |
| Spans.FewestBlocks | src/sales_assistant/ingestion/chunker.py:82-97 | packing cuts the paragraphs into consecutive blocks of one paragraph or within the budget, and no other such cut has fewer |
| Spans.SpanWithinBound | src/sales_assistant/ingestion/chunker.py:109-127 | no window has more tokens than the budget, or than the overlap budget and the longest sentence together |
| Spans.OverBudgetIff | src/sales_assistant/ingestion/chunker.py:109-127 | a window exceeds its budget exactly when its first new sentence does with what is carried over, and then that is its only new sentence |
| Chunker.Pack | src/sales_assistant/ingestion/chunker.py:86-97 | the one-pass loop makes the blocks of any spans that satisfy the specification |
| Chunker.TailWithin | src/sales_assistant/ingestion/chunker.py:115-122 | the inner loop finds the longest tail within the overlap budget |
| Chunker.CutWindows | src/sales_assistant/ingestion/chunker.py:106-127 | the one-pass loop makes the windows of any spans that satisfy the specification |
| Chunker.SplitChild | src/sales_assistant/ingestion/chunker.py:100-128 | a text within the budget is its own child; otherwise its windows are, and the last filter drops none of them |
| Coverage.BlankLinesSeparate | src/sales_assistant/ingestion/chunker.py:84-84 | the pieces between blank lines: each goes up to the first separator, the next one starts behind the longest separator there, and the last one has none inside |
| Coverage.CutIsUnique | src/sales_assistant/ingestion/chunker.py:84-84 | only one list of pieces is such a cut of a text |
| Coverage.SentencesEndAtTerminators | src/sales_assistant/ingestion/chunker.py:104-104 | sentences end at 。！？.!? and line breaks, and only there |
| Coverage.WindowsCoverBlock | src/sales_assistant/ingestion/chunker.py:104-127 | the new sentences of the windows, one after the other, are the sentences of the block, which show all its visible characters |
| Coverage.ChildrenAreBounded | src/sales_assistant/ingestion/chunker.py:100-128 | no child is empty or longer than twice its bound in tokens |
| Coverage.SomeChild | src/sales_assistant/ingestion/chunker.py:100-128 | a text that is not blank has at least one child |
| Coverage.ParentsConserveText | src/sales_assistant/ingestion/chunker.py:138-168 | from lines to parents no visible character of the plain lines is lost, repeated or moved |
| Layout.ParentsAreParagraphs | src/sales_assistant/ingestion/chunker.py:82-97 | the paragraphs of a section are its maximal runs of lines that are not blank, joined by line breaks and stripped; every parent is consecutive paragraphs of one section joined by blank lines, a single one or within `parent_max_tokens`, with no room for the next one, under its section's path and its number; every paragraph of every section is in exactly one parent, in order |
| Layout.ChildrenAreWindows | src/sales_assistant/ingestion/chunker.py:146-165 | the children of a parent are its own text within `child_max_tokens`, and otherwise stripped windows of its sentences that cover them all, start with the longest tail within `child_overlap_tokens` and stay within their bound; they carry the parent's id and path and are numbered in order |
| Documents.Chunk | src/sales_assistant/ingestion/chunker.py:138-168 | the nested loops compute `Chunks`; `Layout.ParentsAreParagraphs` and `Layout.ChildrenAreWindows` say what parents and children are |
| Documents.IdsAreDistinct | src/sales_assistant/ingestion/chunker.py:146-154 | all ids of parents and children of a document are distinct |
| Fusion.ReciprocalRankFusion | src/sales_assistant/application/retrieval_service.py:43-63 | the one-pass loop over ordered dictionaries gives the sorted list of representatives with the declarative score |
| Fusion.SortedIsStable | src/sales_assistant/application/retrieval_service.py:62-62 | sorting is descending and keeps, for every key, the elements with that key in their order |
| FusionLaws.FusedIds | src/sales_assistant/application/retrieval_service.py:50-61 | every id that occurs is fused, exactly once |
| FusionLaws.FusedEntry | src/sales_assistant/application/retrieval_service.py:50-61 | its score is the sum of weight / (k + rank + 1) over all occurrences and its candidate is the first with the longest text |
| FusionLaws.FusedOrder | src/sales_assistant/application/retrieval_service.py:61-63 | scores fall, and equal scores keep the order in which the ids were first seen |
| FusionLaws.TiesKeepOrder | src/sales_assistant/application/retrieval_service.py:52-62 | of two entries with equal scores, the first occurrence of the earlier one's id in the recall lists comes before every occurrence of the other id |
| FusionLaws.ScoreAddsUp | src/sales_assistant/application/retrieval_service.py:54-57 | a score is nothing to begin with, and each further candidate of the id adds weight / (k + its rank), ranks counted from one |
| FusionLaws.FusionIgnoresListOrder | src/sales_assistant/application/retrieval_service.py:52-61 | permuting the recall lists changes neither the ids nor their scores |
| FusionLaws.DominanceIsRespected | src/sales_assistant/application/retrieval_service.py:52-55 | with weights that are not negative, what is ranked no worse everywhere than an id that no list repeats scores no less than it |
| Retrieval.InMemoryRetriever.FindVisible | src/sales_assistant/infrastructure/milvus/memory.py:41-58 | the filter keeps, in order, exactly the chunks that the reader may read |
| RetrievalLaws.VisibleExactly | src/sales_assistant/infrastructure/milvus/memory.py:9-58 | the visible chunks are exactly those of the tenant, at their places, whose level the reader reaches (restricted above confidential above all others) and that list no ACL token or one of the reader's |
| Retrieval.InMemoryKnowledgeIndexer.IndexChunks | src/sales_assistant/infrastructure/milvus/memory.py:124-140 | all chunks are appended in order and counted |
| Retrieval.InMemoryKnowledgeIndexer.DeleteDocumentVersion | src/sales_assistant/infrastructure/milvus/memory.py:165-171 | exactly the chunks of that tenant and version are removed |
| Retrieval.RetrievalService.Retrieve | src/sales_assistant/application/retrieval_service.py:85-138 | the result is `Retrieved` of the visible chunks, the query, the configuration and the reranker; `RetrievalLaws.RetrievedIs` says what that is |
| RetrievalLaws.RetrievedIs | src/sales_assistant/application/retrieval_service.py:97-138 | the candidates are the first min(rerank_input, fused) entries of the fused list of the dense recall with its weight and the keyword recall with its own; if the reranker answers with indices in range, the evidence shows what it names, in its order, otherwise the head of that list; there are min(final_evidence, named or candidates) pieces, and the counts are those of the recalls and of the fused list |
| RetrievalLaws.FusedCount | src/sales_assistant/application/retrieval_service.py:112-115 | there are as many fused entries as distinct ids in the two recalls |
| RetrievalLaws.HiddenChunkChangesNothing | src/sales_assistant/infrastructure/milvus/memory.py:50-57 | a chunk that the reader may not read changes nothing, wherever it is stored |
| RetrievalLaws.DenseRecallIsLongest | src/sales_assistant/infrastructure/milvus/memory.py:60-72 | dense recall gives min(top_k, visible) chunks, each as often as it is visible: the longest texts, none left out being longer, longest first, with scores 1, 1/2, 1/3, ... |
| RetrievalLaws.Bm25RecallIsRelevant | src/sales_assistant/infrastructure/milvus/memory.py:74-88 | keyword recall gives as many chunks as asked for of those that share a character with the query: those that share most, none left out sharing more, most shared first, scored by how many they share |
| RetrievalLaws.EvidenceIsSound | src/sales_assistant/application/retrieval_service.py:97-131 | for every reranker and on the degraded branch: at most `final_evidence` pieces, each a stored chunk that the reader may read |
| RetrievalLaws.EvidenceIsDistinctIff | src/sales_assistant/application/retrieval_service.py:116-131 | the pieces have distinct ids exactly when the first `final_evidence` positions that the reranker names in this call are distinct, and always on the degraded branch |
| RetrievalLaws.EvidenceCanRepeat | src/sales_assistant/infrastructure/model_gateway/embeddings.py:112-116 | a reply that names the first candidate twice gives one chunk twice |
| RetrievalLaws.EvidenceOrder | src/sales_assistant/application/retrieval_service.py:116-131 | evidence follows the reranker's order, or the fused order on the degraded branch, which an index out of range leads to as well |
| RetrievalLaws.DeletedIsGone | src/sales_assistant/infrastructure/milvus/memory.py:165-171 | whatever the reranker does, no reader of the tenant is given evidence from a deleted version |
| RetrievalLaws.OtherTenantsKeep | src/sales_assistant/infrastructure/milvus/memory.py:165-171 | readers of other tenants see the same chunks as before |
| RetrievalLaws.DeleteUndoesIndex | src/sales_assistant/infrastructure/milvus/memory.py:124-171 | deleting a version that was indexed into a store without it restores the store |
| Pages.WalkReturnsAll | src/sales_assistant/api/routes.py:268-278 | following the cursor returns every message of the first read exactly once, in order when the pages are put together, whatever is appended meanwhile, and ends after at most one page more than they fill |
| Pages.WalkDuringAnyRun | src/sales_assistant/infrastructure/mysql/repositories.py:182-198 | the same for reads at any moments of any run of the step system |
| Events.EventIdRoundTrip | src/sales_assistant/infrastructure/redis/event_stream.py:16-18 | printing and parsing an event id is a round trip |
| Events.InMemoryRunEventStream.Append | src/sales_assistant/infrastructure/redis/event_stream.py:102-120 | the event is appended to its run's stream with the next id, and other streams stay as they are |
| Events.Available | src/sales_assistant/infrastructure/redis/event_stream.py:132-136 | the numeric comparison selects exactly the events behind the cursor, up to the limit |
| Events.Generate | src/sales_assistant/api/routes.py:395-420 | for any cursor, any growth of the stream and any timeouts, the delivered events are the gap-free segment right behind the cursor, none but the last is terminal, all that was read is delivered, and a terminal event is delivered exactly when a round reads one and no round before it finds the run over and nothing to read |
| Events.TimeoutFallsSilent | src/sales_assistant/api/routes.py:409-413 | one wait that times out on a run that is over: the stream ends without a terminal event |
| Events.ReconnectContinues | src/sales_assistant/api/routes.py:382-396 | reconnecting with the last id received continues the segment without a gap or a repeat |
| Events.SegmentIds | src/sales_assistant/infrastructure/redis/event_stream.py:108-118 | delivered ids are those of consecutive events |

## Left out

- FastAPI plumbing, SSE encoding, the streaming queue, authentication, error mapping, settings, migrations, tracing, the web UI and Helm: I/O and configuration.
- The agent graph, prompts, classifiers and skill files, and the model, embedding, rerank and Milvus clients: their results are inputs here.
- The checkpointer, conversation listing and ingestion status updates: keyed upserts and single branches.
- Splitting a text into lines (`splitlines`): a document is given as its lines, and no line holds a line break.
- Timestamps, titles, token counts and citations: no modelled decision depends on them, and "any column" of a run does not count its timestamps.
- MySQL beyond what the units of work rely on: a plain read sees one earlier committed state, updates and locking reads see the current rows, and a transaction's writes become visible together.
- Config: `serialised` and `exclusive` in `Protocol` are assumptions that a theorem may name, not parts of the code. That a lease gives `exclusive` is not proved: `Lease` shows that the key is held up to a passed check, and the commit comes after it.
- The in-memory lease manager: a plain lock for one process, whose check only asks whether anybody holds it.
- Lease.RedisLeaseManager.Enter: sends its two commands without a pause; commands of others between them are steps of the timed system.
- The Redis event stream: ids and reads are Redis's own; trimming to 2000 events and the retention time are not modelled.
- Events.Generate: the frequency of keep-alive comments is not modelled. That the terminal event is always delivered does not hold, because a status is committed before its event is appended; the contract says exactly when it is delivered, and `Events.TimeoutFallsSilent` gives a case in which it is not.
- `list_chunks` is not modelled; it sorts ids as text, which is not document order from the tenth parent on.
- Events.InMemoryRunEventStream.Append: event data is an opaque string.
- Floating point: fusion is over exact reals, and the estimate uses the exact quotient.
- Sorting is Python's own: modelled as a stable insertion sort, of which only stability and order are used.
- Messaging.Sender.SendMessage: starts where the lease is held (a busy conversation is `Lease.RedisLeaseManager.Enter` giving no lease), and the events that the call emits are not part of it.
- Progress: nothing is said about how long a process takes, and a run whose process stopped stays running.
