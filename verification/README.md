# The protocols of the bridge, modelled and proved

The repository connects coding agents to a phone. Its difficult part is a set of small
concurrent protocols between a device, a control plane on several machines, a database and
a user who texts back. This project models those protocols in Dafny 4.11 and proves what
they promise.

Protocols with many participants are step systems: a step is one stretch of code without an
`await`, or one SQL statement, and a theorem speaks about every run of steps, so about every
interleaving, loss, delay, crash and repetition the steps allow. Code that updates state in
place is a class whose methods are proved equal to the same step functions. The account
class also carries the history of its steps, and its validity says that they lead to the
object's state, so that what is proved of every run holds of it.

| module | subject |
|---|---|
| `Common` | optional values, bytes, flattening of batches |
| `AccountLock` | the in-process promise chain of one account |
| `Scheduler`, `SchedulerSafety` | the turn scheduler as a step system; its safety, conservation and progress |
| `SchedulerTurns` | what raises an interrupt, what it leads to, and what a turn does with the model's replies |
| `AccountDrain` | the scheduler's methods, from `enqueueUserMessage` to the drain loop and the model rounds inside it |
| `Lease` | the cross-machine lease row |
| `Transcript` | the byte-offset tailer |
| `Outbox` | the retrying outbox, its drain and its cap |
| `Tap`, `TapSystem`, `TapCoverage`, `TapDaemon` | events and keys; the device-to-server system; what a tick ships; the daemon's loop body |
| `Verdicts`, `PermissionHook` | first-wins resolution and the blocking permission path, end to end |
| `Inbox` | at-least-once delivery with a bounded duplicate filter |
| `AfkSync` | AFK synchronisation between device and cloud |
| `LostNotice` | the lost-device claim |
| `Waiters` | the waiter registry, the race of two waiters, delivery confirmation |
| `ImagePool` | the bounded image fetch |
| `Onboarding` | the onboarding message and its scanner |

## Where the code and its comments differ

The model follows the code.

- `apps/control-plane/src/orchestrator/llm.ts:169` says the interrupt point is reached only
  while uncommitted. It is reached committed in every round after the first
  (`InterruptPointExactly`); it is never *aborted* there, and that is a property of who fires
  the signal, which `AbortsNeverMeetCommits` proves across the two files.
- The attention outbox's cap is named in bytes but measured in UTF-16 units
  (`packages/device/src/outbox.ts:112`). `ReapedFileIsUnderCapExactly` says when the reaped
  file is within the cap nevertheless, and bounds it by three times the cap;
  `NonAsciiFileStaysOverCap` is a file that is over it and is left as it is.
- A tick of the tap reads the transcript twice. A line that lands between the two reads on
  the tick of an AFK-on edge is passed over by the cursor and shipped by neither
  (`GrowthBetweenReadsIsLost`); `CoverageExactly` says exactly what a tick covers.
- The tap promises the orchestrator the whole session on every AFK window. It fails in two
  ways. If AFK goes off and on again between two ticks, the server wipes the mirror and the
  tap sees no edge, so nothing is sent again (`WipeBetweenTicksIsMissed`). And if the
  server's own AFK state is still off when the backfill is posted, as after a toggle whose
  POST was late or lost, the insert's guard stores nothing, the answer is a success all the
  same, and the tap takes the batch for shipped (`BackfillToServerThatIsOffIsLost`,
  `CoverageWithServerOff`). `WindowMirrorsWholeTranscript` says exactly when the mirror is
  whole, with the server switched between ticks and between posts.
- `packages/device/src/cli.ts:131-134` calls it harmless that the flag is set before the
  value. A heartbeat that starts between the two carries the old value up as a pending
  one, and if it is stored after the command's POST the toggle is undone in the cloud
  (`BeatBetweenFlagAndValueLoses`). `WriteIsKeptExactly` and
  `BeatsBetweenFlagAndValueExactly` say exactly when a toggle is kept.
- The heartbeat's guard against a stale echo compares values, so on, off, on defeats it
  (`StaleEchoSetsApart`). `PendingToggleIsKeptExactly` gives the exact condition under which
  a pending value cannot be lost; `OnlyReconnectRepairs` shows that plain convergence is
  more than the code promises, and `RecoversFromAnyState` and `Recovery` prove what it does
  promise.
- A reply is said to be injected at most once per process. If the write of the pending
  count throws after the send, the row has entered no filter and is sent again
  (`CutShortIsSentAgain`). `SentAgainExactly` says exactly when a row outside the filter can
  be, `FilteredIsSentOnlyAfterEviction` and `SentTwiceOnlyAfterEviction` what it takes for
  the others.
- `waitForDelivered` is described as false on an abort; after an abort during the wait it
  still looks once more and may say true (`AbortedWaitConfirms`). `WaitForDelivered` says
  exactly when it does.
- A bare onboarding token is recognised from 28 characters on, although the other two forms
  accept 24 (`BareTokenExactly`).

## Model

| member | source | states |
|---|---|---|
| `AccountLock.CallKeepsOrder` | apps/control-plane/src/orchestrator/index.ts:1655-1666 | chaining one more call keeps the chain ordered: settled calls first, at most one running, the rest waiting |
| `AccountLock.StartIsExclusive` | apps/control-plane/src/orchestrator/index.ts:1655-1661 | a call may start only when every earlier one has settled, and starting it keeps the order |
| `AccountLock.SettleKeepsOrder` | apps/control-plane/src/orchestrator/index.ts:1661-1665 | however a call settles, the order is kept and the next call, if there is one, may start |
| `AccountLock.CollectOnlyLast` | apps/control-plane/src/orchestrator/index.ts:1667-1670 | the map entry goes away only when nothing is chained behind the settled call |
| `AccountLock.AtMostOneRunning` | apps/control-plane/src/orchestrator/index.ts:1639-1645 | two running calls of one account are the same call |
| `Scheduler.FreeRunIsLongest` | apps/control-plane/src/orchestrator/index.ts:1743-1748 | the free-text run taken holds no tap-back and stops only at one or at the end of the queue |
| `Scheduler.BatchShape` | apps/control-plane/src/orchestrator/index.ts:1732-1749 | a batch is never empty, is a lone tap-back or all free text, and never stops short |
| `Scheduler.FreePrefixIsTaken` | apps/control-plane/src/orchestrator/index.ts:1828-1834 | free text at the front of the queue is wholly inside the next batch |
| `SchedulerSafety.LedgerKept` | apps/control-plane/src/orchestrator/index.ts:1757-1845 | every step keeps: arrivals = completed batches, batch in flight, queue, in order |
| `SchedulerSafety.SlotKept` | apps/control-plane/src/orchestrator/index.ts:1766-1799 | every step keeps: the drain slot is taken exactly while a drain lives, and its job is the only live drain job of the chain |
| `SchedulerSafety.TurnStepKeeps` | apps/control-plane/src/orchestrator/llm.ts:168-223 | every stretch of a turn keeps: not both aborted and committed, no tool or text before the commit, `aborted` reported only after an abort |
| `SchedulerSafety.TurnKept` | apps/control-plane/src/orchestrator/index.ts:1766-1770 | every step, also a text arriving at any await, keeps the turn invariant |
| `SchedulerSafety.CoalescingKept` | apps/control-plane/src/orchestrator/index.ts:1828-1837 | every step keeps the account of aborted attempts: the current ones all start at the first uncompleted text and end within the batch being re-tried |
| `SchedulerSafety.NothingLostDuplicatedOrReordered` | apps/control-plane/src/orchestrator/index.ts:1739-1845 | over every run the arrivals are exactly the completed batches, the batch in flight and the queue, in arrival order; every batch is a lone tap-back or all free text |
| `SchedulerSafety.AbortsNeverMeetCommits` | apps/control-plane/src/orchestrator/llm.ts:168-223 | over every run: only an uncommitted interruptible turn is aborted, an aborted turn never commits, a committed one is never aborted, and a turn reported as aborted ran no tool and sent no text |
| `SchedulerSafety.SilentUntilCommitOrFailure` | apps/control-plane/src/orchestrator/index.ts:1810-1827 | an uncommitted turn that has sent a text is in a failure branch past its last interrupt point |
| `SchedulerSafety.InterruptPointExactly` | apps/control-plane/src/orchestrator/llm.ts:168-170 | over every run the interrupt point is reached committed exactly in the rounds after the first, and then never aborted |
| `SchedulerSafety.CoalescingIsBounded` | apps/control-plane/src/orchestrator/index.ts:1688-1695 | over every run no text takes part in more than five aborted attempts |
| `SchedulerSafety.NextBatchExtendsAbortedBatch` | apps/control-plane/src/orchestrator/index.ts:1828-1834 | after an abort, whatever arrives meanwhile, the next batch has the aborted one as a prefix |
| `SchedulerSafety.OneDrainOneTurn` | apps/control-plane/src/orchestrator/index.ts:1757-1799 | over every run: pending work implies a live drain whose job is not settled; at most one job runs; no job starts before an earlier one has settled |
| `SchedulerSafety.PendingWorkCanMove` | apps/control-plane/src/orchestrator/index.ts:1787-1845 | while anything is queued or in flight some internal step is enabled |
| `SchedulerSafety.DrainDescends` | apps/control-plane/src/orchestrator/index.ts:1787-1845 | every step of the drain lowers a lexicographic measure, given the number of texts still to come |
| `SchedulerTurns.SignalRaisedExactly` | apps/control-plane/src/orchestrator/index.ts:1721-1730 | over every run an arrival raises the signal exactly if it and the turn's batch are free text, the turn is uncommitted and fewer than five interrupts have come in a row; it changes nothing else of the turn, so a tap-back never interrupts |
| `SchedulerTurns.InterruptedWaitEndsAborted` | apps/control-plane/src/orchestrator/llm.ts:172-183 | over every run a turn whose signal is up while it waits for the model leaves that wait only as aborted, whether the request fails or is answered |
| `SchedulerTurns.RequestsBeginUninterrupted` | apps/control-plane/src/orchestrator/llm.ts:168-174 | over every run no request to the model begins with the signal up |
| `SchedulerTurns.FreeTextJoinsTheNextBatch` | apps/control-plane/src/orchestrator/index.ts:1757-1838 | end to end: a free text that arrives while an uncommitted free-text turn waits for the model, below the cap and with only free text queued, shares the next batch with that whole batch and all that was queued, whatever happens before the loop comes round |
| `SchedulerTurns.FinishedTurnExactly` | apps/control-plane/src/orchestrator/llm.ts:185-223 | over every run a turn that was not cut off has, at its end, run each tool call the model asked for and no other, sent one text per failure and the model's prose exactly if no tool had messaged the user; and unless something failed or all eight rounds were used, the model ended the turn |
| `AccountDrain.Account.CallLock` | apps/control-plane/src/orchestrator/index.ts:1655-1666 | the call joins the end of the chain and becomes the map entry |
| `AccountDrain.Account.CollectEntry` | apps/control-plane/src/orchestrator/index.ts:1667-1670 | the clean-up callback is the system's collect step |
| `AccountDrain.Account.EnqueueUserMessage` | apps/control-plane/src/orchestrator/index.ts:1757-1778 | pushes the text, then starts a drain if none is alive; during a turn raises the signal exactly if text and batch are free, the turn is uncommitted and the cap not reached; the account stays where the steps of its history lead |
| `AccountDrain.Account.TakeBatch` | apps/control-plane/src/orchestrator/index.ts:1739-1749 | splits the queue at the batch length |
| `AccountDrain.Account.RunTools` | apps/control-plane/src/orchestrator/llm.ts:199-219 | a committed round runs every call whatever arrives, and is never aborted |
| `AccountDrain.Account.SendProse` | apps/control-plane/src/orchestrator/llm.ts:190-195 | the turn is committed by the very step that sends the prose; a failed send surfaces as a throw |
| `AccountDrain.Account.EndTurn` | apps/control-plane/src/orchestrator/llm.ts:187-197 | prose is sent exactly if there is some and nothing was sent, and a throw is exactly a failed send; otherwise the turn ends in one step, without a commit |
| `AccountDrain.Account.OneRound` | apps/control-plane/src/orchestrator/llm.ts:168-220 | one round, with texts arriving during each await, ends as aborted if and only if the signal is up; otherwise it goes on exactly if the awaited reply has tool calls, throws if there is no reply, and has taken the step of that very reply; a round that goes on has committed |
| `AccountDrain.Account.RunAssistantTurn` | apps/control-plane/src/orchestrator/llm.ts:156-224 | takes at most eight rounds, reports `aborted` if and only if the signal is up when it ends, throws without a key, and is a run of the system |
| `AccountDrain.Account.RecordOrClarify` | apps/control-plane/src/orchestrator/index.ts:415-446 | a turn that ran is recorded; whatever throws up to then, a failed recording included, is answered by the clarify text, and an error escapes exactly if that one's does |
| `AccountDrain.Account.RunUserTurn` | apps/control-plane/src/orchestrator/index.ts:390-446 | reports `aborted` exactly when the assistant turn was; otherwise the turn ended recorded or clarified, or its error escaped |
| `AccountDrain.Account.EndPass` | apps/control-plane/src/orchestrator/index.ts:1825-1837 | an aborted batch goes back to the front of the queue and is counted; any other is complete and the count starts anew |
| `AccountDrain.Account.OnePass` | apps/control-plane/src/orchestrator/index.ts:1790-1838 | after a pass its batch is either complete or, if the turn was aborted, at the front of the queue, which takes an arrival; if nothing arrived the queue is shorter |
| `AccountDrain.Account.DrainUserQueue` | apps/control-plane/src/orchestrator/index.ts:1787-1845 | for every finite script of arrivals and outcomes the loop ends, frees the slot, everything that arrived is completed exactly once, in order, and the whole drain is a run of the system, so that the results about runs hold of it |
| `AccountDrain.Account.StartChained` | apps/control-plane/src/orchestrator/index.ts:1655-1661 | a call whose predecessor has settled begins; the live drain's comes to its loop |
| `AccountDrain.Account.SettleChained` | apps/control-plane/src/orchestrator/index.ts:1661-1666 | a finished call settles, and the next one in the chain may start |
| `AccountDrain.Account.RunDrainJob` | apps/control-plane/src/orchestrator/index.ts:1774-1845 | the whole call of a scheduled drain, from its turn in the chain to its clean-up: everything that arrived is completed in order, the slot is free, the job settled, and its map entry gone or replaced |
| `Lease.MutualExclusion` | apps/control-plane/src/db/account-lock.ts:57-105 | over every run at any database time at most one token holds an unexpired acquired lease, and nobody else's upsert would apply |
| `Lease.ReleaseOnlyOwn` | apps/control-plane/src/db/account-lock.ts:107-119 | a release never removes another token's row and leaves other leases held |
| `Lease.LeaseRow.AcquireLease` | apps/control-plane/src/db/account-lock.ts:73-105 | false only after the window or when its last poll failed, and then the row is unchanged unless that poll's upsert was stored and its answer lost; behind a crashed holder a lone waiter acquires within TTL, one retry and two query latencies, inside the window if a retry and two latencies fit between the two |
| `Lease.LeaseRow.WithAccountLease` | apps/control-plane/src/db/account-lock.ts:57-65 | whatever became of the row during the turn, releasing removes only the turn's own, and a turn without the lease removes nothing |
| `Transcript.PendingIsTail` | packages/device/src/transcript.ts:39-51 | what is not yet a line is the part after the last LF |
| `Transcript.LinesFromBoundary` | packages/device/src/transcript.ts:57-79 | reading on from a line boundary gives the remaining lines of the whole |
| `Transcript.SplitLines` | packages/device/src/transcript.ts:39-51 | the loop over bytes returns the lines and the unconsumed length of the specification |
| `Transcript.ReadUpTo` | packages/device/src/transcript.ts:65-72 | reads everything unless a read call delivers nothing |
| `Transcript.ReadNew` | packages/device/src/transcript.ts:57-79 | returns exactly the complete lines between the start and the new offset, restarts at 0 on a shrunk file |
| `Transcript.TailIsChunkInvariant` | packages/device/src/transcript.ts:53-79 | for every growth schedule and every cut of the reads the lines delivered are those of the bytes below the cursor, which is 0 or just past an LF; a complete read gives the lines of the whole file |
| `Transcript.WrittenLinesReadBack` | packages/device/src/transcript.ts:39-51 | lines written with LF or CRLF come back exactly, each once |
| `Outbox.Drain` | packages/device/bin/tap.ts:217-256 | in terms of the answers alone: without a halt each row that is not due, or held back, is written back as it is, a posted one leaves on success or poison and comes back after a retry with id and payload, one attempt more and a later time; `shipped` is the number of successes; a dead token empties the file |
| `Outbox.OnlyDueRowsPosted` | packages/device/bin/tap.ts:228-236 | only due rows are posted, at most the limit |
| `Outbox.PostedExactly` | packages/device/bin/tap.ts:226-236 | a row the drain gets to is posted unless a shutdown is on, it is not due, or the limit is used up |
| `Outbox.RowLeavesExactly` | packages/device/bin/tap.ts:228-254 | with distinct ids and no halt a row leaves the file if and only if it was posted and its own answer was a success or poison; one whose answer was a retry is put back |
| `Outbox.SurvivingIsExact` | packages/device/bin/tap.ts:226-254 | the surviving positions are, in order, exactly those that waited or were rescheduled |
| `Outbox.SurvivorsPartition` | packages/device/bin/tap.ts:223-254 | the i-th row written back is the i-th surviving row, waiting or rescheduled |
| `Outbox.WrittenBackUnchanged` | packages/device/bin/tap.ts:250-252 | a survivor keeps id and payload, and is unchanged or has one attempt more and a later time |
| `Outbox.FinishedRowsAreGone` | packages/device/bin/tap.ts:238-245 | with distinct ids no delivered or poisoned row is left to be posted again |
| `Outbox.BackoffBounds` | packages/device/src/httpclient.ts:43-53 | the backoff lies between its base and its cap, plus the jitter |
| `Outbox.BackoffDoubles` | packages/device/src/httpclient.ts:43-53 | it starts at the base and doubles with every attempt until it meets the cap |
| `Outbox.SortByIdSorts` | packages/device/bin/tap.ts:220 | ordering by id permutes the rows |
| `Outbox.EnforceCap` | packages/device/src/outbox.ts:100-117 | drops exactly as many of the oldest rows as the measure asks for, and leaves a file within the cap alone |
| `Outbox.ExcessIsLeast` | packages/device/src/outbox.ts:111-115 | what is left fits by the measure, and one row more would not |
| `Outbox.ReapedFileIsUnderCapExactly` | packages/device/src/outbox.ts:107-116 | the reaped file is within the byte cap exactly if counting bytes instead of UTF-16 units would have dropped no more, and never above three times the cap |
| `Outbox.AsciiFileIsUnderCap` | packages/device/src/outbox.ts:107-116 | for ASCII rows both measures drop the same, so the reaped file is within the cap |
| `Outbox.NonAsciiFileStaysOverCap` | packages/device/src/outbox.ts:112 | 15,000 JSON rows with a thousand accented letters each: over the byte cap, and none is dropped |
| `Tap.BuildEvents` | packages/device/bin/tap.ts:260-281 | the nested loops give the events of the lines from the base line number on |
| `Tap.EventsAreBlocks` | packages/device/bin/tap.ts:260-281 | an event is built exactly for each block of each line, keyed by line number and position |
| `Tap.EnqueueEvents` | packages/device/bin/tap.ts:284-294 | batches of at most 500 under increasing ids |
| `Tap.BatchesHold` | packages/device/bin/tap.ts:284-294 | the batches hold the events and nothing else, in id order, due at once |
| `Tap.ActivityTable.InsertSessionActivity` | apps/control-plane/src/db/repo.ts:959-997 | inserts the events whose key is free, while AFK is on |
| `TapSystem.SafeKept` | packages/device/bin/tap.ts:496-576 | every primitive step (growth, backfill, tail read, crash, post, wipe) keeps cursor, queue and mirror consistent with the transcript |
| `TapSystem.RunsAreSafe` | packages/device/bin/tap.ts:472-576 | so does every run of them |
| `TapSystem.MirrorIsPartOfWhole` | packages/device/bin/tap.ts:537-547 | over every run the server maps each key to one block, the one that reducing the whole transcript gives it |
| `TapCoverage.CoverageExactly` | packages/device/bin/tap.ts:487-576 | for every tick on which a backfill has landed, now or earlier, with its backfill read complete, for all answers to its posts and all switches of the server's AFK state meanwhile: everything below the new cursor is shipped or queued if and only if the tail passed nothing and the drain dropped nothing, said of the tick's inputs (what was held, how far each read got, egress, answers, switches) |
| `TapCoverage.AcceptedDropsNothing` | packages/device/bin/tap.ts:226-254 | a drain drops nothing if the server is on for every row, is not switched off in between, and rejects no batch |
| `TapCoverage.LostAnswerIsStoredAndRetried` | packages/device/bin/tap.ts:237-252 | a batch stored although its answer was lost is mirrored and queued for another post |
| `TapCoverage.CoverageWithServerOff` | apps/control-plane/src/db/repo.ts:981-997 | with the server's AFK state off, a shipping tick covers everything below its cursor if and only if all of it was mirrored before or stays queued |
| `TapCoverage.QuietUnlessShipping` | packages/device/bin/tap.ts:482-495 | nothing is enqueued while AFK or egress is off |
| `TapCoverage.FailedBackfillIsRetried` | packages/device/bin/tap.ts:563-566 | after a failed backfill the next tick is an AFK-on edge again |
| `TapCoverage.UndisturbedTickCoversExactly` | packages/device/bin/tap.ts:501-576 | without growth between the reads a tick that counts as shipping covers everything below its cursor if and only if a backfill landed or it was covered before, and its drain dropped nothing |
| `TapCoverage.WindowCoversExactly` | packages/device/bin/tap.ts:472-576 | over every window of such ticks, with the user coming and going and the server's AFK state switched between ticks and between posts, everything below the cursor is covered if and only if nothing was lost since the last landed backfill, unless a tick saw the user back: no wipe took blocks no longer queued, and no drain dropped any |
| `TapCoverage.WindowMirrorsWholeTranscript` | packages/device/bin/tap.ts:487-576 | over such a window, from any state of the daemon, the mirror after a drained tick is the whole transcript reduced at once, lines from before AFK included, if and only if nothing was lost |
| `TapCoverage.OneGoodTickMirrorsAll` | packages/device/bin/tap.ts:501-576 | from any state of the daemon with the server on, one tick in which nothing fails leaves an exact mirror if and only if the daemon sees the AFK edge or had lost nothing |
| `TapCoverage.GrowthBetweenReadsIsLost` | packages/device/bin/tap.ts:504-546 | a concrete tick whose second read sees a line that is never shipped |
| `TapCoverage.WipeBetweenTicksIsMissed` | packages/device/bin/tap.ts:487-512 | a concrete window in which the server wipes between two ticks, the daemon sees no edge, and a shipped line stays missing |
| `TapCoverage.BackfillToServerThatIsOffIsLost` | apps/control-plane/src/db/repo.ts:981-997 | a concrete tick whose backfill is posted while the server's AFK state is off: answered with success, dropped from the queue, stored nowhere, and not due again |
| `TapDaemon.Daemon.Edges` | packages/device/bin/tap.ts:490-525 | backfill and clearing on the AFK edges are those of the system |
| `TapDaemon.Daemon.ReadTail` | packages/device/bin/tap.ts:527-561 | the incremental read, its shipping and the cursor write are those of the system |
| `TapDaemon.Daemon.DrainQueue` | packages/device/bin/tap.ts:568-576 | draining against the server's table, switched between the posts, is the drain of the system; a dead token leaves no row |
| `TapDaemon.Daemon.TickOnce` | packages/device/bin/tap.ts:472-576 | one pass of the loop is the tick the coverage results speak about |
| `Verdicts.Database.ResolveAttention` | apps/control-plane/src/db/repo.ts:1281-1327 | claims an unresolved attention of the account once and queues one row for it: a verdict that allows exactly on an explicit allow, so that a missing behavior is a deny, or a reply |
| `Verdicts.Database.FindVerdictForRequest` | apps/control-plane/src/db/repo.ts:1400-1420 | the oldest verdict row of the request, anything malformed reading as deny |
| `Verdicts.FindVerdictStays` | apps/control-plane/src/db/repo.ts:1400-1420 | a verdict once found is found unchanged ever after |
| `Verdicts.FirstResolveWins` | apps/control-plane/src/db/repo.ts:1281-1327 | over every interleaving an attention has at most one inbox row, and a call is answered allow only by the row of its own attention and request id |
| `Verdicts.RowsCarryTheFirstResolution` | apps/control-plane/src/db/repo.ts:1281-1327 | over every run an attention has a row exactly if some step resolved it, and the row carries what the first such step passed: a permission's verdict says allow if and only if that was an explicit allow |
| `Verdicts.CheckAnswersTheFirstResolution` | apps/control-plane/src/routes/device.ts:482-503 | over every run an open call that checks is answered allow if the first resolution of its attention was an explicit allow, deny if it was anything else, and stays open if there was none |
| `Verdicts.AllowNeedsTheFirstResolution` | apps/control-plane/src/routes/device.ts:482-503 | over every run a call answered allow is one whose attention was first resolved by an explicit allow |
| `Verdicts.ResolvedIsFinal` | apps/control-plane/src/db/repo.ts:1281-1300 | a resolved attention gets no further row on any run |
| `Verdicts.LateTapBackCannotApprove` | apps/control-plane/src/routes/device.ts:505-518 | after the deadline's clean-up no allow for the call can appear |
| `PermissionHook.IsDestructiveCodexTool` | packages/device/src/codex-hooks.ts:184-192 | destructive exactly if no edit tool's name or namespaced name matches |
| `PermissionHook.PermissionRequest` | packages/device/hooks/codex/permission-request.ts:106-148 | exactly when the hook passes, asks the control plane, and allows |
| `PermissionHook.RemoteAllowNeedsTheUser` | packages/device/hooks/codex/permission-request.ts:110-148 | on every run of the tables a tool that is neither a file edit nor message_user is allowed only by the user's row for the call's own request id, and only if the first resolution was an explicit allow; loss, error and any reply that is not an allow deny |
| `PermissionHook.RemoteVerdictExactly` | packages/device/hooks/codex/permission-request.ts:125-148 | end to end the other way: once the attention of an open call is resolved, a check answers it, and with that answer delivered the hook allows the tool if and only if the first resolution was an explicit allow |
| `PermissionHook.AwaitVerdict` | apps/control-plane/src/routes/device.ts:464-518 | allows only on an allow it read; otherwise denies after the deadline or in the round by which the client had hung up; with its clean-up query it is over before the hook's own timeout |
| `Inbox.Channel.ApplyInbox` | packages/device/src/channel.ts:557-635 | in terms of the send itself: a reply on the app-server path is ACKed and remembered exactly if its send landed, and served again if it was refused; any other bound row unless its send threw or was cut short by the write of the pending count; what the filter holds is only ACKed again, and the oldest id falls out past 500 |
| `Inbox.Channel.HandleFrame` | packages/device/src/channel.ts:726-740 | rows in order; a throw forfeits the frame's ACK but not what was applied |
| `Inbox.SpacedApart` | packages/device/src/channel.ts:630-634 | the filter lets no id through twice within 501 applications |
| `Inbox.ServesAllUndelivered` | apps/control-plane/src/db/repo.ts:1329-1353 | a flush serves exactly the undelivered rows, each once, oldest first |
| `Inbox.InvKept` | packages/device/src/channel.ts:548-661 | every step, also loss of frames, ACKs and processes, keeps: confirmed, ACKed and delivered rows are settled |
| `Inbox.DeliveredMeansApplied` | apps/control-plane/src/db/repo.ts:1355-1384 | over every run a delivery mark means the row reached an agent or was an unbound verdict |
| `Inbox.DeliveredMeansSent` | packages/device/src/channel.ts:585-600 | over every run a delivery mark goes back to a step that sent that very row past the filter and whose own send came through; on the app-server path one that landed |
| `Inbox.RefusedReplyStaysUndelivered` | packages/device/src/channel.ts:593-597 | so a reply whose every send on that path was refused, threw or was cut short has no mark and is served by the next flush |
| `Inbox.ReappliedOnlyAfterEviction` | packages/device/src/channel.ts:548-558 | over every run, within one process, the filter lets a row through again only after 500 others, all distinct |
| `Inbox.SentTwiceOnlyAfterEviction` | packages/device/src/channel.ts:557-635 | so a row none of whose sends was cut short reaches the agent twice within a process only after such an eviction |
| `Inbox.SentAgainExactly` | packages/device/src/channel.ts:548-561 | a bound row outside the filter, with nothing of it under way, can reach the agent again within the process if and only if it has no delivery mark |
| `Inbox.FilteredIsSentOnlyAfterEviction` | packages/device/src/channel.ts:558-565 | a row inside the filter reaches the agent again only on a run on which it has first fallen out |
| `Inbox.CutShortIsSentAgain` | packages/device/src/channel.ts:624-629 | a concrete run in which a send is cut short and the agent gets the row twice |
| `Inbox.DoneIsFinal` | apps/control-plane/src/routes/device.ts:610-622 | a marked row with no copy under way is never applied again, not even by a new process |
| `Inbox.CleanRoundDeliversAll` | apps/control-plane/src/routes/device.ts:614-710 | from every reachable state with an idle device one round without failures delivers everything |
| `AfkSync.Device.OnPush` | packages/device/src/channel.ts:741-769 | a pushed value is adopted unless dirty; dirty, it changes nothing but may confirm |
| `AfkSync.Device.Heartbeat` | packages/device/src/channel.ts:864-912 | whatever other processes do to the files meanwhile, a heartbeat keeps the value and takes the flag off exactly if it asserted the value that the server confirms and that is still local |
| `AfkSync.Device.Afk` | packages/device/src/cli.ts:121-146 | dead after any of its steps the command leaves a new value only dirty or confirmed |
| `AfkSync.SafeStep` | packages/device/src/afk-sync.ts:18-34 | every step but a toggle keeps a safe pending value pending or in the cloud |
| `AfkSync.PendingToggleIsKeptExactly` | packages/device/src/channel.ts:866-912 | a value that is pending, or in the cloud, is lost on no run without another toggle if and only if no message under way carries the other value or a stale confirmation |
| `AfkSync.UnsafeLoses` | packages/device/src/channel.ts:893-912 | and otherwise a run that loses it is constructed |
| `AfkSync.WriteIsKeptExactly` | packages/device/src/cli.ts:135-143 | whatever happened since a command set its flag, the value it writes is kept on every run if and only if the flag is still set, or the cloud has the value, and no message under way can harm it |
| `AfkSync.SingleToggleLands` | packages/device/src/cli.ts:131-143 | one command begun with nothing under way, dead or not after any step: if it changes nothing, or if no heartbeat starts and no push arrives between flag and value, an unset flag means its value reached the cloud |
| `AfkSync.MarkedCommandKeepsOldValue` | packages/device/src/cli.ts:131-136 | dead before its write it leaves the old value pending or in the cloud |
| `AfkSync.BeatsBetweenFlagAndValueExactly` | packages/device/src/cli.ts:131-136 | with only heartbeats starting between flag and value, the value is kept on every run if and only if there were none or it is the old one |
| `AfkSync.BeatBetweenFlagAndValueLoses` | packages/device/src/channel.ts:864-869 | a concrete such run that ends with the machine on, the cloud off and no flag |
| `AfkSync.RecoversFromAnyState` | apps/control-plane/src/routes/device.ts:604-773 | from any state whatever one heartbeat let through and one fresh stream settle both sides on the pending value, or on the cloud's if none is pending |
| `AfkSync.Recovery` | apps/control-plane/src/routes/device.ts:604-773 | and for good, among any other activity but toggles, from a state in which nothing under way can harm the value: a heartbeat answered and then, with no stale frame left, a push |
| `AfkSync.FlushedValueArrives` | apps/control-plane/src/routes/device.ts:622-638 | a flush on a stream whose last push differs from the cloud's value puts that value behind its frames, and once they have arrived the device has it, or another one is pending |
| `AfkSync.OnlyReconnectRepairs` | apps/control-plane/src/routes/device.ts:631-638 | once apart without a dirty flag, nothing but a toggle or a reconnect changes either side |
| `AfkSync.StaleEchoSetsApart` | packages/device/src/channel.ts:898-908 | a concrete run of three toggles and one late echo that ends apart |
| `LostNotice.Database.ClaimDevicesToNotifyLost` | apps/control-plane/src/db/repo.ts:741-780 | stamps and returns exactly the due devices |
| `LostNotice.ClaimedExactly` | apps/control-plane/src/db/repo.ts:741-780 | over every run a sweep claims a device if and only if it was last configured with AFK on, neither revoked nor disabled, has sessions none of which beat in the last 180 s, and its owner has texted since the last notice but not in the last 120 s |
| `LostNotice.InvKept` | apps/control-plane/src/db/repo.ts:746-773 | every step keeps: claims re-armed by a text each and counted by texts |
| `LostNotice.ClaimsNeedATextBetween` | apps/control-plane/src/db/repo.ts:689-740 | over every run consecutive claims of a device are more than 120 s apart with a text in between |
| `LostNotice.NoticesBoundedByTexts` | apps/control-plane/src/db/repo.ts:689-740 | over every run a device is claimed at most once more than its account has texted, so at most once without texts |
| `LostNotice.SecondSweepClaimsNothing` | apps/control-plane/src/db/repo.ts:718-722 | right after a claim no sweep, whatever its clock, claims the device again |
| `Waiters.SettlesOnce` | apps/control-plane/src/db/listener.ts:62-105 | under any order of wakes and expiries a call settles once, at its first, with true exactly for a wake |
| `Waiters.Registry.WaitFor` | apps/control-plane/src/db/listener.ts:62-105 | parks one call in the shared set of its key; an aborted one leaves at once |
| `Waiters.Registry.Settle` | apps/control-plane/src/db/listener.ts:68-95 | an unsettled call leaves its own set, and the last one takes the key with it |
| `Waiters.Registry.WakeKey` | apps/control-plane/src/db/listener.ts:45-56 | settles every parked call of the key with true and no other |
| `Waiters.MapIsExact` | apps/control-plane/src/db/listener.ts:41-74 | a key is in the map exactly while a call of it is parked, with exactly those calls |
| `Waiters.Race.WaitForSessionOrDeviceEvent` | apps/control-plane/src/db/listener.ts:263-286 | with other calls coming and going meanwhile, both calls of the race settle, whoever wins, and cancelling does nothing to any other call |
| `Waiters.SettleWithin` | apps/control-plane/src/db/listener.ts:297-311 | ends with the answer or its budget; true exactly for an answer in time that saw the delivery |
| `Waiters.WaitForDelivered` | apps/control-plane/src/db/listener.ts:324-351 | true exactly if no abort preceded the parking and one of the two look-ups is in time and sees the delivery; a notification or an abort ends the parking at once and nothing but they and the timeout does; unless aborted before its timeout it misses none made or notified before that, if the second look-up answers |
| `Waiters.AbortedWaitConfirms` | apps/control-plane/src/db/listener.ts:343-346 | a concrete call that is aborted while it waits and says true |
| `ImagePool.ReadBounded` | apps/control-plane/src/orchestrator/media.ts:209-241 | the whole body exactly if it fits, and nothing otherwise |
| `ImagePool.DistinctKeepsOrder` | apps/control-plane/src/orchestrator/media.ts:109-111 | deduplication keeps first occurrences in order |
| `ImagePool.Pool.ClaimNext` | apps/control-plane/src/orchestrator/media.ts:123-128 | the head of the worker loop is the claim step |
| `ImagePool.Pool.Store` | apps/control-plane/src/orchestrator/media.ts:128-137 | its tail is the completion step |
| `ImagePool.PoolStaysInBounds` | apps/control-plane/src/orchestrator/media.ts:105-141 | for every interleaving and outcome: accepted bytes equal `committed` within 12 MB, no URL twice, at most three in flight |
| `ImagePool.RefusalsAreFinal` | apps/control-plane/src/orchestrator/media.ts:123-141 | at the end every URL was fetched or the budget is spent, and nothing refused would still fit |
| `ImagePool.FetchedIsKeptExactly` | apps/control-plane/src/orchestrator/media.ts:123-149 | at the end every fetch started has come back, and an image it brought is in the results unless it does not fit what is left of the budget |
| `ImagePool.RunsAreShort` | apps/control-plane/src/orchestrator/media.ts:122-141 | every run ends after two steps per URL and one per worker |
| `ImagePool.Collect` | apps/control-plane/src/orchestrator/media.ts:149 | the filter returns the accepted positions |
| `ImagePool.OutputKeepsInputOrder` | apps/control-plane/src/orchestrator/media.ts:98-104 | the output is a subsequence of the input order |
| `Onboarding.ExtractOnboardingToken` | apps/control-plane/src/orchestrator/index.ts:1182-1197 | the left-to-right scan finds the last parenthesised token, else the first after the phrase, else a bare one |
| `Onboarding.ParenthesisedTokenWins` | apps/control-plane/src/orchestrator/index.ts:1183-1190 | a parenthesised token is found whatever stands before it |
| `Onboarding.OnboardingRoundTrip` | apps/dashboard/src/lib/deep-link.ts:25-30 | for every token of at least 24 characters and every name or none the printed message yields the token |
| `Onboarding.BareTokenExactly` | apps/control-plane/src/orchestrator/index.ts:1194-1196 | a token alone is recognised exactly from 28 characters on |
| `Onboarding.PaddedTokenExactly` | apps/control-plane/src/orchestrator/index.ts:1194-1196 | so is one with any blanks around it |
| `Onboarding.PhraseInAnyCase` | apps/control-plane/src/orchestrator/index.ts:1191-1193 | the phrase counts in any letter case and with any blanks behind it |

## Left out

- Truncation or rotation of the transcript: the tap results assume it only grows, as the
  line index is not reset when the file shrinks; `ReadNew` models the restart at 0.
- JSON parsing, the per-block reducers and secret redaction: the reducer is an arbitrary
  function from a line to its blocks, and a line that is not JSON has none.
- UTF-8 decoding of lines: transcripts are bytes, texts are sequences of Unicode scalars, of
  which the outbox counts UTF-16 units and UTF-8 bytes.
- Real SQL: each statement is one atomic guarded update. The wipe of activity when AFK goes
  off and the NOTIFY triggers are taken from db/schema.sql as steps.
- Exclusion past a lease's expiry, or after a best-effort entry without the lease: the code
  does not renew the lease and does not promise it.
- Enqueueing into the attention outbox during its own drain: the rewrite of the survivors
  does not account for it, so a drain is sequential here.
- Several accounts, devices and sessions at once: the per-key maps are modelled for one key,
  except where the protocol spans keys (waiters, lost-device claims, attentions).
- Interleaving of two processes inside one synchronous read-then-write of the AFK files: a
  handler's reads and writes of the two files are one step.
- The text of replies and of canonical answers: inbox rows carry kind, ids and behavior.
- The value of the statusline's pending count, keep-awake, titles, liveness files and logging.
- Sending of prompts, tools and their effects: the model is any source of tool calls, prose
  or errors, and a tool is a call that was begun.
- Stop-gate scanning of a Codex turn, install and migration commands, the dashboard's
  interface, webhook signing and provider HTTP.
- PermissionHook.AwaitVerdict: query durations and wake-ups are arbitrary functions, and the
  bound below the hook's timeout is for queries of less than three minutes.
- Waiters.WaitForDelivered: the listener's own reconnecting is only its bounded start-up wait.
- Lease.LeaseRow.AcquireLease: the bound is for a waiter nobody contends with; under
  contention only safety is stated.
