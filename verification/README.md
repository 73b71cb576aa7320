# Open Workflow Agent: a verified model of its durable core

This project models the parts of the workflow runtime that keep durable state, and proves what every run of them
keeps. Each store is a class over maps and sequences whose methods are proved equal to pure step functions; the laws
are lemmas about runs of those steps. Checkers that the runtime applies to its own tables are modelled as predicates,
and every reachable state is proved to pass them.

| component | modules |
|---|---|
| event triggers | `EventMatching`, `EventCycles`, `EventTriggers`, `EventTriggerLaws`, `EventTriggerStores`, `Rebinding`, `TriggerBinding` |
| effect journal | `Effects`, `ReceiptWalk` |
| child workflows | `ChildTree`, `Cancellation`, `ChildWaits`, `Paging`, `WaitDispatch` |
| fenced schedules | `Schedules`, `ScheduleLaws`, `ScheduleStores` |
| SQLite rollback journals | `SectorChain`, `RollbackJournal` |
| reusable definitions | `FunctionDepth`, `JsonPointers`, `Definitions` |
| bounded memory | `BoundedMemory` |
| A2A streams | `TaskStreams`, `EventFrames`, `JsonText`, `StreamJson`, `StreamText` |

Verify with `dafny verify dfyconfig.toml` (Dafny 4.11).

## Assumptions

- Transactions are atomic and serialised; a failed one leaves the tables as they were.
- SHA-256 digests and canonical JSON text are injective, so a digest is modelled by the value it digests and a row key
  by the identity it encodes. Where keys are paged they are numbers, because only their order matters.
- Clocks are integers or reals; a schedule's clock does not go back, and `next_due` is strictly later than its argument.
- jq expressions, regular expressions, the filter guard and the cron parser are functions of their inputs; expression
  evaluation may fault. `RebindRun` takes it that jq hands a member of an event back as it is, 1.0 as a float.
- An execution lease is a flag that says whether the caller is the current owner.
- Floats are reals: rounding, NaN, infinities and negative zero do not occur.
- New invocation and session ids are new.

## Where the natural statement fails

- `json_equal` calls 1 and 1.0 equal while a trigger compares canonical text, so a trigger can stop for good on an event
  that matches. `RebindRun` is such a run, `RebindExact` gives the exact condition on the event and the bound values, and
  `NeverRebinds` shows that without whole-number floats it cannot happen in any reachable state.
- A journal without a closing record whose last 8 bytes happen to be the magic is read as having one. `UnluckyChain` is
  such a journal; `ChainIsJournal` and `PrefixOfChain` say that a bare chain is read as itself if and only if it does not
  end in the magic.
- `definition_at_pointer` strips every leading slash and splits the empty pointer into one token, so an empty first token
  and the empty pointer are misread. `PointerRoundTrip` gives the exact condition, `EmptyPointerMisread` the second case;
  the pointers the resolver builds satisfy the condition.
- A memory namespace stops being accepted once id 2^63 - 2 is used (`CountersMirror`, `IdsRunOut`, `ExhaustionReached`).
- The A2A client treats a request for input as final while the server goes on: `ResumedIsRefused` in general,
  `ResumedExample` at the running server's limits, and `AcceptedExactly` for the exact condition on what is served.
- The server's description says that a stream opens with a Task projection; the code skips a snapshot that exceeds the
  limits and streams on, and the client then refuses the stream: `SkippedIsRefused` in general, `SkippedExample` at limits
  the runtime accepts. `SnapshotFits` shows that limits from 2500 bytes on rule it out.

The stream's branch for an invocation without a session, which gives snapshot and updates different context ids, is part
of the model, but the runtime gives every invocation a session when it creates it (core/src/open_workflow_agent/persistence.py:233).

## Model

| member | source | states |
|---|---|---|
| `Effects.FirstWriterWins` | core/src/open_workflow_agent/effects.py:634-1045 | Over any run of begin, record, finish, finish-owned and finish-child calls by anyone: index and receipt tables keep the same keys, an identity keeps its owner and request digest, and a receipt that has left the pending state never changes. |
| `Effects.ApplyKeeps` | core/src/open_workflow_agent/effects.py:634-1045 | Each single call keeps the two tables in step and only extends what they hold. |
| `Effects.OthersUntouched` | core/src/open_workflow_agent/effects.py:634-1045 | A call leaves the rows of every other identity as they were. |
| `Effects.OnlyEntitledCompletes` | core/src/open_workflow_agent/effects.py:835-1045 | A pending receipt changes only through a call on its own identity by its recorded owner (or the child path) with the recorded request. |
| `Effects.AnswerIsStored` | core/src/open_workflow_agent/effects.py:634-1045 | A successful call answers with exactly the receipt that is stored afterwards; only `begin` may answer with a pending one. |
| `Effects.AnswersAgree` | core/src/open_workflow_agent/effects.py:634-1045 | Two successful answers for one identity, with any calls between them, name one owner and request, and once an outcome has been told every later answer is that outcome. |
| `Effects.CapturedStillVerifies` | core/src/open_workflow_agent/effects.py:337-372 | A dependency captured from any answer still verifies after any later run of calls. |
| `Effects.InsertKeeps` | core/src/open_workflow_agent/_effect_storage.py:31-69 | The two conditional inserts and their read-back keep both tables in step and change nothing that exists. |
| `Effects.EffectJournal.Read` | core/src/open_workflow_agent/effects.py:437-477 | Reading reports the stored receipt, nothing for an absent identity, or an error when the row fails its constructor, its columns or its verifier. |
| `Effects.EffectJournal.BeginIntent` | core/src/open_workflow_agent/effects.py:634-699 | The store method is the `Begin` step of the model, rollback included. |
| `Effects.EffectJournal.RecordDecision` | core/src/open_workflow_agent/effects.py:701-751 | The store method is the `RecordValue` step. |
| `Effects.EffectJournal.FinishIntent` | core/src/open_workflow_agent/effects.py:835-878 | The store method is the `Finish` step. |
| `Effects.EffectJournal.FinishIntentOwned` | core/src/open_workflow_agent/effects.py:908-982 | The store method is the `FinishOwned` step. |
| `Effects.EffectJournal.FinishChildIntent` | core/src/open_workflow_agent/effects.py:984-1045 | The store method is the `FinishChild` step. |
| `ReceiptWalk.VerifyInvocation` | core/src/open_workflow_agent/effects.py:753-833 | The explicit-stack walk terminates on every finite journal; it accepts exactly when every invocation reachable from the root passes its local checks and no dependency cycle is reachable, and then the visited set is exactly the reachable set, although invocations met again are skipped. |
| `ReceiptWalk.Turn` | core/src/open_workflow_agent/effects.py:758-831 | One turn of the loop keeps the walk invariant: a path of open ancestors, a closed set of settled invocations, and pending frames that cover the rest. |
| `ReceiptWalk.SettledDecides` | core/src/open_workflow_agent/effects.py:753-833 | When the stack is empty, the settled set is closed under dependencies and has no cycle: the white-path argument behind skipping visited invocations. |
| `RollbackJournal.JournalPrefix` | core/src/open_workflow_agent/_native_sqlite_inspection.py:78-134 | With the real big-endian words and checksums: whatever is accepted is a journal (one or more sector-aligned, zero-padded segments with right page counts and mod 2^32 checksums, and a valid closing record if the bytes end in the magic), and the answer is a prefix and name exactly when the bytes are a journal with that prefix and name. |
| `RollbackJournal.Format.Prefix` | core/src/open_workflow_agent/_native_sqlite_inspection.py:78-134 | The same soundness and completeness for any lawful word format. |
| `RollbackJournal.Format.ChainIsJournal` | core/src/open_workflow_agent/_native_sqlite_inspection.py:82-99 | A valid chain of segments on its own is a journal if and only if its bytes do not end in the magic. |
| `RollbackJournal.Format.PrefixOfChain` | core/src/open_workflow_agent/_native_sqlite_inspection.py:78-134 | For every valid chain the parser returns the whole of it without a name if and only if its bytes do not end in the magic; otherwise it rejects it or takes its end for a pointer record. |
| `RollbackJournal.UnluckyChain` | core/src/open_workflow_agent/_native_sqlite_inspection.py:82-99 | A valid one-page journal whose page data and checksum spell the magic: it is not read as itself. |
| `RollbackJournal.Format.SplitTrailer` | core/src/open_workflow_agent/_native_sqlite_inspection.py:82-99 | The closing record is cut off exactly when the bytes end in the magic and the record is well formed; a malformed one is rejected. |
| `RollbackJournal.Format.CheckPages` | core/src/open_workflow_agent/_native_sqlite_inspection.py:117-127 | The page loop accepts exactly the pages with an admissible number and the right sampled checksum. |
| `RollbackJournal.Format.CheckSegments` | core/src/open_workflow_agent/_native_sqlite_inspection.py:100-134 | The outer loop accepts exactly the byte strings that decode as a chain of segments; the final error branch is never taken. |
| `RollbackJournal.Format.SegmentsLawful` | core/src/open_workflow_agent/_native_sqlite_inspection.py:102-127 | Segments read back from their encoding and re-encode to the bytes they were read from. |
| `RollbackJournal.SumPage` | core/src/open_workflow_agent/_native_sqlite_inspection.py:120-126 | The sampling loop computes the nonce plus every 200th byte from the end, mod 2^32: the page sum that the parser compares. |
| `RollbackJournal.SumName` | core/src/open_workflow_agent/_native_sqlite_inspection.py:88-92 | The name loop computes the signed byte sum mod 2^32: the name sum that the parser compares. |
| `RollbackJournal.PowerOfTwoBits` | core/src/open_workflow_agent/_native_sqlite_inspection.py:105-111 | For every positive number, sharing no bit with the number before it is being a power of two. |
| `SectorChain.DecodeSound` | core/src/open_workflow_agent/_native_sqlite_inspection.py:103-134 | Whatever a chain decoder reads is a valid chain whose encoding is the input. |
| `SectorChain.DecodeComplete` | core/src/open_workflow_agent/_native_sqlite_inspection.py:103-134 | Every valid chain is read back from its encoding. |
| `SectorChain.AlignTo` | core/src/open_workflow_agent/_native_sqlite_inspection.py:128-128 | The rounding expression is the least multiple of the sector at or above the position. |
| `SectorChain.CheckGap` | core/src/open_workflow_agent/_native_sqlite_inspection.py:129-130 | The padding test accepts exactly all-zero gaps. |
| `ScheduleLaws.Ledger` | core/src/open_workflow_agent/_schedule_store.py:403-428 | In every state of every run a timed schedule has exactly the slots 1 to next_sequence - 1; for every/cron the i-th nominal time is `next_due` iterated i times from creation; an active "after" schedule is due exactly when no slot is unfinished, and never has two. |
| `ScheduleLaws.RowsAccepted` | core/src/open_workflow_agent/_schedule_store.py:124-161 | Every reachable state passes the store's own record, slot and binding checks. |
| `ScheduleLaws.SuccessIsFenced` | core/src/open_workflow_agent/_schedule_store.py:295-305 | Bind, renew, wait and finish succeed only with the slot's current claim. |
| `ScheduleLaws.GenerationsAscend` | core/src/open_workflow_agent/_schedule_store.py:430-448 | Over a run, generations of successful calls on a slot never go back, and rise strictly across a hand-out. |
| `ScheduleLaws.HandOutAdvances` | core/src/open_workflow_agent/_schedule_store.py:354-448 | A hand-out raises the generation by one, takes only a recoverable slot, and takes a waiting one only once its invocation is over. |
| `ScheduleLaws.HandOutIsExclusive` | core/src/open_workflow_agent/_schedule_store.py:354-448 | When a slot is handed out no earlier claim can pass the fence, then or ever after. |
| `ScheduleLaws.FinishedOnce` | core/src/open_workflow_agent/_schedule_store.py:672-706 | Each slot is finished at most once in a run. |
| `ScheduleLaws.FencedIsActive` | core/src/open_workflow_agent/_schedule_store.py:698-705 | A claim that passes the fence belongs to an active schedule, so the status guard in `finish` always holds. |
| `ScheduleLaws.ClosedIsFinal` | core/src/open_workflow_agent/_schedule_store.py:708-719 | After cancellation, or the end of a failed "after" schedule, no later call adds a slot, binds an invocation or succeeds with a claim. |
| `ScheduleLaws.BindingIsForever` | core/src/open_workflow_agent/_schedule_store.py:469-519 | A slot keeps its invocation once bound, and no other slot ever has the same one. |
| `ScheduleLaws.RunKeeps` | core/src/open_workflow_agent/_schedule_store.py:183-719 | The invariant over records, slots, bindings and claims holds in every state of every run. |
| `ScheduleStores.ScheduleStore.CreateSchedule` | core/src/open_workflow_agent/_schedule_store.py:183-252 | The store method is the `Create` step of the model. |
| `ScheduleStores.ScheduleStore.ClaimDueSlot` | core/src/open_workflow_agent/_schedule_store.py:354-428 | The scan, take-over and next-slot loop is the `ClaimDue` step. |
| `ScheduleStores.ScheduleStore.PickSlot` | core/src/open_workflow_agent/_schedule_store.py:354-402 | The first recoverable slot in scan order is chosen. |
| `ScheduleStores.ScheduleStore.BindInvocation` | core/src/open_workflow_agent/_schedule_store.py:450-467 | The store method is the `Bind` step. |
| `ScheduleStores.ScheduleStore.BindSlot` | core/src/open_workflow_agent/_schedule_store.py:469-519 | A slot is bound once, to a new invocation, or its existing binding is verified. |
| `ScheduleStores.ScheduleStore.BindTriggerInTransaction` | core/src/open_workflow_agent/_schedule_store.py:538-590 | The store method is the `BindTrigger` step. |
| `ScheduleStores.ScheduleStore.RenewClaim` | core/src/open_workflow_agent/_schedule_store.py:638-657 | The store method is the `Renew` step. |
| `ScheduleStores.ScheduleStore.MarkSlotWaiting` | core/src/open_workflow_agent/_schedule_store.py:659-670 | The store method is the `MarkWaiting` step. |
| `ScheduleStores.ScheduleStore.FinishSlot` | core/src/open_workflow_agent/_schedule_store.py:672-706 | The store method is the `Finish` step. |
| `ScheduleStores.ScheduleStore.CancelSchedule` | core/src/open_workflow_agent/_schedule_store.py:708-719 | The store method is the `Cancel` step. |
| `ChildTree.ControlSound` | core/src/open_workflow_agent/children.py:275-376 | On any tables: when the ancestry check accepts, following parent links from the child reaches the recorded root, which has no parent, in exactly the recorded number of steps, within the depth and count limits. |
| `ChildTree.ControlComplete` | core/src/open_workflow_agent/children.py:275-376 | The check accepts every honestly reserved binding in every honest state. |
| `ChildTree.BudgetsHold` | core/src/open_workflow_agent/children.py:211-235 | In every reachable state a root's counter equals its number of bindings and stays within the pinned limit, and depths stay within bound. |
| `ChildTree.UsedCountsTheTree` | core/src/open_workflow_agent/children.py:225-266 | The counter is the size of the real tree: the invocations below the root by parent links alone. |
| `ChildTree.ReserveExact` | core/src/open_workflow_agent/children.py:126-267 | A new child is admitted exactly while its depth and the root's count are within the limits pinned at first use (or configured, before that); otherwise the budget is exhausted. |
| `ChildTree.ReserveOnce` | core/src/open_workflow_agent/children.py:158-171 | Repeating an admitted request at any later time returns the same child and changes nothing. |
| `ChildTree.RunLater` | core/src/open_workflow_agent/children.py:126-485 | No run takes back a binding, an identity, a pinned limit or a detached job, and counters only grow. |
| `ChildTree.ApplyKeeps` | core/src/open_workflow_agent/children.py:126-485 | Every call keeps the tree invariant. |
| `ChildTree.ChildWorkflowStore.Reserve` | core/src/open_workflow_agent/children.py:126-273 | The store method is the `Reserve` step, with the budget row undone on failure. |
| `ChildTree.ChildWorkflowStore.VerifyControl` | core/src/open_workflow_agent/children.py:275-376 | The ancestor loop decides the ancestry predicate that the two lemmas above are about. |
| `ChildTree.ChildWorkflowStore.Enqueue` | core/src/open_workflow_agent/children.py:430-485 | The store method is the `Enqueue` step: it detaches a verified binding. |
| `Cancellation.CancelEngine.Cancel` | core/src/open_workflow_agent/engine.py:857-919 | The recursive cascade terminates and leaves exactly the closed sweep below the target; it reports failure exactly when it met a synchronous binding that fails the ancestry check. |
| `Cancellation.CancelEngine.CancelSynchronousChildren` | core/src/open_workflow_agent/engine.py:921-952 | The loop over child bindings is one sweep below an ended invocation. |
| `Cancellation.CascadeExact` | core/src/open_workflow_agent/engine.py:857-952 | A cascade cancels exactly the target and the live invocations that live synchronous bindings reach from it, and changes no other status. |
| `Cancellation.CascadeKeepsClosure` | core/src/open_workflow_agent/engine.py:857-952 | If every ended invocation had only ended synchronous children, that still holds afterwards, and cancelling an ended invocation changes nothing. |
| `Cancellation.DetachedUntouched` | core/src/open_workflow_agent/engine.py:922-929 | A detached child and everything below it is unchanged by a cancellation anywhere outside it. |
| `Cancellation.AllFollowed` | core/src/open_workflow_agent/engine.py:931-944 | On honest tables every synchronous binding passes the check, so no cascade fails. |
| `Cancellation.CancelEngine.Reconcile` | core/src/open_workflow_agent/child_wait_dispatcher.py:72-98 | One round takes the first 128 broken bindings beyond the cursor in key order, moves the cursor to the last of them (or to the start after an empty page), and ends every child it reports for its own engine. |
| `Cancellation.CancelEngine.Drain` | core/src/open_workflow_agent/child_wait_dispatcher.py:72-98 | From any statuses, repeated rounds end; exactly the live invocations orphaned below an ended invocation of this engine are then cancelled. |
| `Cancellation.RoundProgress` | core/src/open_workflow_agent/child_wait_dispatcher.py:72-98 | Every round makes progress: fewer live invocations, or a cursor that comes nearer to a binding of its own. |
| `Cancellation.ClosedByEngines` | core/src/open_workflow_agent/child_wait_dispatcher.py:72-98 | Every ended invocation has only ended synchronous children if and only if no engine's share has a broken binding. |
| `Cancellation.RepairsApart` | core/src/open_workflow_agent/child_wait_dispatcher.py:72-98 | The repair of one engine leaves the broken bindings of every other engine as they were, so the engines may repair in any order. |
| `Cancellation.RepairExact` | core/src/open_workflow_agent/child_wait_dispatcher.py:72-98 | Once nothing of this engine is broken, exactly its orphans have been cancelled. |
| `ChildWaits.RowsAccepted` | core/src/open_workflow_agent/child_waits.py:76-119 | In every reachable state each wait row passes `_registration`, each wake passes `_wake_value`, and a row is woken or consumed exactly when its wake receipt exists. |
| `ChildWaits.RunAdvances` | core/src/open_workflow_agent/child_waits.py:317-516 | Over any run a wait only moves pending, woken, consumed, keeps all its other columns, and its admission and wake receipts are written once. |
| `ChildWaits.StepAdvances` | core/src/open_workflow_agent/child_waits.py:410-516 | One call moves a wait by at most one place. |
| `ChildWaits.WakeHasCause` | core/src/open_workflow_agent/child_waits.py:441-474 | Every wake was decided at one step of the run: by the child's outcome if it had ended then, and by the deadline only if the child was unfinished and the deadline had come. |
| `ChildWaits.ScanFindsWakes` | core/src/open_workflow_agent/child_waits.py:381-408 | For a live parent the scan reports exactly the unconsumed waits that `wake` would resolve at that moment, also when now equals the deadline. |
| `ChildWaits.LinkedVerifies` | core/src/open_workflow_agent/child_waits.py:122-186 | On honest child tables `_verify_child` reduces to the links that an admission fixed. |
| `ChildWaits.ChildWaitStore.ArmWait` | core/src/open_workflow_agent/child_waits.py:317-379 | The store method is the `Arm` step. |
| `ChildWaits.ChildWaitStore.WakeWait` | core/src/open_workflow_agent/child_waits.py:410-474 | The store method is the `WakeUp` step. |
| `ChildWaits.ChildWaitStore.ConsumeWait` | core/src/open_workflow_agent/child_waits.py:492-516 | The store method is the `Consume` step. |
| `ChildWaits.ChildWaitStore.PendingKeys` | core/src/open_workflow_agent/child_waits.py:381-408 | A page is the first due keys beyond the cursor in order; bad bounds are errors. |
| `Paging.ReadAll` | core/src/open_workflow_agent/child_waits.py:381-408 | Reading page after page of unchanging keys visits every key once, in order. |
| `WaitDispatch.WaitDispatcher.Tick` | core/src/open_workflow_agent/child_wait_dispatcher.py:36-70 | A round reads the first keys beyond the cursor, stops at worker capacity, moves the cursor to the last key it reached, and wraps to the start after an empty page; with a worker free it reaches at least one key of a page. |
| `WaitDispatch.WaitDispatcher.ReachKeys` | core/src/open_workflow_agent/child_wait_dispatcher.py:49-67 | The loop over a page stops only when the workers are used up, and never takes more than there are; parents already at work take none. |
| `WaitDispatch.RoundNears` | core/src/open_workflow_agent/child_wait_dispatcher.py:36-70 | A round that is not wasted either reaches a due key or brings the cursor nearer to it. |
| `WaitDispatch.StaysDueIsReached` | core/src/open_workflow_agent/child_wait_dispatcher.py:36-70 | A key that stays due is reached within a number of effective rounds fixed by the cursor, whatever else becomes due, however pages are cut by capacity, and however many rounds find no worker free. |
| `Paging.SelectPage` | core/src/open_workflow_agent/child_wait_dispatcher.py:72-87 | The ordered, limited query returns the first keys and leaves only larger ones. |
| `EventMatching.EqualIsNormal` | core/src/open_workflow_agent/event_matching.py:35-53 | `json_equal` holds exactly when the values are the same once whole-number floats are written as integers. |
| `EventMatching.EqualIsEquivalence` | core/src/open_workflow_agent/event_matching.py:35-53 | It is reflexive, symmetric and transitive. |
| `EventMatching.EqualTextAgrees` | core/src/open_workflow_agent/event_matching.py:35-53 | Equal values without whole-number floats have one canonical text. |
| `EventMatching.DecisionAgrees` | core/src/open_workflow_agent/event_matching.py:144-203 | A decision binds what each matched filter extracts from the event, equal to everything bound before; an "all" strategy never matches a filter twice. |
| `EventMatching.DecisionsAgree` | core/src/open_workflow_agent/event_matching.py:97-203 | Over a run of events all decisions agree on every shared correlation key, across filters and steps. |
| `EventMatching.SelectedEventsAgree` | core/src/open_workflow_agent/event_matching.py:97-203 | Any two matches of one cycle, through whatever filters, extract equal values for a shared correlation name. |
| `EventMatching.AllEndsWhenMatched` | core/src/open_workflow_agent/event_matching.py:189-192 | Without a terminator an "all" cycle ends exactly when every filter has matched. |
| `Rebinding.RebindExact` | core/src/open_workflow_agent/_event_triggers.py:504-510 | A decision is refused as re-binding if and only if the terminator does not take the event and, for some name already bound, the last rule for it among the filters that hit extracts a value with another text than the bound one. |
| `Rebinding.FaultExact` | core/src/open_workflow_agent/_event_triggers.py:495-510 | An arrival stops a poll if and only if the matcher errs on it or it re-spells a bound name in that sense. |
| `Rebinding.NeverRebinds` | core/src/open_workflow_agent/_event_triggers.py:504-510 | In every reachable state, if every correlation rule extracts values without whole-number floats from the arrivals, an arrival stops a poll only when the matcher itself errs. |
| `Rebinding.PollFailsOnlyOnError` | core/src/open_workflow_agent/_event_triggers.py:465-575 | Then a poll with room fails only because the matcher errs on some arrival not yet scanned. |
| `Rebinding.RebindRun` | core/src/open_workflow_agent/_event_triggers.py:504-510 | The failure is reached: an "all" strategy with two filters, events giving 1 and then 1.0, publish, publish, poll; from then on every poll of the open trigger fails, whatever else happens in between. |
| `EventMatching.EqualTextDiffers` | core/src/open_workflow_agent/event_matching.py:35-53 | 1 and 1.0 are equal and have different canonical texts. |
| `EventMatching.MatchEvent` | core/src/open_workflow_agent/event_matching.py:97-142 | The three loops compute the filter match: static restrictions, then predicates, then correlations, with faults in that order. |
| `EventMatching.CheckRestrictions` | core/src/open_workflow_agent/event_matching.py:110-126 | Static restrictions are decided before any payload predicate is evaluated. |
| `EventMatching.ExtractBindings` | core/src/open_workflow_agent/event_matching.py:130-142 | The correlation loop computes the extracted bindings, or rejects. |
| `EventMatching.DecideEvent` | core/src/open_workflow_agent/event_matching.py:144-203 | The recursive matcher with a nested terminator computes the decision function. |
| `EventTriggerLaws.BatchingIrrelevant` | core/src/open_workflow_agent/_event_triggers.py:465-575 | Two histories with the same arrivals that have consumed everything hold the same completed cycles (selected events, correlations, matched filters, cursors) and the same current cycle, whatever their batch sizes, pruning and failures. |
| `EventTriggerLaws.PolledIsFolded` | core/src/open_workflow_agent/_event_triggers.py:465-575 | At every moment the stored cycles are those of the matcher folded one at a time over the consumed arrivals. |
| `EventTriggerLaws.QuiescentIsFolded` | core/src/open_workflow_agent/_event_triggers.py:465-575 | With nothing left to scan they are those of the whole log. |
| `EventTriggerLaws.PollsDrain` | core/src/open_workflow_agent/_event_triggers.py:465-575 | Enough polls, of any batch sizes, consume a log on which the matcher does not fault. |
| `EventTriggerLaws.PollAdvances` | core/src/open_workflow_agent/_event_triggers.py:492-533 | A poll with room either finds nothing to do or moves the cursor on. |
| `EventTriggerLaws.EvidenceAccepted` | core/src/open_workflow_agent/_event_triggers.py:318-399 | Every state reached by registration, polls, closing, arrivals and pruning is accepted by `_read`. |
| `EventTriggerLaws.ApplyKeeps` | core/src/open_workflow_agent/_event_triggers.py:151-596 | Every call keeps the invariant that implies all of these. |
| `EventTriggerLaws.CyclesTile` | core/src/open_workflow_agent/_event_triggers.py:225-234 | Cycles cover consecutive stretches of the arrivals from 0 to the cursor, each with its selections inside its stretch in order. |
| `EventTriggerLaws.SelectedOnce` | core/src/open_workflow_agent/_event_triggers.py:516-523 | No arrival is selected twice, in one cycle or in two. |
| `EventTriggerLaws.OneInvocationEach` | core/src/open_workflow_agent/_event_triggers.py:546-569 | Completed ordinals are 1 to ordinal - 1, each bound to its own invocation with the projected input. |
| `TriggerBinding.BindIsBindTrigger` | core/src/open_workflow_agent/_schedule_store.py:538-590 | Binding a finished cycle in the trigger model is what the schedule store does to its rows: one refuses exactly when the other does, both answer with the same invocation, and the rows still agree. |
| `TriggerBinding.RowsAgree` | core/src/open_workflow_agent/_schedule_store.py:538-590 | Throughout any run of the schedule store the trigger's slots are the schedule's rows for its cycles. |
| `TriggerBinding.RowsStay` | core/src/open_workflow_agent/_schedule_store.py:183-719 | Every other call of the schedule store, cancellation included, leaves the rows as the trigger knows them. |
| `TriggerBinding.CycleIsForever` | core/src/open_workflow_agent/_event_triggers.py:546-569 | A bound cycle keeps its slot and its invocation for the rest of the run, and no other cycle ever has that invocation. |
| `EventTriggerLaws.StoredFromInterval` | core/src/open_workflow_agent/_event_triggers.py:492-530 | A stored cycle is the matcher carried over exactly the arrivals between its start and its cursor. |
| `EventTriggerLaws.StoredSelections` | core/src/open_workflow_agent/_event_triggers.py:504-523 | Its selections are the events of the non-terminator decisions taken there. |
| `EventTriggerLaws.StoredSelectionsAgree` | core/src/open_workflow_agent/_event_triggers.py:504-523 | Any two selected events of a stored cycle were selected by decisions whose filters extract equal values for every correlation name they share. |
| `EventTriggerLaws.FaultNeverPassed` | core/src/open_workflow_agent/_event_triggers.py:495-510 | No run moves the cursor past an arrival on which the one-at-a-time fold faults. |
| `EventTriggerLaws.StuckForGood` | core/src/open_workflow_agent/_event_triggers.py:465-575 | Once the next arrival to scan faults, it does so after every later run, and the cursor never moves again. |
| `EventTriggerLaws.StuckFails` | core/src/open_workflow_agent/_event_triggers.py:495-510 | Every poll of an open, active trigger in that state fails and changes nothing. |
| `EventCycles.ScanFolds` | core/src/open_workflow_agent/_event_triggers.py:495-530 | A batch has the effect of the arrivals it consumed, taken one at a time. |
| `EventCycles.FoldIntervals` | core/src/open_workflow_agent/_event_triggers.py:492-570 | Every cycle of the fold comes from exactly its own interval of arrivals. |
| `EventTriggerStores.EventTriggerStore.Read` | core/src/open_workflow_agent/_event_triggers.py:318-399 | The validator, with its loop over completed cycles, decides the acceptance predicate. |
| `EventTriggerStores.EventTriggerStore.VerifyDecisions` | core/src/open_workflow_agent/_event_triggers.py:304-316 | The saved steps are numbered without gaps and end in the cycle itself. |
| `EventTriggerStores.EventTriggerStore.VerifySelected` | core/src/open_workflow_agent/_event_triggers.py:246-268 | Selections are evidenced, unchanged and strictly ordered. |
| `EventTriggerStores.EventTriggerStore.ScanBatch` | core/src/open_workflow_agent/_event_triggers.py:492-530 | The loop over a batch stops at the first decision or fault. |
| `EventTriggerStores.EventTriggerStore.CommitCycle` | core/src/open_workflow_agent/_event_triggers.py:533-575 | Pin, selections and saved step, and for a finished cycle its slot, its row and the next head, change together or not at all. |
| `EventTriggerStores.EventTriggerStore.CompleteCycle` | core/src/open_workflow_agent/_event_triggers.py:539-575 | A finished cycle is bound to one invocation with its projected input, and the next cycle starts at its cursor. |
| `EventTriggerStores.EventTriggerStore.PollTrigger` | core/src/open_workflow_agent/_event_triggers.py:465-575 | The store method is the `Poll` step, registration and rollback included. |
| `EventTriggerStores.EventTriggerStore.CloseTrigger` | core/src/open_workflow_agent/_event_triggers.py:577-596 | The store method is the `Close` step. |
| `FunctionDepth.DepthChecker.Check` | core/src/open_workflow_agent/definitions.py:108-134 | Functions are accepted exactly when no call chain is longer than 32, which implies that the call graph is acyclic, in whatever order names and dependencies are taken; the memo then holds the true longest-chain lengths. |
| `FunctionDepth.DepthChecker.Visit` | core/src/open_workflow_agent/definitions.py:110-131 | A memoised height is the true one, a recursion error comes with a real cycle and a depth error with a real chain of more than 32. |
| `FunctionDepth.BoundedIsAcyclic` | core/src/open_workflow_agent/definitions.py:111-120 | Bounded chains exclude cycles. |
| `FunctionDepth.DepthChecker.Callees` | core/src/open_workflow_agent/definitions.py:123-125 | The loop over the callees leaves all of them memoised and returns the greatest of their heights. |
| `Definitions.CheckFunctions` | core/src/open_workflow_agent/definitions.py:78-134 | The functions of a document are accepted if and only if no chain of calls, found anywhere in their definitions, is longer than 32; then no function calls itself, directly or not. |
| `Definitions.GraphEdges` | core/src/open_workflow_agent/definitions.py:81-103 | One function has an edge to another exactly when some task that the resolver visits inside the first calls the second by name. |
| `JsonPointers.TokenRoundTrip` | core/src/open_workflow_agent/definitions.py:12-19 | Undoing ~1 and then ~0 inverts the escaping of every string. |
| `JsonPointers.NoSlash` | core/src/open_workflow_agent/definitions.py:12-13 | An escaped token contains no slash. |
| `JsonPointers.PointerRoundTrip` | core/src/open_workflow_agent/definitions.py:16-19 | Reading a printed pointer gives its tokens back exactly when there is a first token and it is not empty or is the only one. |
| `JsonPointers.EmptyPointerMisread` | core/src/open_workflow_agent/definitions.py:16-26 | The empty pointer, which names the whole document in RFC 6901, is looked up as the member "". |
| `JsonPointers.DefinitionAtPointer` | core/src/open_workflow_agent/definitions.py:16-26 | The walking loop follows the unescaped tokens through members and list items. |
| `JsonPointers.MainTaskFound` | core/src/open_workflow_agent/definitions.py:44-74 | The reference built for any nested task (do, try, catch, foreach, fork branch) leads back to exactly that task. |
| `JsonPointers.FunctionTaskFound` | core/src/open_workflow_agent/definitions.py:44-76 | So does the reference built inside a reusable function, whatever its name. |
| `JsonPointers.CallsAreTasks` | core/src/open_workflow_agent/definitions.py:81-103 | The functions a definition calls are those called by the tasks the resolver visits in it. |
| `BoundedMemory.CountersMirror` | core/src/open_workflow_agent/bounded_memory.py:277-403 | After any run of add, delete and prune the stored counts equal the table's and respect the limits, and the service accepts the namespace exactly while its next id is below 2^63 - 1. |
| `BoundedMemory.RunMirrors` | core/src/open_workflow_agent/bounded_memory.py:405-576 | Every call keeps counters, limits, id order and entry shape. |
| `BoundedMemory.IdsNeverReused` | core/src/open_workflow_agent/bounded_memory.py:446-500 | A later add returns a larger id than any earlier one. |
| `BoundedMemory.IdsRunOut` | core/src/open_workflow_agent/bounded_memory.py:297-305 | Once the next id reaches 2^63 - 1 every call is refused for good. |
| `BoundedMemory.ExhaustionReached` | core/src/open_workflow_agent/bounded_memory.py:297-305 | That state is reached by a run of adds and deletes alone, so acceptance is not kept for ever. |
| `BoundedMemory.AddExact` | core/src/open_workflow_agent/bounded_memory.py:446-500 | An add is admitted exactly when its entry fits beside what the sweep leaves. |
| `BoundedMemory.SweepRemovesExpired` | core/src/open_workflow_agent/bounded_memory.py:405-420 | A sweep removes expired entries only, lowest ids first, and leaves one behind only at its limit. |
| `BoundedMemory.BoundedMemoryService.Remove` | core/src/open_workflow_agent/bounded_memory.py:410-419 | The deletion loop keeps both counters in step with the rows. |
| `BoundedMemory.BoundedMemoryService.AddEntry` | core/src/open_workflow_agent/bounded_memory.py:446-500 | The service method is the `Add` step, with its sweep undone on failure. |
| `BoundedMemory.BoundedMemoryService.DeleteEntry` | core/src/open_workflow_agent/bounded_memory.py:545-576 | The service method is the `Delete` step. |
| `BoundedMemory.BoundedMemoryService.PruneExpired` | core/src/open_workflow_agent/bounded_memory.py:422-444 | The service method is the `PruneDue` step. |
| `BoundedMemory.BoundedMemoryService.Search` | core/src/open_workflow_agent/bounded_memory.py:503-543 | Search returns the best entries among the live, matching ones, ranked by score, age and id, up to the limit. |
| `TaskStreams.AcceptedExactly` | core/src/open_workflow_agent/a2a_streaming.py:92-163 | For all limits, sessions, first and later states: the client accepts what is served if and only if the snapshot fits and either its state is a last one, or it asks for input and nothing more is sent, or it is working and the first change is sent in full, under the snapshot's context, with nothing after it if it asks for input. |
| `TaskStreams.ServedIsAccepted` | core/src/open_workflow_agent/a2a_streaming.py:92-163 | Seen from the frames: a served stream of at most 64 frames is accepted exactly when its snapshot went out, its updates carry the snapshot's context, and the first state final for the client is on the last frame. |
| `TaskStreams.UncutRun` | core/src/open_workflow_agent/a2a_streaming.py:115-159 | An uncut run from working to completed, failed or cancelled is accepted with one identity; a completed one carries its output before its status. |
| `TaskStreams.ResumedIsRefused` | core/src/open_workflow_agent/a2a_streaming.py:124-159 | For all limits and later states: if the server sends anything after a request for input, whether that came with the snapshot or as the first change, the client refuses the stream. |
| `TaskStreams.SkippedIsRefused` | core/src/open_workflow_agent/a2a_streaming.py:107-159 | A snapshot beyond the limits is skipped; whatever the server streams after that is refused. |
| `TaskStreams.ServeShape` | core/src/open_workflow_agent/a2a_streaming.py:92-163 | Only the first frame is a task, updates keep one identity, and a last state comes only at the end. |
| `TaskStreams.ServeWithin` | core/src/open_workflow_agent/a2a_streaming.py:98-107 | The frames of every stream are within the event and byte limits. |
| `TaskStreams.StreamTask` | core/src/open_workflow_agent/a2a_streaming.py:92-163 | The generator loop with its event and byte counters produces the served stream. |
| `TaskStreams.ReadStream` | core/src/open_workflow_agent/a2a_client.py:358-407 | The client's frame loop accepts exactly the streams that start with a task, keep one identity and end with their first final state. |
| `EventFrames.FramesRoundTrip` | core/src/open_workflow_agent/a2a_streaming.py:38-40 | The client reads back every payload the server framed, and refuses more than 64 frames or a payload of more than 1048576 bytes. |
| `EventFrames.ReadText` | core/src/open_workflow_agent/a2a_client.py:350-383 | The client's loops over blocks and lines compute the payloads, or reject. |
| `JsonText.WritePeel` | core/src/open_workflow_agent/a2a_streaming.py:38-40 | No JSON text that `json.dumps` writes is the beginning of another, up to a delimiter: what is written can be read as one value only. |
| `JsonText.WriteOneLine` | core/src/open_workflow_agent/a2a_streaming.py:38-40 | Written JSON holds no line break, so that a payload is one data line. |
| `StreamJson.PayloadsDiffer` | core/src/open_workflow_agent/a2a_tasks.py:48-118 | A payload determines the kind of frame, its identity and state, and the output or error code it carries. |
| `StreamText.AcceptedFromText` | core/src/open_workflow_agent/a2a_client.py:350-407 | From the response text, for all limits, ids, first and later states: the client accepts what the server writes if and only if the stream ends well in the sense of `EndsWell` and no payload is over the client's limit; under a byte limit not above the client's, none is. |
| `StreamText.ParserExists` | core/src/open_workflow_agent/a2a_client.py:383-387 | A parser that reads back every payload exists, so the theorem before it is about something. |
| `StreamText.Receive` | core/src/open_workflow_agent/a2a_client.py:350-407 | Reading the text, parsing the payloads and checking the frames in turn computes acceptance. |
| `StreamText.TaskSize` | core/src/open_workflow_agent/a2a_tasks.py:48-104 | The exact number of bytes of a snapshot of a working task or of one that asks for input. |
| `StreamText.StatusSize` | core/src/open_workflow_agent/a2a_streaming.py:38-48 | The exact number of bytes of a status update. |
| `StreamText.SnapshotFits` | core/src/open_workflow_agent/a2a_streaming.py:121-123 | From 2500 bytes on no snapshot of a task that goes on is skipped; the running server allows 1048576. |
| `StreamText.SkippedExample` | core/src/open_workflow_agent/a2a_streaming.py:121-159 | A stream under limits that the runtime accepts, with 36-character ids: a snapshot of 515 bytes (and the request id) is skipped, an update of 265 is sent, and the client refuses it. |
| `StreamText.ResumedExample` | core/src/open_workflow_agent/a2a_streaming.py:124-159 | At the running server's limits of 100 events and 1048576 bytes, a task that works, asks for input, works and completes is served in five frames, which the client refuses. |

## Left out

- EventTriggerStores.EventTriggerStore.PollTrigger: the capacity and size limits are flags of the call, because the
  counts they compare with span all schedules.
- EventTriggerStores.EventTriggerStore.CommitCycle: the same flags; the size of a saved step or cycle is not computed.
- EventTriggerStores.EventTriggerStore.CompleteCycle: the same flag for the cycle row.
- EventTriggers: one schedule at a time; its id, fingerprint, scope and profile columns are constants, and arrivals of
  other scopes only move the arrival counter.
- ChildTree.ChildWorkflowStore.Enqueue: the parent's return decision and its receipt are not modelled, only the job row.
- ChildWaits.ChildWaitStore.WakeWait: a captured outcome is the child's whole record; the provenance digests beside it
  are not modelled, and a capture of that record does not fail.
- Cancellation.CancelEngine.Cancel: tokens, timers, event subscriptions and lifecycle events that accompany a status
  change are not modelled, and the cascade runs without interleaving: no other control write races with it.
- WaitDispatch.WaitDispatcher.Tick: the call for one given key, and the work handed to a worker, are not modelled; a row
  that cannot be read takes no worker, like a parent already at work.
- JsonPointers.DefinitionAtPointer: list indices are ASCII digits; other decimal scripts are not modelled.
- JsonPointers.MainTaskFound: the replacement of named timeouts, errors and retries by their definitions is not modelled.
- FunctionDepth.DepthChecker.Check: which of the two errors is raised first depends on iteration order and is left open.
- BoundedMemory.BoundedMemoryService.AddEntry: that stored metadata re-encodes to itself is taken for granted.
- TaskStreams.ReadStream: schema validation of a frame and the single-message reply are not modelled.
- StreamText.AcceptedFromText: the client's JSON parser is any function that reads back what the server writes; ids of
  more than 200 characters or with line breaks, which the runtime does not make, are left out.
- StreamJson.PayloadsDiffer: an output is a JSON value; the base64 form of an output of bytes is not modelled.
- EffectJournal policy verifiers (approvals, gRPC and external receipts) are a function of the receipt.
- HTTP routing, configuration, authentication, the agent-role catalogue and the command line: single-branch checks.
- The asynchronous parts of the engine: heartbeats, futures, preflights and native resume.
- SQL dialects, migrations, file snapshots, hashing and UTF-8 decoding.
- Tampered tables, except that acceptance by the ancestry check and the receipt walk is characterised on any tables.
