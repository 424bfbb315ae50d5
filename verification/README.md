# Verification of the agent daemon's core

This project models the parts of the daemon whose correctness is hardest to see from one
function at a time, and proves what they promise over every input and every run.

- **Pause, approve, resume.** A tool call can pause a run. The loop's state is stored in an
  approval record, a person resolves the record over HTTP, and the daemon queues the task
  again so that the batch goes on at the same step. `AgentLoop` is the run loop and its
  snapshots, `ApprovalStore` the locked approvals file, `TaskStore` the task table with its
  bounded queue, and `DaemonProtocol` the interleaving of submitters, approvers, deniers,
  resumers and the single worker; `DaemonNaming` says exactly when a final answer that names an
  approval can get it accepted twice.
- **Receiving from peers.** `DataPush` is the receiver with its rate windows, expiring
  idempotency records and inbox; `TrustRegistry` is the contact registry with its trust
  states and audit log.
- **Memory documents.** `MemorySections` and `MemoryItems` read the Markdown of memory files;
  `ShortTerm` and `ShortTermRoundTrip` print and read short-term bodies, `LongTerm` long-term
  ones, and `LongTermExact` says exactly which come back; `TaskIndex` is the frontmatter index
  over the to-do items and `TaskIndexTitles` what titles can do to it; `LongTermMerge` is the
  keyed merge with its "(added date)" stamps and the size limits, and `LongTermRuns` what
  becomes of a stamp when the file is read, merged and written over and over.
- **JSON scanners.** `JsonScanner` cuts the first object out of free text; `StrictJson`
  validates the strict profile on a decoder's token stream.
- **Stores.** `JsonlWriter` is the rotating log writer, `Contacts` the contact store over two
  files with its rebalancing.

`Text`, `Sorting`, `MemoryLines`, `KeyPlaces`, `Runs` and `Wrappers` hold what the others share.
Code that changes state in the source is a class or a method with loops here, proved equal to a
function of the old state; the lemmas are about those functions. Strings are sequences of
characters, `TrimSpace` and `ToLower` are those of ASCII, times are numbers.

Properties that turned out false of the code are kept as results, each with its exact
condition:

- `Revoked` can be left (`TrustRegistry.RevokedIsLeftIff`).
- An approval id named in a final answer can be accepted for resume twice
  (`DaemonNaming.NamingDoublesIff`, and a run from the start in
  `DaemonNaming.NamedApprovalIsAcceptedTwice`).
- A link line with its brackets the wrong way round makes the reader's slice expression panic
  (`MemoryItems.LinkLinePanicsIff` for a line, `ShortTermRoundTrip.ReadingPanicsIff` for a file).
- A title of several lines can make the index disagree with the body
  (`TaskIndexTitles.UpdatesKeepIndexIff`).
- Long-term content does not always come back from its file (`LongTermExact.RoundTripIff`), and
  so a long-term item can lose its "(added date)" stamp (`LongTermRuns.StampIsLostIff`, and a
  run in which it happens in `LongTermRuns.StampCanBeLost`).
- Creating a record under an id in use loses the old one
  (`ApprovalStore.CreateKeepsRecordsIff`).

Check everything with `dafny verify dfyconfig.toml`.

## Model

| member | source | states |
|---|---|---|
| `DaemonProtocol.AcceptedAtMostOnce` | cmd/mistermorph/daemoncmd/daemon_queue.go:123-163 | in every run of the daemon, however its handlers and worker interleave, no approval id is accepted for resume twice, given fresh approval ids |
| `DaemonProtocol.ResumeAlwaysHasContext` | agent/engine_resume.go:22-40 | when the worker resumes a task its approval is approved, so the pending answer without a run context never reaches the worker |
| `DaemonNaming.NamingDoublesIff` | cmd/mistermorph/daemoncmd/serve.go:154-170 | when a run ends with an answer naming an approval, the approval can be accepted twice later if and only if it was accepted before, or another task waits for it and its record is not denied |
| `DaemonNaming.NamedApprovalIsAcceptedTwice` | cmd/mistermorph/daemoncmd/serve.go:520-541 | from every start a run comes to a point where one such answer lets a run accept the approval twice |
| `DaemonNaming.DoublingCanHappen` | cmd/mistermorph/daemoncmd/daemon_queue.go:123-163 | where the condition holds a run with two acceptances follows, whatever is in line and however full the queue is |
| `DaemonNaming.NeverTwice` | cmd/mistermorph/daemoncmd/daemon_queue.go:123-163 | where it does not, no run accepts the approval twice |
| `DaemonNaming.NamedIsHarmless` | cmd/mistermorph/daemoncmd/serve.go:154-170 | why: nobody can resume for the approval any more, or one task only |
| `DaemonNaming.Drain` | cmd/mistermorph/daemoncmd/serve.go:120-212 | the worker can empty the line and leaves every other task and all approvals as they were |
| `DaemonProtocol.QueueInvariant` | cmd/mistermorph/daemoncmd/daemon_queue.go:77-91 | in every reachable state no task is in line twice, each queued task is in exactly one place, and at most one task is running |
| `DaemonProtocol.SettledForever` | cmd/mistermorph/daemoncmd/serve.go:120-212 | a finished task that is neither in line nor with the worker keeps its status for good |
| `DaemonProtocol.DeniedNeverRuns` | cmd/mistermorph/daemoncmd/serve.go:407-417 | once a deny has failed a task, no run of it reaches the tool loop again, even if it was already queued for resume, and it never becomes pending or done |
| `DaemonProtocol.DeniedInQueueEndsCanceled` | cmd/mistermorph/daemoncmd/serve.go:126-187 | a denied task the worker still takes goes back to running and ends canceled, over the failed status of the deny |
| `DaemonProtocol.InvKept` | cmd/mistermorph/daemoncmd/serve.go:120-212 | every step of every party keeps the invariant on queue, worker, approvals and history |
| `DaemonProtocol.InvAlways` | cmd/mistermorph/daemoncmd/serve.go:120-212 | the invariant holds after any run |
| `DaemonProtocol.EnqueueResumeKeepsInv` | cmd/mistermorph/daemoncmd/serve.go:419-440 | an accepted resume was never accepted before, and keeps the invariant |
| `DaemonProtocol.DenyFailKeepsInv` | cmd/mistermorph/daemoncmd/daemon_queue.go:175-197 | failing a pending task keeps the invariant, wherever the task is |
| `DaemonProtocol.WorkerStoreKeepsInv` | cmd/mistermorph/daemoncmd/serve.go:154-187 | storing what a run ended with keeps the invariant, for a pause, an error and an end |
| `DaemonProtocol.WorkerRunKeepsInv` | agent/engine_resume.go:22-85 | starting or resuming a run keeps the invariant, for each of Resume's checks |
| `TaskStore.TaskStore.constructor` | cmd/mistermorph/daemoncmd/daemon_queue.go:34-42 | an empty table and an empty queue; a limit that is not positive means 100 |
| `TaskStore.TaskStore.Enqueue` | cmd/mistermorph/daemoncmd/daemon_queue.go:52-91 | the task is in the table and last in line, or the queue is full and nothing has changed |
| `TaskStore.TaskStore.InsertTask` | cmd/mistermorph/daemoncmd/daemon_queue.go:64-79 | a new queued task under its id, nothing else changed |
| `TaskStore.TaskStore.TrySend` | cmd/mistermorph/daemoncmd/daemon_queue.go:81-83 | sends exactly when the queue is not full, and never blocks |
| `TaskStore.TaskStore.Discard` | cmd/mistermorph/daemoncmd/daemon_queue.go:84-90 | undoes an insertion completely |
| `TaskStore.TaskStore.Next` | cmd/mistermorph/daemoncmd/daemon_queue.go:105-107 | takes the first task in line |
| `TaskStore.TaskStore.Update` | cmd/mistermorph/daemoncmd/daemon_queue.go:113-121 | changes the one task's visible part by the callback; an unknown id changes nothing |
| `TaskStore.TaskStore.FindWaiting` | cmd/mistermorph/daemoncmd/daemon_queue.go:131-147 | finds a pending task that waits for the approval if and only if there is one |
| `TaskStore.TaskStore.EnqueueResumeByApprovalID` | cmd/mistermorph/daemoncmd/daemon_queue.go:123-163 | a waiting task that was not queued is marked and put in line; each error leaves everything as it was and says why |
| `TaskStore.TaskStore.Requeue` | cmd/mistermorph/daemoncmd/daemon_queue.go:153-162 | marks and sends the task, or takes the mark back when the queue is full |
| `TaskStore.TaskStore.FailPendingByApprovalID` | cmd/mistermorph/daemoncmd/daemon_queue.go:165-199 | fails and cancels a task that waits for the approval; with none, nothing changes |
| `TaskStore.TaskStore.Fail` | cmd/mistermorph/daemoncmd/daemon_queue.go:186-196 | the task is failed with the text and its context cancelled, nothing else changed |
| `AgentLoop.PauseResumeIsStraight` | agent/engine_loop.go:232-423 | a batch paused at any call, stored and resumed after approval leaves the same messages, step records (errors by text), plan and counters as the batch run straight through with approvals granted |
| `AgentLoop.ResumedStepIsStraight` | agent/engine_loop.go:71-81 | the resumed iteration ends where the straight one would have, with no pending batch and no approval left over |
| `AgentLoop.StraightReachesPause` | agent/engine_loop.go:433-502 | granting approvals changes nothing before the first call that needs one |
| `AgentLoop.BatchAlike` | agent/engine_loop.go:399-419 | a batch that completes from one state completes alike from a state that differs in error values and has counted fewer repeats |
| `AgentLoop.ChainAsksEachStepOnce` | agent/engine_loop.go:52-146 | over a chain of pauses and resumes, in-loop model calls happen at strictly rising steps below the limit, each step pauses at most once, and at most one closing call is forced |
| `AgentLoop.RunClimbs` | agent/engine_helpers.go:13-60 | one run asks at rising steps within its bounds, and a pause lies at its last step |
| `AgentLoop.RunAsksAnswered` | agent/engine_loop.go:82-95 | at every in-loop model call every tool call in the conversation has been answered, once and in order; a pause hands over exactly the stored calls as open |
| `AgentLoop.ChainAsksAnswered` | agent/engine_resume.go:71-84 | the same over a chain of pauses and resumes |
| `AgentLoop.AllAnsweredMeans` | agent/engine_loop.go:387-397 | message by message: an assistant message with calls is followed at once by one answer per call, in call order and under its own id, and by no further tool message |
| `AgentLoop.BatchAnswers` | agent/engine_loop.go:254-420 | a completed batch answers all its calls; a paused one leaves open the paused call and the rest |
| `AgentLoop.UsableKeepsAll` | agent/tools_adapter.go:34-54 | calls with proper names and trimmed ids are all kept, with their ids |
| `AgentLoop.ToAgentToolCalls` | agent/tools_adapter.go:34-54 | calls with a blank name are dropped, the others trimmed, in order |
| `AgentLoop.SnapshotFromContext` | agent/engine_runstate.go:66-85 | one record per step, an error by its text |
| `AgentLoop.ContextFromSnapshot` | agent/engine_runstate.go:94-109 | one step per record; an empty error text is no error |
| `AgentLoop.Engine.ExecuteToolWithGuard` | agent/engine_loop.go:433-546 | the outcome of one call under the guard's words before and after it, or a pause |
| `AgentLoop.Engine.FinishCall` | agent/engine_loop.go:305-419 | the state after one result: record, plan, answer, repeat counter, and whether the batch stops |
| `AgentLoop.Engine.RunBatch` | agent/engine_loop.go:254-420 | the loop over a batch leaves the state of the specified batch, paused or not |
| `AgentLoop.Engine.RunTools` | agent/engine_loop.go:242-423 | the assistant message once, then the batch, then nothing pending |
| `AgentLoop.Engine.RunReply` | agent/engine_loop.go:96-231 | what a reply does: budget, retries, missing plan, plan, final answer or tools |
| `AgentLoop.Engine.RunStep` | agent/engine_loop.go:52-146 | one pass through the loop and what it showed the model |
| `AgentLoop.Engine.RunLoop` | agent/engine_loop.go:43-431 | the whole run equals the specified run: its model calls and its end |
| `ApprovalStore.StepIsAtomic` | internal/fsstore/atomic.go:23-68 | the steps of lock, load, temp file and rename, with failures and crashes, change what readers see only at the rename, which applies exactly the holder's operation to the current table |
| `ApprovalStore.ApprovalsAreWriteOnce` | guard/approvals_file.go:97-135 | over any interleaving no committed record is lost, what was asked never changes, and a resolved record never changes again |
| `ApprovalStore.OneResolutionTakesEffect` | guard/approvals_file.go:115-134 | of all resolves of a record exactly one takes effect if it ends resolved, and none otherwise |
| `ApprovalStore.SuccessMeansResolved` | guard/approvals_file.go:120-134 | a resolve that reports success leaves no open record |
| `ApprovalStore.CreateKeepsRecordsIff` | guard/approvals_file.go:64-74 | a create keeps all records if and only if its id is new or it writes what is there |
| `ApprovalStore.InvKept` | internal/fsstore/lock_unix.go:14-44 | every step keeps mutual exclusion, a readable file, and the holder's copy equal to the file |
| `ApprovalStore.FreshInvKept` | guard/approvals_file.go:58-62 | creates in flight keep distinct ids that are not in the file |
| `ApprovalStore.StartIsGood` | guard/approvals_file.go:137-156 | before the first write everything holds |
| `ApprovalStore.FileApprovalStore.Create` | guard/approvals_file.go:42-75 | one new pending record with its defaults under the trimmed or drawn id |
| `ApprovalStore.FileApprovalStore.Get` | guard/approvals_file.go:77-95 | the record under the trimmed id, none for a blank or unknown one |
| `ApprovalStore.FileApprovalStore.Resolve` | guard/approvals_file.go:97-135 | resolves an open record; an unknown or resolved one succeeds without change; a blank id or a bad status is an error |
| `DataPush.SecondDeliveryMeansEviction` | maep/node.go:583-637 | if a key is delivered twice within its time to live, at least the maximum number of other keys were recorded between the two |
| `DataPush.RedeliveryWasCrowded` | maep/node.go:583-603 | the same for the next push, before it is handled |
| `DataPush.RecordsStayBounded` | maep/file_store.go:421-531 | over any serial run keys stay unique and the records never exceed the maximum |
| `DataPush.PruneKeepsIff` | maep/file_store.go:491-525 | pruning keeps a record if and only if it has not expired and fewer than the maximum unexpired records come before it |
| `DataPush.PruneKeepsUnique` | maep/file_store.go:467-531 | pruning keeps keys unique and leaves at most the maximum |
| `DataPush.PutKeepsUnique` | maep/file_store.go:427-464 | a put replaces its key's record and keeps all others |
| `DataPush.InboxIsDelivered` | maep/node.go:605-619 | the inbox holds exactly the delivered pushes, in order |
| `DataPush.RateIsLimited` | maep/node.go:781-806 | no peer gets more than its limit through in any clock minute |
| `DataPush.Receiver.constructor` | maep/node.go:1038-1076 | an empty mailbox under options that are never out of range |
| `DataPush.Receiver.AllowDataPush` | maep/node.go:781-806 | the answer and the windows after one call |
| `DataPush.Receiver.GetDedupeRecord` | maep/file_store.go:388-419 | finds an unexpired record of the key if and only if there is one |
| `DataPush.Receiver.PutDedupeRecord` | maep/file_store.go:421-465 | the records after replacing or appending |
| `DataPush.Receiver.PruneDedupeRecords` | maep/file_store.go:467-531 | the records after dropping the expired and the oldest, and how many went |
| `DataPush.Receiver.Deliver` | maep/node.go:589-619 | one record put and pruned, one message appended |
| `DataPush.Receiver.HandleDataPush` | maep/node.go:540-637 | the response and the whole new mailbox, error cases in the source's order |
| `TrustRegistry.RunsKeepUnique` | maep/service.go:90-135 | over any imports and verifications peer ids and non-empty node uuids stay unique |
| `TrustRegistry.RunsNeverGoBack` | maep/service.go:258-265 | Conflicted is never left, Verified never weakens, no blocked contact becomes usable, and none becomes Revoked |
| `TrustRegistry.RevokedIsLeftIff` | maep/service.go:90-130 | Revoked is left exactly when a conflicting import hits the contact, and then for Conflicted |
| `TrustRegistry.RevokedCanBeLeft` | maep/service.go:111-130 | a registry and an import for which it happens |
| `TrustRegistry.AuditTellsTheStates` | maep/service.go:243-256 | the log of any run chains, and replaying it gives exactly the stored trust states |
| `TrustRegistry.RunsKeepContacts` | maep/file_store.go:153-176 | contacts are never lost and keep their first creation time |
| `TrustRegistry.PutFinds` | maep/file_store.go:147-177 | a put changes what is found under its own peer and nothing else |
| `TrustRegistry.PutKeepsUnique` | maep/file_store.go:153-176 | a put that fits keeps both kinds of id unique |
| `TrustRegistry.FileStore.GetContactByPeerID` | maep/file_store.go:107-125 | the first contact with the trimmed peer id, if any |
| `TrustRegistry.FileStore.GetContactByNodeUUID` | maep/file_store.go:127-145 | the first contact with the trimmed node uuid, if any |
| `TrustRegistry.FileStore.PutContact` | maep/file_store.go:147-177 | the contacts after the put, replaced or appended, sorted |
| `TrustRegistry.FileStore.AppendAuditEvent` | maep/file_store.go:195-216 | one event behind the log |
| `TrustRegistry.Service.Save` | maep/service.go:171-180 | the contact stored and its state logged |
| `TrustRegistry.Service.ImportContactCard` | maep/service.go:76-183 | the outcome and the whole new registry: rejected, conflict, update or creation |
| `TrustRegistry.Service.MarkContactVerified` | maep/service.go:220-241 | the outcome and the whole new registry: unknown, blocked or verified |
| `Contacts.PutsKeepFilesConsistent` | contacts/file_store.go:85-126 | after any puts each id is in exactly one file, once, under its last status, with its first creation time |
| `Contacts.PutPlaces` | contacts/file_store.go:92-125 | the contact is in the file of its status only, the others where they were |
| `Contacts.PutCreations` | contacts/file_store.go:442-455 | known contacts keep their creation time, only a new one starts |
| `Contacts.RebalancingKeepsContacts` | contacts/service.go:768-805 | rebalancing leaves at most 150 contacts active, exactly 150 of more, loses or adds no id and changes no creation time |
| `Contacts.RebalancingKeepsTheBest` | contacts/service.go:786-803 | each contact kept active outranks, by score and then id, each one moved out |
| `Contacts.FileStore.RemoveContactByID` | contacts/file_store.go:442-455 | the items without the id, and its last set creation time |
| `Contacts.FileStore.PutContact` | contacts/file_store.go:85-126 | both files after the put |
| `Contacts.FileStore.Recompute` | contacts/service.go:781-785 | each contact with its new score, in order |
| `Contacts.FileStore.RebalanceActiveContacts` | contacts/service.go:768-805 | both files after filing the listed contacts by rank, unchanged when there are few |
| `Contacts.FileStore.PutByRank` | contacts/service.go:793-803 | the files after the puts in rank order |
| `JsonlWriter.NothingIsLost` | internal/fsstore/jsonl.go:93-139 | rotated files in order and the current file hold what was found and then the records, in order, cut only where a record did not fit |
| `JsonlWriter.OnlySingleRecordsExceed` | internal/fsstore/jsonl.go:118-139 | from a file within the limit, only a file of one record can exceed it |
| `JsonlWriter.AppendIsFaithful` | internal/fsstore/jsonl.go:93-116 | one append keeps all of this |
| `JsonlWriter.TriedNames` | internal/fsstore/jsonl.go:141-162 | after as many tries as there are files a name is free, so the search ends |
| `JsonlWriter.Writer.constructor` | internal/fsstore/jsonl.go:28-44 | opens the file as found, or an empty one, under options that are never out of range |
| `JsonlWriter.Writer.FreeName` | internal/fsstore/jsonl.go:142-153 | the first candidate name no file has |
| `JsonlWriter.Writer.Flush` | internal/fsstore/jsonl.go:105-109 | the buffered bytes are behind the file, nothing else changed |
| `JsonlWriter.Writer.Rename` | internal/fsstore/jsonl.go:154-181 | the current file under the free name, an empty one in its place, all others untouched |
| `JsonlWriter.Writer.Rotate` | internal/fsstore/jsonl.go:118-162 | the same under the first free name; no existing file is overwritten |
| `JsonlWriter.Writer.AppendBytes` | internal/fsstore/jsonl.go:93-116 | the log after one append, earlier rotated files untouched, nothing after closing |
| `JsonlWriter.Writer.Write` | internal/fsstore/jsonl.go:100-115 | the record behind the current file |
| `JsonlWriter.Writer.AppendLine` | internal/fsstore/jsonl.go:58-68 | a line with a newline is refused without change, any other becomes one record |
| `JsonlWriter.Writer.Close` | internal/fsstore/jsonl.go:70-91 | closing loses nothing |
| `JsonScanner.ExtractsExactlyTheObject` | agent/parser.go:135-171 | between text without an opening brace and any text, exactly the text of any JSON object of sections 2 to 7 of RFC 8259 is returned |
| `JsonScanner.ExtractedIsStable` | agent/parser.go:135-171 | whatever is returned runs from the first opening brace to a closing one, and is returned again from itself |
| `JsonScanner.QuietValue` | agent/parser.go:143-168 | any JSON value inside an object leaves depth and string state as they were |
| `JsonScanner.EndIsExtent` | agent/parser.go:140-170 | scanning from an index is scanning the rest of the text |
| `JsonScanner.ExtractJSONObject` | agent/parser.go:135-171 | the loop returns the specified text |
| `StrictJson.AcceptedIffStrict` | maep/jsonprofile.go:13-116 | a token stream is accepted if and only if it is the flattening of one value without null, with integers only and no repeated key at any depth |
| `StrictJson.ValueSound` | maep/jsonprofile.go:34-68 | what is accepted begins with the flattening of a strict value, and ends where that ends |
| `StrictJson.ValueComplete` | maep/jsonprofile.go:34-68 | any strict value is accepted, whatever follows it, to its last token |
| `StrictJson.FlattenInjective` | maep/jsonprofile.go:45-116 | a stream spells at most one value |
| `StrictJson.StrictIntegerIsDecimal` | maep/jsonprofile.go:118-127 | a number passes if and only if, trimmed, it is an integer in plain decimal or minus zero |
| `StrictJson.ValidateStrictJSONProfile` | maep/jsonprofile.go:13-32 | the validator answers yes exactly for the streams of one strict value |
| `StrictJson.ValidateJSONValue` | maep/jsonprofile.go:34-43 | reads one value and leaves the rest |
| `StrictJson.ValidateTokenValue` | maep/jsonprofile.go:45-68 | the same with the first token in hand |
| `StrictJson.ValidateJSONObject` | maep/jsonprofile.go:70-99 | reads the members up to the closing brace, with no key twice |
| `StrictJson.ValidateJSONArray` | maep/jsonprofile.go:101-116 | reads the elements up to the closing bracket |
| `ShortTermRoundTrip.FixedPoint` | memory/merge.go:106-118 | printing, reading and printing again gives the same body for any content with unique one-line titles and plain keys, whatever else its values hold |
| `ShortTermRoundTrip.ReadingIsFixed` | memory/merge.go:24-33 | reading a printed body gives exactly what was shown, and so does another round |
| `ShortTermRoundTrip.ParseOfBuild` | memory/merge.go:24-33 | the same for anything whose parts each come back |
| `ShortTermRoundTrip.PrintableIsGood` | memory/merge.go:1099-1256 | what is shown of such content comes back part by part, sub-items of any value included |
| `ShortTermRoundTrip.SectionsBack` | memory/merge.go:128-150 | every section of a printed body reads as its own lines |
| `ShortTermRoundTrip.EntriesParse` | memory/merge.go:152-215 | the lines of a key-value section read as one item per entry |
| `ShortTermRoundTrip.HeadBack` | memory/merge.go:274-336 | a numbered head line gives its title back, for topics and for facts |
| `ShortTermRoundTrip.ValueBack` | memory/merge.go:1135-1163 | the value an entry is read with splits into its sub-items again |
| `ShortTermRoundTrip.SubBack` | memory/merge.go:1165-1173 | a printed sub-item is cut at its own colon |
| `ShortTermRoundTrip.TodoBack` | memory/merge.go:338-355 | printed tasks read back the same, in order |
| `ShortTermRoundTrip.LinkBack` | memory/merge.go:357-377 | a printed link reads back the same |
| `ShortTermRoundTrip.ParseShortTermContent` | memory/merge.go:24-33 | the five sections as specified, or a panic |
| `ShortTerm.OrderedTwice` | memory/merge.go:1175-1199 | ordering ordered sub-items changes nothing |
| `ShortTerm.OrderedKeepsAll` | memory/merge.go:1175-1199 | ordering neither loses nor repeats a sub-item |
| `ShortTerm.OrderSessionSubitems` | memory/merge.go:1175-1199 | the four known keys first in their order, then the others, each in the order given |
| `ShortTerm.TakeKey` | memory/merge.go:1182-1192 | takes exactly the unused sub-items of one key |
| `ShortTerm.ParseValueSubitems` | memory/merge.go:1135-1163 | one sub-item per line that holds anything |
| `ShortTerm.ReadSubs` | memory/merge.go:1118-1128 | session values are ordered, facts are not |
| `ShortTerm.WriteSubitems` | memory/merge.go:1201-1214 | the lines of the sub-items |
| `ShortTerm.WriteShortTermKVSection` | memory/merge.go:1099-1133 | a section's lines, numbered without gaps, with the default title where one is missing |
| `ShortTerm.WriteTodoSection` | memory/merge.go:1216-1234 | a to-do section's lines |
| `ShortTerm.WriteLinkSection` | memory/merge.go:1236-1256 | a link section's lines |
| `ShortTerm.BuildShortTermBody` | memory/merge.go:106-118 | the whole body |
| `MemorySections.SplitSections` | memory/merge.go:128-150 | each name has the trimmed lines of all its sections, in order |
| `MemorySections.ExtractTodoSections` | memory/update.go:514-534 | the lines of the two to-do sections |
| `MemorySections.NextLine` | memory/merge.go:133-148 | what one more line does to the current section and to each section's lines |
| `MemorySections.BlockSection` | memory/merge.go:128-150 | a header and plain lines add those lines to the section it names and to no other |
| `MemoryItems.ParseKVSection` | memory/merge.go:152-215 | the items of a section, numbered or bold, with their lines |
| `MemoryItems.DropRepeats` | memory/merge.go:202-214 | the first item of each title |
| `MemoryItems.ParseTodoSection` | memory/merge.go:217-233 | the first to-do item of each text |
| `MemoryItems.ParseLinkSection` | memory/merge.go:235-251 | the first link of each target, or a panic |
| `MemoryItems.LinkLinePanicsIff` | memory/merge.go:357-377 | reading a link line panics if and only if it is a list line whose "[" stands only behind a "](" with a ")" behind that |
| `MemoryItems.LinksPanicIff` | memory/merge.go:235-251 | reading a section panics if and only if one of its lines is such a line |
| `MemoryItems.LinkLineCanFail` | memory/merge.go:357-377 | such a line |
| `ShortTermRoundTrip.ReadingPanicsIff` | memory/merge.go:24-33 | reading a file panics if and only if its links section holds such a line |
| `ShortTermRoundTrip.PrintedLinksRead` | memory/merge.go:1236-1256 | no printed link line is such a line, whatever the link holds |
| `KeyPlaces.IndexesAppended` | memory/merge.go:914-952 | the map of places stays right when an item is appended |
| `KeyPlaces.IndexesReplaced` | memory/merge.go:1026-1046 | and when an item is replaced by one of its key |
| `TaskIndexTitles.UpdateKeepsIndex` | memory/update.go:33-66 | after an UpdateShortTerm over any file that can be read, the new file can be read and its ratios are the counts read from its body, for one-line task texts and titles that bring no to-do item and no crossed link line along |
| `TaskIndexTitles.UpdatesKeepIndexIff` | memory/update.go:51-62 | given titles keep the index right and the file readable, over every readable file and all one-line tasks, if and only if none of their lines lands as a to-do item in a to-do section or as a crossed line in the links section |
| `TaskIndexTitles.StrayPanicsIff` | memory/merge.go:235-251 | strayed lines before printed links can be read if and only if none of them is crossed |
| `TaskIndexTitles.SingleTitlesDoNotStray` | memory/merge.go:1099-1133 | titles on one line meet that condition |
| `TaskIndex.RestatusKeepsIndex` | memory/update.go:116-207 | the same after an UpdateRecentTaskStatuses, on any file that can be read, whatever else it holds |
| `TaskIndex.ReadersAgree` | memory/telegram.go:134-159 | where the index agrees, the body can be read, and pending tasks and summary counters are the same from either source |
| `TaskIndexTitles.TitleCanBreakIndex` | memory/merge.go:1099-1133 | for every date, opening and task a title of three lines breaks the index of an update over an empty file |
| `TaskIndexTitles.BodySection` | memory/merge.go:106-150 | whatever its titles hold, a printed body's to-do section reads as the lines that strayed into it and then its own tasks |
| `TaskIndexTitles.AfterHeader` | memory/merge.go:133-148 | a header cuts a document: the sections behind it are those of the text from it on |
| `TaskIndex.IndexAgrees` | memory/update.go:269-276 | ratios written beside a body of one-line titles and distinct tasks agree with it |
| `TaskIndex.ParsedIsOneLine` | memory/merge.go:24-33 | what is read from any file can be written back without overflowing its lines |
| `TaskIndex.MergeIsDistinct` | memory/merge.go:1022-1049 | merging tasks by text keeps texts distinct and on one line |
| `TaskIndex.RatioBack` | memory/task_counts.go:23-51 | a printed ratio reads back as the counts |
| `TaskIndex.TaskCounts` | memory/task_counts.go:9-21 | counts the tasks with a text and those done |
| `TaskIndex.NormalizeTasks` | memory/merge.go:401-417 | the first task of each text, trimmed |
| `TaskIndex.MergeTasks` | memory/merge.go:1022-1049 | incoming tasks replace those of the same text in place and follow otherwise |
| `TaskIndex.UpdateTaskList` | memory/update.go:209-226 | marks the updated tasks and says truly whether anything changed |
| `LongTerm.RoundTrip` | memory/update.go:240-262 | writing goals and facts over any old file and reading back returns them, and the old file's to-do lines |
| `LongTerm.ReadBack` | memory/update.go:240-262 | writing content over any old file and reading back returns its titles with the first lines of their values, and the old to-do lines, if the titles come back and no further line of a value opens an item or a section |
| `LongTermExact.RoundTripIff` | memory/update.go:240-262 | any content comes back from any file if and only if its titles are unique, hold no bold mark and end in no asterisk, and its titles and values are trimmed and on one line, no title empty |
| `LongTermExact.ComesBackOnOneLine` | memory/merge.go:152-215 | content that comes back has no value of several lines: its file has too few lines to read them from |
| `LongTermExact.ParsedWeight` | memory/merge.go:152-215 | the values of several lines read from a section have at most as many lines as the section has lines that are no items |
| `LongTermExact.ItemsMustBeGood` | memory/merge.go:253-272 | one-line items that are read back as they are have titles that end their own labels |
| `LongTerm.GoalRead` | memory/merge.go:1077-1092 | a goal is read with its title and the first line of its value, whatever the value holds and whatever follows, if no further line of a goal before it opens an item or a section |
| `LongTerm.FactRead` | memory/merge.go:1077-1092 | a fact likewise, behind such goals and facts |
| `LongTerm.ItemBack` | memory/merge.go:253-272 | a printed item gives its title and value back |
| `LongTerm.WriteKVSection` | memory/merge.go:1077-1092 | a section's lines |
| `LongTerm.BuildLongTermBody` | memory/merge.go:120-126 | the whole body |
| `LongTerm.ParseLongTermContent` | memory/merge.go:35-41 | the two sections as specified |
| `LongTerm.WriteTodoLines` | memory/update.go:549-568 | one to-do section behind the body, nothing when it is empty |
| `LongTerm.AppendTodoSections` | memory/update.go:536-570 | the body with both to-do sections behind it |
| `LongTerm.RewriteBody` | memory/update.go:240-262 | what is written over the old body |
| `LongTermRuns.StampIsLastBrought` | memory/update.go:228-262 | over any run of updates of the file a key that stays in its list has the stamp on the first line of the last value that said anything about it, or else its first stamp |
| `LongTermRuns.StampIsLostIff` | memory/update.go:228-262 | it loses its stamp if and only if an update brought several lines without a stamp on the first, and no later update brought a stamp |
| `LongTermRuns.UpdateStamps` | memory/update.go:246-258 | one update: the file reads well again, keeps its to-do lines, and a key in it has the stamp the update says, or else its former one, or else that of the day |
| `LongTermRuns.WrittenStamp` | memory/merge.go:1077-1092 | an item of the written file is read with exactly the stamp of the first line of its value, if no further line before it opens an item or a section |
| `LongTermRuns.FurtherLineTakesKey` | memory/merge.go:202-214 | that condition is needed: a further line that reads as an item takes the key and the stamp from every later item of that title |
| `LongTermRuns.StampCanBeLost` | memory/merge.go:910-954 | a run from an empty file in which a stamp is given and then lost while the key stays |
| `LongTermRuns.RunIsGood` | memory/update.go:251-256 | over any run the file goes on reading as unique one-line items, with its first to-do lines |
| `LongTermRuns.UpdateLongTerm` | memory/update.go:228-262 | the new file: read, merged, within both limits with the fewest drops, and the to-do sections behind it; nothing is written when nothing is brought |
| `LongTermMerge.MergeKVValues` | memory/merge.go:910-954 | the value under each key after a merge: the old one, the new one with the day's stamp, or the incoming one with the old stamp unless it has its own |
| `LongTermMerge.MergeKVStamps` | memory/merge.go:910-954 | one merge changes a present key's stamp only to the incoming one |
| `LongTermMerge.NewKeyIsStamped` | memory/merge.go:943-949 | a new key gets its own stamp or the day's |
| `LongTermMerge.AppendedStamp` | memory/merge.go:964-1001 | appending a stamp gives the value that stamp, unless it has one |
| `LongTermMerge.StampAtEnd` | memory/merge.go:981-1001 | text that ends in a stamp has that stamp, whatever stands before it |
| `LongTermMerge.DateStamp` | memory/merge.go:956-1020 | the stamp made of a date is found as a stamp |
| `LongTermMerge.NormalizeKVItems` | memory/merge.go:379-399 | the first item of each title, trimmed |
| `LongTermMerge.LoadExisting` | memory/merge.go:911-926 | the order, the last place and the last stamp of each key |
| `LongTermMerge.MergeLongTermKV` | memory/merge.go:910-954 | the loop with its maps gives the specified merge |
| `LongTermMerge.EnforceLongTermLimits` | memory/update.go:444-455 | ends with suffixes of both lists, at most 100 items and 3000 characters, and the fewest drops |
| `LongTermMerge.LimitChars` | memory/update.go:449-453 | the second loop on its own |
| `LongTermMerge.DroppedSuffix` | memory/update.go:457-471 | dropping keeps a suffix of each list |
| `LongTermMerge.EnoughDrops` | memory/update.go:444-455 | some number of drops is enough |
| `LongTermMerge.EmptyIsWithin` | memory/update.go:449-453 | an empty body is within the limit, so the loop never runs dry |

## Left out

- Model clients, tools, prompts, skills, hooks, logging, metrics and durations: outside the
  loop. The model, the tools, the guard's decisions, the plan functions and the loop's fixed
  wordings are parameters that may be anything; a cancelled context is a parameter per step.
- The fallbacks of ParseResponse around the brace scanner, output redaction and the guard's
  own evaluation of a call: library parsing and patterns.
- Network streams, signatures, card canonicalization and base64: a card carries a flag that
  says it is genuine, a push its decoded size and its validated envelope.
- YAML, JSON and frontmatter encoding: records are taken to survive it. AppendJSON is
  AppendLine on the encoded text.
- Memory file access, usernames, contact ids, dates and summaries of the frontmatter.
- Fuzzy merging of session summaries and facts: similarity of titles and the order of merged
  fields are not modelled; `TaskIndexTitles.UpdateKeepsIndex` holds for any merged lists.
- Contact scoring: the score is any function of the contact, over the reals. Contact fields
  other than id, status, times and score travel as one field.
- Text outside ASCII, and the width of machine integers.
- Clashes of random task ids and approval ids: ids are fresh where the source draws them.
- Store errors in the receiver, the registry, the contact store and the log writer; of the
  approvals file, failed writes and crashes are modelled.
- Concurrent pushes: lookup and insert of a dedupe record are separate store calls, so the
  delivery results are about pushes handled one after another by a clock that does not go back.
- Dedupe files and daemon tables changed by hand: receiver and daemon runs start empty.
- Several clock readings within one import or put count as one.
- HTTP handlers other than submit, approve, deny and resume; heartbeats and task timeouts
  appear only as a context that ends at any moment.
- The Windows variant of the lock, and the debug text in lock files.
- DaemonProtocol.AcceptedAtMostOnce: assumes that a final answer shaped like a pause names no
  approval already known; `DaemonNaming.NamingDoublesIff` says exactly when one that does can
  lead to a second acceptance.
- LongTermRuns.StampIsLastBrought: the runs start from a file that reads as unique one-line
  items, as the empty file does, and bring titles that come back and values whose further lines
  open no item and no section; `LongTermRuns.WrittenStamp` and
  `LongTermRuns.FurtherLineTakesKey` say what one write does to other values.
- DataPush.RateIsLimited: is about times past the first minute of the zero time, which no
  clock reads.
- TaskStore.TaskStore.Next: the source blocks on an empty queue, the model is called on a
  non-empty one.
- Buffering in JsonlWriter: normalized options flush every write, so nothing is ever left in
  the buffer between calls.
