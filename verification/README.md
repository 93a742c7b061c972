# Kanna daemon and mobile core, verified

This project models the hardest parts of Kanna in Dafny and proves what they
promise: the terminal daemon that hands its live sessions to a successor process,
fans terminal output out to slow clients without ever waiting for one, writes
client input to PTYs, journals agent events, elects who controls a terminal's size,
classifies draft bytes and passes descriptors over a socket; and the mobile app's
live task subscription. Results are about every input, every interleaving or every
reachable state.

| file | models |
|---|---|
| `Common.dfy` | options, octets, chains of states |
| `Paths.dfy` | where any state machine can go, and what it keeps on the way |
| `Handoff.dfy` | the handoff as a state machine: one incumbent, any number of successor connections one attempt after another, kernel buffers, readers, registry, fences, sockets, timeouts, disconnects, kills |
| `HandoffProof.dfy` | the handoff's invariant, kept by every step |
| `HandoffResults.dfy` | what follows for every run, and exactly when |
| `HandoffProgress.dfy` | that a handoff can always still succeed, and exactly when a commit can come |
| `HandoffRivals.dfy` | two successors for one PTY, exactly when |
| `HandoffCases.dfy` | runs in which a promise fails |
| `Fanout.dfy` | the subscriber registry, updated in place |
| `FanoutNet.dfy` | the registry together with writer tasks and sockets, all interleavings |
| `FanoutProgress.dfy` | exactly when a subscriber lags, and that it can always catch up |
| `LagRace.dfy` | marking a subscriber lagged against draining its last byte, one atomic access at a time |
| `LagProgress.dfy` | the same access by access |
| `Lifecycle.dfy` | Spawn, Kill, natural exit and transfer of one session id and its registry entries, all interleavings with client commands and disconnects |
| `LifecycleProgress.dfy` | what is published of a session, exactly, and when its id can be used again |
| `PtyWriter.dfy` | the input half of the reader loop over every schedule |
| `PtyProgress.dfy` | what one turn does, from the turn alone, and that everything accepted can be written |
| `Journal.dfy` | the agent journal over a file that can fail anywhere, and its backoff |
| `JournalProgress.dfy` | when the journal gets back to disk, which provider id wins, how long the backoff is |
| `SizeController.dfy` | the terminal size election |
| `DraftBytes.dfy` | the draft byte counter against a token grammar |
| `DraftCounts.dfy` | what is counted, from the bytes; how a delivered message reads back |
| `FdTransfer.dfy` | descriptor bundles, control messages |
| `LiveTasks.dfy` | one live task subscription of the mobile app |
| `LiveProgress.dfy` | what each step hands over, exactly, and that a newer snapshot can always come |

Terminal state is the byte history and a snapshot is a prefix of it. Locks, atomics
and queues are sequentially consistent steps. System calls, clocks, randomness and
the network are parameters or steps that may fail. That something *can* happen means that
some continuation of the run, by steps of the model, gets there; that the schedule takes
them is not claimed.

## What turned out false

Each of these has a concrete counterexample and, where the promise can be rescued,
the exact condition under which it holds.

- An acknowledgement sent after the incumbent rolled back gets the incumbent killed
  and an older snapshot adopted; bytes read in between are in neither
  (`HandoffCases.LateAckLosesBytes`). An adopted session is continuous exactly when its
  reader had no chunk in hand when its snapshot was taken and nobody but its adopter
  read from the PTY since (`HandoffResults.ContinuityExactly`).
- A second attempt soon after a rollback can take a resuming reader for a parked one,
  because its mark of the first attempt is still set, and commit while that reader goes
  on reading until the incumbent exits: a byte is lost
  (`HandoffCases.StaleMarkLosesBytes`). This concerns exactly the sessions whose reader,
  when its mark is sampled, is between the end of its wait and clearing the mark with
  inputs left to write (`HandoffResults.SampleDecides`): any other reader takes nothing
  more while its snapshot stands (`HandoffResults.SettledStaysWhole`), and such a reader
  can (`HandoffResults.UnsettledCanRead`). A first attempt has none
  (`HandoffResults.FirstAttemptIsSettled`). Both daemons never read at once: the
  successor also waits for the incumbent's death (`HandoffResults.NeverBothReading`).
- The successor of a rolled-back attempt that acknowledges late takes the incumbent's
  exit, after its commit to another successor, for its own release, and both read
  (`HandoffCases.TwoSuccessorsAdopt`). Once one successor has adopted, another can follow
  exactly when it has, or still has in its inbox, metadata and descriptors and has not
  given up (`HandoffRivals.RivalsExactly`).
- A resize snapshot over the budget on an empty mailbox marks the subscriber lagged
  and drained, and the resize path ignores the report that says so: no resync is on
  its way until the next tick (`LagRace.ResizeLosesWakeup`). No wakeup is lost
  exactly while no such report is ignored (`LagRace.DrainedIsNoticed`,
  `LagRace.DiscardLosesWakeup`).
- A quiesce request that lands between the reader's drain of its input channel and
  its quiesced mark leaves an accepted input unwritten in a reader that calls itself
  quiesced (`PtyWriter.QuiesceOvertakesInput`). `PtyWriter.QuiesceCheck` states
  exactly when a quiesced reader has written everything accepted.
- Kill can wait for ever: it holds the id's lock while it waits for the reader to
  stop, and a reader past its first end-of-file check waits for that lock
  (`Lifecycle.KillCanDeadlock`, `Lifecycle.DeadlockedForever`). A Kill that delivered
  its signal can finish exactly when the reader was not already waiting for the lock at
  the moment Kill took the session (`LifecycleProgress.KillFinishesIff`), and an id can get
  a further session exactly while no Kill of it is in that state
  (`LifecycleProgress.RenewsIff`).
- Not every session that ends has its exit published: one whose Kill failed to signal its
  child never has (`LifecycleProgress.PublishedExactly`).
- A registered session need not have a size entry: the disconnect of any client drops
  it while it records no client (`Lifecycle.DisconnectDropsSizes`). As long as a session
  stays registered an entry of its id is lost exactly by such a disconnect, by the last
  terminal client leaving, or after a commit (`Lifecycle.KeptUntilDropped`).
- Nor is it always its own: a resize of an id no session has makes one that the next
  session inherits (`Lifecycle.SpawnInheritsSizes`), which is exactly when it does not
  get its own (`Lifecycle.SizesInheritedIff`, `Lifecycle.SizesMadeIff`). After a Kill
  that failed to signal, a reader that had not begun makes a fanout for an id without a
  session (`Lifecycle.ReaderOutlivesFanout`); without such a Kill a fanout is its
  session's own (`Lifecycle.EntriesNeverStale`).
- A journal reopened on a file whose last line has no newline merges the next event
  into it (`Journal.MergedTail`); an appended line decodes exactly when the file was
  newline-terminated (`Journal.AppendIffTerminated`). Memory and disk start in step
  exactly when the file could be read or held nothing, and, if it is opened for
  appending without a migration, ended with a newline (`Journal.AgentJournal.Open`).
- A journal does not always get back to disk: one whose file could not be opened asks for
  no repair and never tries again (`JournalProgress.NeverReopened`). It can get back exactly
  when its file is open, or its directory is usable and a repair was asked for
  (`JournalProgress.OnDiskAgainIff`).
- The provider id set last is not always the one that ends up published: setting the
  published id again while another is pending does nothing, and the other one is published
  later (`JournalProgress.EarlierIdWins`). It is exactly when not so
  (`JournalProgress.LastSetMeantIff`).
- The minimum size undeclared clients ask for is not always in force when no viewer is
  left: the last viewer leaving without having controlled the size does not apply what was
  asked for beside it (`SizeController.MinimumNotApplied`), and nothing else breaks it
  (`SizeController.LegacyKeptIff`).
- A republish put off during a recovery is taken up only if the recovery hands over a
  snapshot; otherwise it stays put off (`LiveProgress.PutOffExactly`).

Two comments differ from the code, and the model follows the code. The comment in
`crates/daemon/src/draft_bytes.rs:96-99` says scanning goes on after an ESC that does
not begin ST; the code gives up there. The comment above
`crates/daemon/src/output.rs:645` says an overflowing subscriber is disconnected; the
code marks it lagged and resynchronises it.

## Model

| member | source | states |
|---|---|---|
| HandoffResults.NeverBothReading | crates/daemon/src/startup.rs:213-248 | in every run, over any number of attempts and under any delay, timeout, disconnect or kill, incumbent and successor never read the same PTY, and no byte is taken by the incumbent after one taken by a successor |
| HandoffResults.EndOfFileMeansQuiet | crates/daemon/src/handoff.rs:398-454 | what end of file alone guarantees, before the incumbent's death: the reader of an adopted PTY is at rest unless it was unsettled when its mark was sampled |
| HandoffResults.AdoptersAreExclusive | crates/daemon/src/handoff.rs:398-454 | two successors adopt one PTY only if one of them had been rolled back |
| HandoffRivals.RivalsExactly | crates/daemon/src/handoff.rs:398-454 | from any reachable moment at which one successor has adopted a PTY, another can come to read it too if and only if it has, or still has in its inbox, metadata and descriptors and has not given up; and then one of the two was rolled back |
| HandoffRivals.RivalsCanMeet | crates/daemon/src/handoff.rs:398-454 | the steps that take both there, from every such moment |
| HandoffRivals.RivalsMayAdopt | crates/daemon/src/handoff.rs:345-454 | a successor that adopts later could do so already |
| HandoffRivals.CanRead | crates/daemon/src/startup.rs:213-248 | once the incumbent is dead, a successor that has all it needs can get to read, whatever the others are doing |
| HandoffResults.ContinuityExactly | crates/daemon/src/handoff.rs:398-454 | in every run, committed or not, snapshot followed by what the successor read is the PTY output if and only if the reader held no chunk when the snapshot was taken and no step since let anyone but the adopter read |
| HandoffResults.StandingContinuity | crates/daemon/src/handoff.rs:1023-1165 | while the transfer is not given up, so after a commit and also when the incumbent dies before it, a settled session that no other successor adopts is continuous |
| HandoffResults.ContinuousIff | crates/daemon/src/handoff.rs:398-454 | in every reachable state continuity is that nobody but the successor took a byte past its snapshot |
| HandoffResults.Between | crates/daemon/src/handoff.rs:1023-1165 | between two moments of a run bytes are only taken at the end, and a byte past the first moment is another's if and only if some step took it |
| HandoffResults.CollectedAt | crates/daemon/src/handoff.rs:1062-1165 | a snapshot is everything taken up to its moment but for a chunk in the reader's hand |
| HandoffResults.SpentRun | crates/daemon/src/handoff.rs:1062-1419 | what was collected of a session for a connection is never changed by a later step or attempt |
| HandoffResults.IncumbentContinuity | crates/daemon/src/handoff.rs:1361-1419 | until its release or death, during and after every rollback, the incumbent's mirror and chunk in hand are the PTY output without a gap |
| HandoffResults.UnsettledExactly | crates/daemon/src/handoff.rs:1036-1050 | a session is unsettled when its mark is sampled if and only if its reader has ended its wait, still bears the mark of an earlier attempt and has inputs to write |
| HandoffResults.SampleDecides | crates/daemon/src/handoff.rs:1036-1165 | that one load of the mark decides it for the whole transfer, at every later moment of the run |
| HandoffResults.SettledStaysWhole | crates/daemon/src/handoff.rs:1036-1165 | a settled session's reader held nothing when its snapshot was taken, and takes nothing more while the snapshots stand |
| HandoffResults.UnsettledCanRead | crates/daemon/src/output.rs:211-429 | from every reachable state with such a reader the incumbent can take a byte its snapshot lacks, and the transfer goes on unaware |
| HandoffResults.FirstAttemptIsSettled | crates/daemon/src/handoff.rs:1036-1050 | an attempt that no rollback preceded finds every reader settled |
| HandoffResults.CommitCoversRegistry | crates/daemon/src/handoff.rs:1062-1165 | from snapshot to commit every registered session is transferred or counted as skipped, never both, and a settled one's snapshot is its mirror |
| HandoffResults.RegistryFenced | crates/daemon/src/handoff.rs:959-1023 | while a handoff is under way and after it commits no Spawn, Kill or exit changes the set of registered sessions |
| HandoffResults.CommitStays | crates/daemon/src/handoff.rs:1421-1494 | a committed handoff is never taken back or given to another connection |
| HandoffResults.CommitIsFinal | crates/daemon/src/handoff.rs:1440-1467 | after a commit every settled reader of the incumbent stays quiet for ever |
| HandoffResults.RollbackRestores | crates/daemon/src/handoff.rs:1296-1419 | whenever no handoff is under way and none has committed, so after each of the seven exits, whose code runs step by step between reader and command steps, both seals are down, the lifecycle runs unlocked, no cloned descriptor is open and no reader is asked to wait or stop |
| HandoffResults.RollbackCanFinish | crates/daemon/src/handoff.rs:1051-1418 | from every reachable moment of every exit the handler alone can carry its cleanup to the end, with the connection back in its command loop and no attempt left |
| HandoffProgress.HandoffCanSucceed | crates/daemon/src/handoff.rs:869-1495 | from every reachable moment of a live incumbent that has not committed, whatever attempts came before or are under way and whatever its readers do, some continuation commits to a successor yet to connect, which then reads every registered session, each with its snapshot and what it read together exactly the output |
| HandoffProgress.TransferCanComplete | crates/daemon/src/handoff.rs:345-454 | from every moment at which the incumbent waits for an acknowledgement that can still come, some continuation commits and the successor adopts and reads exactly what it was offered, the empty offer included |
| HandoffProgress.CommitPossibleIff | crates/daemon/src/handoff.rs:1361-1420 | from every such moment a commit to that connection can follow if and only if an acknowledgement is on the wire or the successor has, or has in its inbox, all it takes to send one |
| HandoffProgress.TransferGoesThrough | crates/daemon/src/handoff.rs:959-1360 | from every moment of a transfer the incumbent alone can take it to that wait, with every session sampled, collected and sent |
| HandoffProgress.ReleasedReadersAsked | crates/daemon/src/handoff.rs:1440-1467 | in every run, from the moment the committed incumbent lets its successor go on, each of its readers is asked to stop |
| HandoffProgress.ReleasedReaderCanStop | crates/daemon/src/output.rs:200-429 | and can stop, wherever it is, without taking another byte |
| HandoffProgress.CanBeIdle | crates/daemon/src/handoff.rs:1296-1419 | every attempt not committed can be given up and undone, with every session still registered |
| HandoffProgress.CanBeQuiet | crates/daemon/src/output.rs:200-227 | a reader that is asked to, wherever it is, can come to rest |
| HandoffCases.LateAckLosesBytes | crates/daemon/src/handoff.rs:1405-1418 | a run in which an acknowledgement after rollback loses a byte |
| HandoffCases.StaleMarkLosesBytes | crates/daemon/src/handoff.rs:1036-1050 | a run in which a second attempt trusts the mark of the first, commits and loses a byte |
| HandoffCases.TwoSuccessorsAdopt | crates/daemon/src/handoff.rs:398-454 | a run in which two successors read the same PTY |
| HandoffProof.ReaderMoveLocal | crates/daemon/src/output.rs:200-429 | every move of a reader keeps its mirror equal to the bytes taken, and a quiet reader that is asked takes nothing |
| HandoffProof.HandlerInv | crates/daemon/src/handoff.rs:869-1495 | every step of the incumbent's handler, its seven rollback exits included, keeps the handoff invariant |
| HandoffProof.AnyHeirInv | crates/daemon/src/handoff.rs:209-454 | every step of a successor, its wait for release, its wait for the incumbent's death and its kill included, keeps it; that these steps get to an acknowledgement, also of an empty offer, is TransferCanComplete |
| HandoffProof.NextInv | crates/daemon/src/handoff.rs:209-1495 | every step of any daemon, of a reader, of the registry or of a child keeps it |
| HandoffProof.RunInv | crates/daemon/src/handoff.rs:209-1495 | every state of every run satisfies it |
| Fanout.FanoutState.constructor | crates/daemon/src/fanout.rs:193-203 | a fresh registry is empty and well-formed |
| Fanout.FanoutState.CancelAndRemove | crates/daemon/src/fanout.rs:460-469 | exactly the connection's registrations in the list are cancelled and leave it, order kept |
| Fanout.FanoutState.Mailbox | crates/daemon/src/fanout.rs:219-265 | a new mailbox holds the initial events and accounts for their bytes |
| Fanout.FanoutState.Register | crates/daemon/src/fanout.rs:219-265 | older registrations of the same connection and kind are cancelled, the new one is last with its initial events queued, nothing else changes |
| Fanout.FanoutState.OfferOne | crates/daemon/src/fanout.rs:424-455 | an open subscriber that is not lagged takes the line if and only if its bytes fit the budget, and is otherwise lagged with its mailbox as it was; any other is left alone; readiness is reported exactly |
| Fanout.FanoutState.EnqueueToList | crates/daemon/src/fanout.rs:417-458 | the same for every subscriber of the list, once each; ended ones leave in order; readiness is reported if and only if some subscriber is ready |
| Fanout.FanoutState.Enqueue | crates/daemon/src/fanout.rs:274-281 | the same for every listed subscriber of both lists while nobody else changes, and the report is true if and only if afterwards some listed subscriber is lagged and drained |
| Fanout.ReadyMeansDrained | crates/daemon/src/fanout.rs:417-458 | the report is exact for every registry, line and budget |
| Fanout.EnqueueMet | crates/daemon/src/fanout.rs:274-281 | a listed subscriber meets a line exactly once across both lists: queued and not lagged if and only if its bytes fit the budget, otherwise lagged with its queue unchanged; it stays listed if and only if its writer lives |
| Fanout.FanoutState.HasDrainedLagged | crates/daemon/src/fanout.rs:285-293 | found if and only if some listed subscriber is lagged with an empty mailbox |
| Fanout.FanoutState.RefillOne | crates/daemon/src/fanout.rs:313-332 | a lagged, drained subscriber gets the whole batch and is no longer lagged, or nothing changes |
| Fanout.FanoutState.ResyncList | crates/daemon/src/fanout.rs:313-338 | exactly the lagged, drained subscribers of the list receive the batch |
| Fanout.FanoutState.ResyncDrained | crates/daemon/src/fanout.rs:299-341 | both lists are resynchronised from one batch; an empty batch changes nothing |
| Fanout.FanoutState.FinishOne | crates/daemon/src/fanout.rs:350-356 | a subscriber that can take the final event gets it last, any other is disconnected |
| Fanout.FanoutState.FinishList | crates/daemon/src/fanout.rs:350-356 | every subscriber of the list gets the final event or is disconnected |
| Fanout.FanoutState.DeliverFinal | crates/daemon/src/fanout.rs:346-357 | each current subscriber is disconnected if and only if it was lagged or closed, and any other has the final event queued last; the lists are empty |
| Fanout.FanoutState.Remove | crates/daemon/src/fanout.rs:362-364 | the connection's registration of that kind is cancelled and gone, all else unchanged |
| Fanout.ResyncMet | crates/daemon/src/fanout.rs:299-341 | a resync batch enters exactly the open, lagged, drained subscribers, whole, and lifts their lag; nobody else changes |
| Fanout.FinalMet | crates/daemon/src/fanout.rs:346-357 | the final event, from the registry's value: cut off if and only if lagged or closed, else queued last |
| Fanout.RemoveMet | crates/daemon/src/fanout.rs:362-364 | exactly the connection's registrations of that kind are cancelled and unlisted |
| Fanout.RegisterMet | crates/daemon/src/fanout.rs:219-265 | so when it registers anew, and the new registration is listed, open and not lagged with its initial events |
| FanoutProgress.LagChangesIff | crates/daemon/src/fanout.rs:417-458 | a step makes a subscriber lagged if and only if it offers it a line that does not fit its budget, and lifts the lag if and only if it is a resync that finds its mailbox drained |
| FanoutProgress.LaggedByOverflow | crates/daemon/src/fanout.rs:417-458 | in every run a subscriber that has become lagged did so at a line that did not fit, and has been since |
| FanoutProgress.MailboxDrains | crates/daemon/src/fanout.rs:535-580 | from every reachable moment an intact writer can put everything queued on its socket, whoever holds it |
| FanoutProgress.CanCatchUp | crates/daemon/src/output.rs:778-817 | from every reachable moment a listed subscriber with an intact socket, lagged or with a snapshot in its stream, can come to show exactly the mirrored terminal |
| FanoutNet.SnapshotSubscriberExact | crates/daemon/src/output.rs:671-716 | in every interleaving, a subscriber registered with a snapshot that is caught up has put on its socket exactly the mirrored terminal |
| FanoutNet.CaughtUpIsExact | crates/daemon/src/output.rs:671-716 | sent, in-hand and queued lines replay to the mirrored terminal while not lagged and to an earlier moment of it while lagged |
| FanoutNet.ClientSeesScreen | crates/daemon/src/connection.rs:1214-1357 | the socket lines of one connection and kind, across all its registrations, replay to the mirrored terminal once the newest has caught up |
| FanoutNet.MailboxBounded | crates/daemon/src/fanout.rs:219-341 | in every run accounted bytes are exact and at most the larger of budget and last snapshot batch |
| FanoutNet.DrainedIsEmpty | crates/daemon/src/fanout.rs:313-338 | a resync batch enters only an empty mailbox |
| FanoutNet.NoStaleLines | crates/daemon/src/fanout.rs:535-580 | no line of a superseded registration follows a line of its successor on the same socket and kind |
| FanoutNet.SeededRun | crates/daemon/src/fanout.rs:219-265 | a snapshot, once registered, is never lost from a stream whose socket is intact |
| FanoutNet.NewestIsTail | crates/daemon/src/fanout.rs:535-580 | the newest registration's lines are the tail of their kind's lines |
| FanoutNet.ReplayCutover | crates/daemon/src/connection.rs:1214-1357 | a stream with a snapshot shows its own screen whatever came before it |
| FanoutNet.OfferFaithful | crates/daemon/src/output.rs:671-716 | one chunk, status or resize snapshot keeps a subscriber's stream in step with the mirror |
| FanoutNet.RefillGood | crates/daemon/src/output.rs:778-817 | a resync brings a drained subscriber back to the mirror of that moment |
| FanoutNet.WriterGood | crates/daemon/src/fanout.rs:535-580 | a writer task neither drops, repeats nor reorders lines while its socket is intact |
| FanoutNet.WriterOrder | crates/daemon/src/fanout.rs:535-580 | the cancellation check under the socket lock keeps an old registration from writing once its successor has begun |
| FanoutNet.NextInv | crates/daemon/src/output.rs:645-817 | every step of ingestion, attach, resize, resync, detach, exit and writers keeps the fanout invariant |
| FanoutNet.RunInv | crates/daemon/src/output.rs:645-817 | every state of every run satisfies it |
| LagRace.NoWakeupLost | crates/daemon/src/fanout.rs:437-451 | no single access loses the wakeup of a drained lagged subscriber, unless the step discards a report |
| LagRace.DrainedIsNoticed | crates/daemon/src/fanout.rs:437-451 | in every run without a discarded report, a drained lagged subscriber has somebody about to notice it or a resync on its way |
| LagRace.DiscardLosesWakeup | crates/daemon/src/connection.rs:96-117 | a discarded report with nothing else on its way does lose the wakeup |
| LagRace.ResizeLosesWakeup | crates/daemon/src/connection.rs:96-117 | a run in which a resize snapshot over the budget loses it |
| LagRace.StaysUntilResync | crates/daemon/src/output.rs:442-454 | a drained lagged subscriber stays so over every step but a resync, which takes it up |
| LagRace.StaysUntilResyncInRun | crates/daemon/src/output.rs:442-454 | in every run it stays so from then until the next resync, so every tick in between finds it |
| LagRace.ResyncFindsNothing | crates/daemon/src/fanout.rs:313-338 | when a resync starts nothing is queued and nothing is in the writer's hand |
| LagRace.RunSound | crates/daemon/src/fanout.rs:145-152 | from any registration batch on, in every run, pending bytes count each line from before it is sent until after it is written, and the two lag marks agree outside their windows |
| LagProgress.LagChangesIff | crates/daemon/src/fanout.rs:424-455 | the lag mark is set exactly by a look that finds the line over the budget and lifted exactly at the end of a resync, and the flag follows it |
| LagProgress.LaggedByOverflow | crates/daemon/src/fanout.rs:424-455 | in every run a lagged subscriber came to it at such a look, and has been lagged since |
| LagProgress.FittingLineQueued | crates/daemon/src/fanout.rs:424-455 | a line that fits is queued behind what is queued, and counted once |
| LagProgress.CanCatchUp | crates/daemon/src/output.rs:442-454 | from every state of every run, whatever wakeup was lost, both marks can come to be lifted, by way of the next tick |
| Lifecycle.OneExitEach | crates/daemon/src/connection.rs:1586-1743 | over all interleavings each incarnation of an id exits at most once, after its SessionCreated, never after a replacement's |
| Lifecycle.CleanupSparesReplacement | crates/daemon/src/connection.rs:1696-1737 | while an incarnation stays registered no step of Spawn, Kill or natural exit removes an entry of its id |
| Lifecycle.AlwaysEquipped | crates/daemon/src/connection.rs:634-696 | in every run, while the daemon serves, a registered and prepared incarnation has a fanout, and a recovery entry of its own if its mirror could be started |
| Lifecycle.EntryLostIff | crates/daemon/src/client.rs:288-326 | a step takes an entry of a live incarnation if and only if it is a disconnect or detach that leaves no client in it, or the clearing after a commit |
| Lifecycle.KeptUntilDropped | crates/daemon/src/client.rs:288-326 | in every run, as long as one incarnation stays registered, it has an entry at every moment if and only if no such step came in between |
| Lifecycle.EntriesNeverStale | crates/daemon/src/connection.rs:1733-1737 | in every run, outside cleanup, terminal clients and sizes never outlive their session, a size entry is its session's own or was made while none had the id, and a fanout is its session's own if every Kill delivered its signal |
| Lifecycle.SizesMadeIff | crates/daemon/src/connection.rs:1359-1415 | while no session has the id a step makes a size entry if and only if it is a resize |
| Lifecycle.SizesInheritedIff | crates/daemon/src/connection.rs:634-638 | in every run Spawn finds a size entry if and only if its session gets none of its own, and then one made while no session had the id |
| Lifecycle.DisconnectDropsSizes | crates/daemon/src/client.rs:296-306 | a run in which a live session loses its size entry to the disconnect of any client |
| Lifecycle.SpawnInheritsSizes | crates/daemon/src/connection.rs:1359-1374 | a run in which a session inherits the size entry of a resize that came before it |
| Lifecycle.ReaderOutlivesFanout | crates/daemon/src/output.rs:160-183 | a run in which a reader makes a fanout for an id no session has any more |
| Lifecycle.TransferFreezes | crates/daemon/src/handoff.rs:959-1023 | during a transfer nothing at the id is created, removed or published |
| Lifecycle.CommittedIsSilent | crates/daemon/src/output.rs:524-532 | after a commit this daemon publishes nothing more for the id |
| Lifecycle.LogGrows | crates/daemon/src/connection.rs:439-766 | a step publishes at most one event and takes none back |
| Lifecycle.ClaimSettles | crates/daemon/src/output.rs:511-548 | no step after Kill took an incarnation changes whether its reader waits for the lock |
| Lifecycle.DeadlockedForever | crates/daemon/src/connection.rs:1690-1694 | once the reader waits for the lock Kill holds, both wait for ever |
| Lifecycle.KillCanDeadlock | crates/daemon/src/output.rs:511-548 | a run that gets there: end of file, then Kill before the reader has the lock |
| Lifecycle.SpawnInv | crates/daemon/src/connection.rs:439-766 | every step of Spawn keeps the lifecycle invariant |
| Lifecycle.KillInv | crates/daemon/src/connection.rs:1576-1743 | every step of Kill keeps it; part of it is that the teardown mark is set only while a Kill is between its claim and its cleanup |
| Lifecycle.ReaderInv | crates/daemon/src/output.rs:511-637 | every step of a reader's end and natural exit keeps it |
| Lifecycle.RunInv | crates/daemon/src/connection.rs:439-766 | every state of every run satisfies it |
| LifecycleProgress.RenewsIff | crates/daemon/src/connection.rs:439-766 | from every reachable state, whoever holds the lock and after any number of incarnations, the id can get a further session, announced, if and only if the daemon serves and no Kill of the id is deadlocked |
| LifecycleProgress.SpawnCanSucceed | crates/daemon/src/connection.rs:439-766 | from every reachable state with the lock free, the daemon serving and unsealed and no session under the id, a Spawn can get to SessionCreated: no teardown mark is left to refuse it |
| LifecycleProgress.KillCanSucceed | crates/daemon/src/connection.rs:1576-1743 | a Kill of a session whose reader is not waiting for the lock can publish its exit and leave the id free |
| LifecycleProgress.ExitCanSucceed | crates/daemon/src/output.rs:511-637 | a reader at end of file can publish its session's exit and leave the id free |
| LifecycleProgress.HolderCanRest | crates/daemon/src/connection.rs:439-766 | whatever holds the lock, unless it is a deadlocked Kill, can free it |
| LifecycleProgress.KillFinishesIff | crates/daemon/src/connection.rs:1672-1694 | in every run, a Kill that took an incarnation and delivered its signal can publish the exit, clean up and free the lock if and only if the reader was not waiting for the lock when Kill took it |
| LifecycleProgress.PublishedExactly | crates/daemon/src/connection.rs:1586-1743 | in every run, of every incarnation: SessionCreated is published if and only if it is not still being spawned, Exit if and only if it is no longer registered, not on its way out, and no Kill failed to signal it |
| LifecycleProgress.StopsRegisteredIff | crates/daemon/src/output.rs:160-548 | a reader stops with its session still registered if and only if it cannot start reading, or the daemon has handed its sessions over |
| PtyWriter.LogicalNeverEmpty | crates/daemon/src/session.rs:72-91 | a delivered message always ends with its Enter |
| PtyWriter.NothingLostOrReordered | crates/daemon/src/output.rs:200-322 | bytes written, the rest of the front input, the other pending inputs and the channel are the accepted inputs in order |
| PtyWriter.AcknowledgedIsWritten | crates/daemon/src/output.rs:279-307 | acknowledged inputs are the first accepted ones with bytes, and all their bytes are written |
| PtyWriter.Accept | crates/daemon/src/output.rs:206-214 | queueing inputs keeps the order and position invariants |
| PtyWriter.Take | crates/daemon/src/output.rs:232-240 | one input moves from channel to queue; one without bytes is acknowledged at once |
| PtyWriter.Drain | crates/daemon/src/output.rs:206-214 | the whole channel moves to the queue in order |
| PtyWriter.ExpirePause | crates/daemon/src/output.rs:242-251 | the pause ends exactly when its time has come |
| PtyWriter.WriteRest | crates/daemon/src/output.rs:253-322 | the rest of the front input is written, it leaves the queue, starts the pause if logical and is acknowledged unless draft accounting failed, which ends the loop |
| PtyWriter.WritePart | crates/daemon/src/output.rs:253-322 | a partial write advances the front input by exactly what the kernel took |
| PtyWriter.QuiesceCheck | crates/daemon/src/output.rs:206-227 | when the reader marks itself quiesced, everything accepted is written if and only if nothing came late and the drain saw the request or had nothing to drain |
| PtyWriter.Fire | crates/daemon/src/output.rs:229-322 | for every arm: the bytes written, when and whether they submit, the inputs completed and acknowledged, the channel, the pause and whether the loop ends, with order and pacing kept; what each of these is, is said from the turn alone by ReceiveTakesFront, WritePartOfFront, WriteRestOfFront and OthersWriteNothing |
| PtyWriter.Enter | crates/daemon/src/output.rs:200-227 | what a turn sent before the select has arrived, drained if asked, and whether the reader marks itself |
| PtyWriter.Iterate | crates/daemon/src/output.rs:200-322 | one turn of any schedule: what is accepted, written and acknowledged, whether it leaves a mark (MarkedIff) and which, whether it ends the loop |
| PtyWriter.TraceSound | crates/daemon/src/output.rs:200-322 | at every moment of every schedule exactly the inputs sent so far are accepted and no written byte is taken back |
| PtyWriter.TraceSteady | crates/daemon/src/output.rs:200-322 | at every moment of every schedule inputs are written in order, acknowledged only when written, and never inside a submit pause |
| PtyWriter.StreamOutput | crates/daemon/src/output.rs:200-322 | over every schedule the loop is a trace of exactly its turns, up to its end or the turn that ends it, and each turn did what the schedule says; from every moment of it that is not the end, Flush gets everything written |
| PtyWriter.QuiesceOvertakesInput | crates/daemon/src/output.rs:206-227 | a schedule in which a reader marks itself quiesced with an accepted input unwritten |
| PtyProgress.ReceiveTakesFront | crates/daemon/src/output.rs:206-240 | the receive arm takes exactly the front of the channel, if and only if there is one and no quiesce is requested; nothing but that and a drain takes from it |
| PtyProgress.WritePartOfFront | crates/daemon/src/output.rs:253-322 | a write that takes part of the front input writes exactly that part and ends nothing |
| PtyProgress.WriteRestOfFront | crates/daemon/src/output.rs:253-322 | a write that takes the rest completes it: acknowledged unless its draft accounting failed, which alone ends the loop, and pausing if it is logical |
| PtyProgress.OthersWriteNothing | crates/daemon/src/output.rs:229-322 | no other arm writes or acknowledges; the pause is over when its timer fires at or after its end |
| PtyProgress.MarkedIff | crates/daemon/src/output.rs:206-227 | a reader calls itself quiesced if and only if quiesce is still requested after the drain and no input is left to write |
| PtyProgress.Flush | crates/daemon/src/output.rs:200-322 | from any moment of any schedule at which the loop goes on: turns, in the loop's own order of preference and bounded in number by what is left, after which exactly the accepted bytes are written and every input with bytes is acknowledged |
| PtyProgress.Settle | crates/daemon/src/output.rs:200-227 | ... and a quiesce request then finds the reader quiesced with everything accepted written |
| Journal.EncodeDecode | crates/daemon/src/agent.rs:509-525 | a rewritten file ends with a newline and loads to exactly the events written |
| Journal.AppendIffTerminated | crates/daemon/src/agent.rs:587-616 | an appended line adds its event if and only if the file was newline-terminated |
| Journal.TornLine | crates/daemon/src/agent.rs:587-616 | a line torn anywhere leaves the earlier events, or those and its own |
| Journal.MergedTail | crates/daemon/src/agent.rs:373-498 | a reopened torn file after which disk is no prefix of memory |
| Journal.RenumberedKeepsPayloads | crates/daemon/src/agent.rs:438-463 | migration makes numbers dense and keeps every payload in place |
| Journal.AgentJournal.Open | crates/daemon/src/agent.rs:373-498 | numbers are dense, every decodable payload is loaded; memory and disk start in step if and only if the file was readable or held nothing and, when dense and opened for appending, newline-terminated; a repair is asked for if and only if a migration failed, and the file is open if and only if it could be and none is |
| Journal.AgentJournal.Load | crates/daemon/src/agent.rs:405-463 | loading and migration: what memory holds and what the file decodes to, for every fault |
| Journal.AgentJournal.NeedsMigration | crates/daemon/src/agent.rs:502-507 | migration is needed if and only if some number differs from its position |
| Journal.AgentJournal.Body | crates/daemon/src/agent.rs:513-525 | the rewritten contents are the encoding of the whole history |
| Journal.AgentJournal.Attempt | crates/daemon/src/agent.rs:673-696 | one attempt to publish an id and its bookkeeping: published and nothing pending, or pending and counted |
| Journal.AgentJournal.SetProviderSessionId | crates/daemon/src/agent.rs:673-696 | a published id and a repeated id inside its backoff change nothing; otherwise one attempt is made and logged, and a failed one is counted |
| Journal.AgentJournal.Repair | crates/daemon/src/agent.rs:749-781 | one rewrite, logged; whatever fails, the file is untouched or already the whole history |
| Journal.AgentJournal.WriteLine | crates/daemon/src/agent.rs:597-613 | a failed write leaves the pieces that were written, drops the handle, asks for repair and is logged |
| Journal.AgentJournal.RetryPendingDurableWork | crates/daemon/src/agent.rs:731-783 | exactly the work that is due is tried, once each; nothing else changes; what comes of it is OnDiskIff and RetryPublishesIff |
| Journal.AgentJournal.Append | crates/daemon/src/agent.rs:587-616 | the whole state after due repairs, the write and its faults; the event enters memory with the next number; the file is then open and exact if and only if OnDiskIff says so |
| Journal.AgentJournal.Serve | crates/daemon/src/agent.rs:373-783 | any sequence of operations under any faults: numbers stay dense, disk in step with memory, memory is the loaded history and every appended event, both attempt logs are spread out by their backoff; a journal in need of repair is repaired if and only if RepairedIff says so |
| Journal.AppendedInSync | crates/daemon/src/agent.rs:587-616 | an append under any faults keeps disk a prefix of memory, and equal to it while a handle is held |
| Journal.PerformedPublishes | crates/daemon/src/agent.rs:673-729 | an operation makes at most one attempt to publish, at its own time, and without one leaves the metadata as it was |
| Journal.PerformedRewrites | crates/daemon/src/agent.rs:731-783 | an operation makes at most one rewrite and one failing append, and without either changes the file only by a line behind it |
| Journal.ServedOk | crates/daemon/src/agent.rs:373-783 | the same for every sequence of operations, about the states alone |
| Journal.ServedHistory | crates/daemon/src/agent.rs:587-616 | nothing appended is lost from memory |
| Journal.MetadataSetOk | crates/daemon/src/agent.rs:673-696 | setting an id keeps the log of attempts spaced and the pending id the last that failed, also when a different id resets the budget |
| Journal.FailureHolds | crates/daemon/src/agent.rs:146-152 | a failure holds back the next attempt at the same target by at least its wait, saturation included |
| Journal.BackoffBound | crates/daemon/src/agent.rs:124-158 | any n attempts in a row at one id, or at the history, all failed but perhaps the last, take at least the sum of the first n - 1 waits of min(30 s, 200 ms times 2 to the min(i, 8)) |
| JournalProgress.OnDiskIff | crates/daemon/src/agent.rs:587-616 | an append leaves the file open and decoding to exactly memory if and only if its line was written and the file was open before, or a repair was asked for, its backoff was over, and rewrite and reopening succeeded |
| JournalProgress.RepairedIff | crates/daemon/src/agent.rs:731-783 | after any operations under any faults, once nothing fails any more, a usable journal that asks for repair has the whole history on disk again if and only if some append comes at or after the end of its backoff |
| JournalProgress.OnDiskAgainIff | crates/daemon/src/agent.rs:466-498 | some operations get memory back to disk if and only if the file is open, or the directory is usable and a repair was asked for |
| JournalProgress.NeverReopened | crates/daemon/src/agent.rs:466-498 | a journal whose file could not be opened, and that no operations ever bring to disk |
| JournalProgress.TornAsksRepair | crates/daemon/src/agent.rs:597-616 | a failed append asks for a repair and keeps its event in memory |
| JournalProgress.SetPublishesIff | crates/daemon/src/agent.rs:673-696 | setting an id leaves it published if and only if it was already or its file is replaced, a pending one only when its backoff is over; then disk holds it and nothing is pending; otherwise it is pending and the published one stays |
| JournalProgress.RetryPublishesIff | crates/daemon/src/agent.rs:731-746 | an append publishes a pending id, on disk too, if and only if its backoff is over and its file is replaced |
| JournalProgress.LastSetMeantIff | crates/daemon/src/agent.rs:673-696 | whatever is appended afterwards, the id set last is the one published or still to be published if and only if it was not the published one while another was pending |
| JournalProgress.EarlierIdWins | crates/daemon/src/agent.rs:673-696 | operations after which an id set earlier is published instead of the one set last |
| JournalProgress.DelayDoubles | crates/daemon/src/agent.rs:146-152 | the wait is 400 ms after one failure, doubles with each up to the seventh, and is 30 s from the eighth on |
| JournalProgress.WaitsExactly | crates/daemon/src/agent.rs:146-152 | the least time n attempts in a row take, in closed form |
| JournalProgress.ServedPrompt | crates/daemon/src/agent.rs:146-152 | in every sequence of operations no failure puts off the next attempt by more than 30 s |
| SizeController.ElectedCandidate | crates/daemon/src/client.rs:63-83 | whatever order the viewers are walked in, the eligible viewer ranked first by class, name and socket wins; none exactly when none is eligible |
| SizeController.BestIsUnique | crates/daemon/src/client.rs:63-83 | only one viewer can win |
| SizeController.SortedFirst | crates/daemon/src/client.rs:76-82 | sorting puts a candidate ahead of all others first |
| SizeController.EffectiveTerminalSize | crates/daemon/src/client.rs:243-258 | the smallest width and smallest height asked for, or the fallback when nobody asked |
| SizeController.ResizeKeepsOthers | crates/daemon/src/client.rs:168-183 | measuring a viewer can bring no other viewer to power |
| SizeController.SessionSizeState.constructor | crates/daemon/src/client.rs:47-55 | a new session has no controller and any given size |
| SizeController.SessionSizeState.HasEligibleLocal | crates/daemon/src/client.rs:85-89 | the walk stops at the first eligible local viewer, so it finds one if and only if one exists, whatever the order |
| SizeController.SessionSizeState.Elect | crates/daemon/src/client.rs:91-118 | from any viewers and any controller, the election invariant; a takeover holder and a sticky controller stay, else the best candidate |
| SizeController.SessionSizeState.ProposedSize | crates/daemon/src/client.rs:120-128 | the controller's grid, else the legacy minimum, else the applied size |
| SizeController.SessionSizeState.PendingResize | crates/daemon/src/client.rs:130-133 | asked for only when it changes something, and then it puts the controller's grid in force |
| SizeController.SessionSizeState.Register | crates/daemon/src/client.rs:136-166 | a stale message changes nothing; otherwise the viewer is recorded, a takeover holder keeps control if and only if it is eligible, a controller that may stay stays, and the resize returned puts the controller's grid in force |
| SizeController.SessionSizeState.Resize | crates/daemon/src/client.rs:168-183 | a viewer's grid changes exactly when it is visible and the new one is not empty, and one that does not end in control changes neither controller nor size; an undeclared client changes only its legacy size, and with no viewers the resize returned makes the legacy minimum the size |
| SizeController.SessionSizeState.Takeover | crates/daemon/src/client.rs:185-196 | an eligible viewer takes control, anyone else is refused |
| SizeController.SessionSizeState.Release | crates/daemon/src/client.rs:198-206 | only the holder can release, and the best candidate follows |
| SizeController.SessionSizeState.Remove | crates/daemon/src/client.rs:208-223 | removing anyone but the controller leaves control alone; removing the controller elects the best of the rest; the resize returned puts its grid in force, or with no viewers left the legacy minimum if the client controlled or had a legacy size, and is none otherwise |
| SizeController.SessionSizeState.Perform | crates/daemon/src/client.rs:136-227 | one command with its resize applied: viewers, legacy sizes and takeover after it, the controller kept or the best candidate, its grid in force, or the legacy minimum, or the size as it was |
| SizeController.SessionSizeState.Serve | crates/daemon/src/client.rs:136-227 | any sequence of commands goes through states each of which follows from the one before as Perform says, and in each the election is sound and the applied size is the controller's grid |
| SizeController.CommandDetermined | crates/daemon/src/client.rs:63-227 | what a command comes to is determined: not by the order of any map |
| SizeController.ServedDetermined | crates/daemon/src/client.rs:63-227 | so is every state of every sequence of commands |
| SizeController.TakeoverLasts | crates/daemon/src/client.rs:91-206 | in every sequence of commands a takeover holder stays in control with its grid in force until it is no longer eligible, releases, or an eligible viewer takes over |
| SizeController.LegacyKeptIff | crates/daemon/src/client.rs:168-223 | with no viewers the legacy minimum stays in force over every command, except exactly when the last viewer leaves that neither controlled nor had a legacy size while the minimum differs |
| SizeController.MinimumNotApplied | crates/daemon/src/client.rs:208-223 | commands after which it is not in force |
| DraftBytes.PrintTokenize | crates/daemon/src/draft_bytes.rs:163-196 | every byte string is the print of its token list |
| DraftBytes.TokenizeWellFormed | crates/daemon/src/draft_bytes.rs:114-156 | that token list is well-formed |
| DraftBytes.TokenizePrint | crates/daemon/src/draft_bytes.rs:163-196 | a well-formed token list is recovered from its print |
| DraftBytes.NoTerminator | crates/daemon/src/draft_bytes.rs:87-105 | no terminator is found if and only if the bytes run out or the first ESC does not begin ST and no BEL precedes it |
| DraftBytes.FindEnd | crates/daemon/src/draft_bytes.rs:173-176 | the first end-of-paste marker, if any |
| DraftBytes.FindFinal | crates/daemon/src/draft_bytes.rs:119-123 | the first final byte of a control sequence, if any |
| DraftBytes.FindTerminator | crates/daemon/src/draft_bytes.rs:87-105 | where a control string ends, and how |
| DraftBytes.RepliesWeighNothing | crates/daemon/src/draft_bytes.rs:125-152 | what is counted of a well-formed list's bytes is what its other tokens weigh, wherever terminal replies, mouse reports and Alt chords fall among them; a burst of nothing else counts nothing |
| DraftBytes.WeightsWithinSize | crates/daemon/src/draft_bytes.rs:163-196 | a token list never weighs more than it prints |
| DraftBytes.StringEscapeLen | crates/daemon/src/draft_bytes.rs:87-105 | the length of a terminated control string, terminator included, or none |
| DraftBytes.EscapeSequence | crates/daemon/src/draft_bytes.rs:114-156 | consumes exactly the escape's token and calls it content-capable exactly when the token has weight |
| DraftBytes.CountOne | crates/daemon/src/draft_bytes.rs:167-193 | one turn of the loop consumes the first token and adds its weight, in bounds |
| DraftBytes.DraftContentByteCount | crates/daemon/src/draft_bytes.rs:163-196 | the count is the weight of the one well-formed token list that prints to the data, and at most its length |
| DraftCounts.TextCounts | crates/daemon/src/draft_bytes.rs:71-76 | a byte outside an escape counts one unless it is an inert control: printable bytes, tab and newlines count, deletions do not |
| DraftCounts.PlainTextCounts | crates/daemon/src/draft_bytes.rs:163-196 | data without escapes counts as many as its bytes that are not inert |
| DraftCounts.PasteCounts | crates/daemon/src/draft_bytes.rs:167-182 | a paste counts exactly its payload, whatever its bytes, up to the first end marker or the end of the write |
| DraftCounts.ControlSequenceCounts | crates/daemon/src/draft_bytes.rs:117-134 | a control sequence counts in full if it ends in A or B and not at all otherwise |
| DraftCounts.ApplicationKeyCounts | crates/daemon/src/draft_bytes.rs:135-139 | so does a three-byte application key |
| DraftCounts.DeclaresNothingIff | crates/daemon/src/draft_bytes.rs:158-196 | a write counts zero if and only if it has no text but inert controls, no recall key and no paste but empty ones |
| DraftCounts.MessageIsOnePasteIff | crates/daemon/src/session.rs:51-91 | a long or multi-line message to a terminal with bracketed paste reads back as one paste of exactly the message and one Enter if and only if it does not contain the end marker |
| DraftCounts.MessageIsTyped | crates/daemon/src/session.rs:72-91 | any other message without escapes reads back as its own keystrokes and one Enter |
| FdTransfer.FdRoundTrip | crates/daemon/src/fd_transfer.rs:247-258 | a descriptor number survives its byte encoding |
| FdTransfer.FdsRoundTrip | crates/daemon/src/fd_transfer.rs:64-68 | so does a list of them, four bytes each |
| FdTransfer.ReadPayload | crates/daemon/src/fd_transfer.rs:247-258 | the payload is read into exactly its descriptors |
| FdTransfer.ReadMessage | crates/daemon/src/fd_transfer.rs:213-258 | a whole rights message gives exactly its descriptors, a foreign or ragged one none |
| FdTransfer.Walk | crates/daemon/src/fd_transfer.rs:204-260 | the walk gathers every descriptor of whole rights payloads up to the first header out of bounds, past foreign and ragged ones |
| FdTransfer.FoundSplits | crates/daemon/src/fd_transfer.rs:204-260 | the descriptors of several messages come one message after the other |
| FdTransfer.CollectFds | crates/daemon/src/fd_transfer.rs:178-294 | returns exactly the expected descriptors in order and closes none, or returns none and closes exactly those found; if and only if on success |
| FdTransfer.OneMessage | crates/daemon/src/fd_transfer.rs:48-68 | what the sender puts into its control message is what the walk finds |
| FdTransfer.ValidateFdCounts | crates/daemon/src/handoff.rs:499-511 | accepted if and only if every agent declares 0, 2 or 3 descriptors |
| FdTransfer.FlattenLength | crates/daemon/src/handoff.rs:515-523 | the expected count is the length of the flattened stream |
| FdTransfer.Split | crates/daemon/src/handoff.rs:784-836 | the stream is cut by declared counts in order, nothing left over |
| FdTransfer.SplitIsUnique | crates/daemon/src/handoff.rs:784-836 | no other cut agrees with the metadata |
| FdTransfer.SendAndCollect | crates/daemon/src/fd_transfer.rs:26-294 | a non-empty stream sent in one message arrives unchanged |
| FdTransfer.Transfer | crates/daemon/src/handoff.rs:784-836 | flattening, sending, collecting and splitting returns each session its own descriptors |
| FdTransfer.DupFrom | crates/daemon/src/agent.rs:1071-1102 | a failed duplication leaves the open descriptors as they were; a successful one adds exactly the bundle: stdout, stderr and, if there is one, stdin, in that order |
| LiveTasks.SnapshotsIncrease | apps/mobile/src/appModel.ts:429-673 | over every interleaving no update, supplements included, carries an older revision than one before it, and full snapshots carry strictly increasing ones |
| LiveTasks.DrainsAreSingleFlight | apps/mobile/src/appModel.ts:479-506 | at most one drain exists and a pending request always has one |
| LiveTasks.EnqueueIsServed | apps/mobile/src/appModel.ts:479-517 | a pending request leaves the queue only to start a newer publication, because it is superseded, or dropped by a recovery or the unsubscribe |
| LiveTasks.EnqueueIsServedInRun | apps/mobile/src/appModel.ts:479-517 | in every run, an enqueue that is not superseded and not dropped by a recovery or the unsubscribe is followed, by the time nothing is pending, by a publication that starts after it |
| LiveTasks.EnqueueStartsOrWaits | apps/mobile/src/appModel.ts:507-517 | an enqueue starts its publication at once or is left pending for a running drain |
| LiveTasks.PendingCanMove | apps/mobile/src/appModel.ts:479-506 | the drain that holds a pending request can always go on to take it up |
| LiveTasks.UpdatesAreCurrent | apps/mobile/src/appModel.ts:447-478 | every logged update, however late its list call supplied it, carries the epoch, account, generation and revision its guard compared at that moment; it records the guard and is used by the results above |
| LiveTasks.NextInv | apps/mobile/src/appModel.ts:429-673 | every callback, await boundary, client replacement, account change and unsubscribe keeps the subscription invariant |
| LiveTasks.RunInv | apps/mobile/src/appModel.ts:429-673 | every state of every run satisfies it |
| LiveProgress.HandedExactly | apps/mobile/src/appModel.ts:447-478 | over every step: a publication or supplement that returns is handed over if and only if the subscription owns the feed, no newer publication was started and the client is the same; nothing else is handed over and nothing taken back |
| LiveProgress.SupersededNeverDelivered | apps/mobile/src/appModel.ts:429-673 | in every run nothing read through a client is handed over after it was replaced, nothing under way when the index fails is handed over after, and nothing at all after the unsubscribe |
| LiveProgress.LaterDeliveries | apps/mobile/src/appModel.ts:429-673 | in every run what is handed over after a moment carries that moment's revision and client or later ones |
| LiveProgress.SnapshotPossibleIff | apps/mobile/src/appModel.ts:479-517 | from every reachable state a full snapshot newer than every publication so far can be handed over if and only if the subscription still owns the feed |
| LiveProgress.RecoveryCanRepair | apps/mobile/src/appModel.ts:574-624 | a recovery that nothing overtakes can hand over the snapshot it reads, end, and then ask for the republish it put off |
| LiveProgress.PutOffExactly | apps/mobile/src/appModel.ts:518-535 | a republish during a recovery is put off; it is asked for when the recovery ends with a snapshot handed over, and otherwise stays put off |

## Left out

- Handoff: agent sessions and their registry seal beyond its flag; the legacy wire epoch; peer authentication.
- Handoff: sessions that are not streaming when the snapshot is taken, because AttachSnapshot is not fenced by the lifecycle lock; the adopter's descriptors when its acknowledgement cannot be written.
- FanoutNet: geometry, which is no part of the terminal state here; the blank-snapshot fallback of AttachSnapshot; a fanout that appears after its session has begun to stream.
- LagRace: weaker memory orderings than sequential consistency.
- Lifecycle: agent sessions; wholesale shutdown; sessions adopted from a predecessor, whose first attach starts the reader; what is in a size entry beyond the clients recorded.
- PtyWriter: reading, status detection and terminal replies, which only add inputs; the draft ledger behind declared drafts.
- Journal: JSON, directory hardening, staging name collisions.
- SizeController: that the connection code creates and drops size states (that is in Lifecycle).
- FdTransfer: which headers the platform's macros visit is given; retries on socket backpressure.
- LiveTasks: a client whose list call calls back into the subscription before returning, which could start a second drain; restart timers and their backoff; errors reported to the subscriber.
- Fairness: the results on what can happen do not say that a schedule makes it happen.
- The recovery sidecar, the terminal emulator, the status classifier, operator authentication, process groups, configuration and every user interface: not modelled.
