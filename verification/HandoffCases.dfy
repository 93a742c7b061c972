/**
 Three runs of the handoff protocol that end badly, step by step.

 All start with an attempt that transfers one idle session and is rolled back
 because the acknowledgement does not come in time.
 */
module HandoffCases {
  import opened Common
  import opened Handoff
  import opened HandoffResults
  import opened HandoffRivals

  ghost const UNREAD := Kernel([7], [])
  ghost const READ := Kernel([7], [Daemon])
  ghost const SNAP: Infos := map[0 := Some([])]

  ghost const UP := Fence(true, false, 0, false, false)
  ghost const LOCKED := Fence(true, true, 0, true, false)
  ghost const SEALED := Fence(true, true, 0, true, true)
  ghost const OVER := Fence(false, false, 0, true, true)

  ghost function At(pc: Pc, quiesce: bool, marked: bool, inputs: nat): Reader {
    Reader([], pc, quiesce, false, marked, inputs)
  }

  /** A state with one PTY. */
  ghost function One(k: Kernel, alive: bool, fence: Fence, r: Reader, job: Job, links: map<Link, Conn>): State {
    State(map[0 := k], Incumbent(alive, fence, map[0 := r], job), links)
  }

  /** A job that has sampled no mark yet, and one that has. */
  ghost function NewJob(phase: Phase, l: Link, asked: set<Pty>): Job {
    Job(phase, l, asked, {}, {}, {})
  }

  ghost function JobOf(phase: Phase, l: Link, asked: set<Pty>, clones: set<Pty>): Job {
    Job(phase, l, asked, {0}, {}, clones)
  }

  ghost function Served(status: Status, inbox: seq<ToSuccessor>, outbox: seq<nat>, stage: Stage, received: Infos, unsettled: set<Pty>): Conn {
    Conn(status, Wire(false, false, inbox, outbox), Heir(stage, received, map[]), SNAP, unsettled)
  }

  // ----------------------------------------------------- one step by each actor

  lemma ByReader(s: State, move: ReaderMove, k: Kernel, r: Reader, t: State)
    requires Reachable(s) && s.inc.alive && 0 in s.inc.registry && 0 in s.kernel
    requires ReaderMoves(s.kernel[0], s.inc.registry[0], move, k, r)
    requires t.kernel == s.kernel[0 := k] && t.inc == s.inc.(registry := s.inc.registry[0 := r]) && t.links == s.links
    ensures Reachable(t)
  {
    ReachByReader(s, 0, move, k, r, t);
  }

  /** The handler leaves the kernel alone and works on one connection. */
  predicate HandlerOnly(s: State, l: Link, t: State) {
    s.inc.alive && l in s.links && l in t.links && t.kernel == s.kernel && t.links == s.links[l := t.links[l]]
  }

  lemma BySetup(s: State, l: Link, move: HandlerMove, t: State)
    requires Reachable(s) && HandlerOnly(s, l, t) && SetupMoves(s.inc, s.links[l], l, move, t.inc, t.links[l])
    ensures Reachable(t)
  {
    Reach(s, OnHandler(l, move), t);
  }

  lemma ByCollect(s: State, l: Link, move: HandlerMove, t: State)
    requires Reachable(s) && HandlerOnly(s, l, t) && CollectMoves(s.inc, s.links[l], l, move, t.inc, t.links[l])
    ensures Reachable(t)
  {
    Reach(s, OnHandler(l, move), t);
  }

  lemma ByTransfer(s: State, l: Link, move: HandlerMove, t: State)
    requires Reachable(s) && HandlerOnly(s, l, t) && TransferMoves(s.inc, s.links[l], l, move, t.inc, t.links[l])
    ensures Reachable(t)
  {
    Reach(s, OnHandler(l, move), t);
  }

  lemma ByCleanup(s: State, l: Link, move: HandlerMove, t: State)
    requires Reachable(s) && HandlerOnly(s, l, t) && CleanupMoves(s.inc, s.links[l], l, move, t.inc, t.links[l])
    ensures Reachable(t)
  {
    Reach(s, OnHandler(l, move), t);
  }

  lemma ByEnding(s: State, l: Link, move: HandlerMove, t: State)
    requires Reachable(s) && HandlerOnly(s, l, t) && EndingMoves(s.inc, s.links[l], l, move, t.inc, t.links[l])
    ensures Reachable(t)
  {
    Reach(s, OnHandler(l, move), t);
  }

  lemma ByHeir(s: State, l: Link, move: HeirMove, t: State)
    requires Reachable(s) && l in s.links && l in t.links && !move.AdoptedRead?
    requires HeirMoves(s.inc.alive, s.kernel, s.links[l], move, t.links[l])
    requires t.kernel == s.kernel && t.inc == s.inc && t.links == s.links[l := t.links[l]]
    ensures Reachable(t)
  {
    Reach(s, OnHeir(l, move), t);
  }

  // ------------------------------------------------------------ the first attempt

  ghost const FIRST := NEW_CONN.(status := Serving)

  ghost const A0 := One(UNREAD, true, UP, At(Top, false, false, 0), NewJob(Idle, 0, {}), map[])
  ghost const A1 := One(UNREAD, true, UP, At(Top, false, false, 0), NewJob(Idle, 0, {}), map[0 := NEW_CONN])
  ghost const A2 := One(UNREAD, true, LOCKED, At(Top, false, false, 0), NewJob(Locked, 0, {}), map[0 := FIRST])
  ghost const A3 := One(UNREAD, true, LOCKED, At(Top, true, false, 0), NewJob(Locked, 0, {0}), map[0 := FIRST])
  ghost const A4 := One(UNREAD, true, LOCKED, At(Parked, true, true, 0), NewJob(Locked, 0, {0}), map[0 := FIRST])
  ghost const SAMPLED := One(UNREAD, true, LOCKED, At(Parked, true, true, 0), JobOf(Locked, 0, {0}, {}), map[0 := FIRST])
  ghost const COLLECTS := One(UNREAD, true, LOCKED, At(Parked, true, true, 0), JobOf(Collecting, 0, {0}, {}), map[0 := FIRST])
  ghost const SNAPPED := One(UNREAD, true, LOCKED, At(Parked, true, true, 0), JobOf(Collecting, 0, {0}, {0}),
                             map[0 := Served(Serving, [], [], AwaitReady, map[], {})])
  ghost const A5 := One(UNREAD, true, SEALED, At(Parked, true, true, 0), JobOf(Collected, 0, {0}, {0}),
                        map[0 := Served(Serving, [], [], AwaitReady, map[], {})])
  ghost const A6 := One(UNREAD, true, SEALED, At(Parked, true, true, 0), JobOf(ReadySent, 0, {0}, {0}),
                        map[0 := Served(Serving, [ToSuccessor.Ready(SNAP)], [], AwaitReady, map[], {})])
  ghost const A7 := One(UNREAD, true, SEALED, At(Parked, true, true, 0), JobOf(FdsSent, 0, {0}, {0}),
                        map[0 := Served(Serving, [ToSuccessor.Ready(SNAP), Fds(1)], [], AwaitReady, map[], {})])
  ghost const A8 := One(UNREAD, true, SEALED, At(Parked, true, true, 0), JobOf(FdsSent, 0, {0}, {0}),
                        map[0 := Served(Serving, [Fds(1)], [], AwaitFds, SNAP, {})])
  ghost const WAITS := Served(Serving, [], [], GotFds, SNAP, {})
  ghost const A9 := One(UNREAD, true, SEALED, At(Parked, true, true, 0), JobOf(FdsSent, 0, {0}, {0}), map[0 := WAITS])

  ghost function Undo(todo: seq<Task>): Phase {
    RollingBack(AckTimeout, todo)
  }

  ghost const A10 := One(UNREAD, true, SEALED, At(Parked, true, true, 0),
                         JobOf(Undo([ResumeReaders, CloseClones, Unseal, DropAgentSeal, ReleaseLock]), 0, {0}, {0}), map[0 := WAITS])
  ghost const A11 := One(UNREAD, true, SEALED, At(Parked, false, true, 0),
                         JobOf(Undo([ResumeReaders, CloseClones, Unseal, DropAgentSeal, ReleaseLock]), 0, {}, {0}), map[0 := WAITS])
  ghost const A12 := One(UNREAD, true, SEALED, At(Parked, false, true, 0),
                         JobOf(Undo([CloseClones, Unseal, DropAgentSeal, ReleaseLock]), 0, {}, {0}), map[0 := WAITS])
  ghost const A13 := One(UNREAD, true, SEALED, At(Parked, false, true, 0),
                         JobOf(Undo([CloseClones, Unseal, DropAgentSeal, ReleaseLock]), 0, {}, {}), map[0 := WAITS])
  ghost const A14 := One(UNREAD, true, SEALED, At(Parked, false, true, 0),
                         JobOf(Undo([Unseal, DropAgentSeal, ReleaseLock]), 0, {}, {}), map[0 := WAITS])
  ghost const A15 := One(UNREAD, true, Fence(true, true, 0, false, true), At(Parked, false, true, 0),
                         JobOf(Undo([DropAgentSeal, ReleaseLock]), 0, {}, {}), map[0 := WAITS])
  ghost const A16 := One(UNREAD, true, Fence(true, true, 0, false, false), At(Parked, false, true, 0),
                         JobOf(Undo([ReleaseLock]), 0, {}, {}), map[0 := WAITS])
  ghost const BACK := Served(Back, [], [], GotFds, SNAP, {})
  ghost const A17 := One(UNREAD, true, UP, At(Parked, false, true, 0), JobOf(Idle, 0, {}, {}), map[0 := BACK])

  lemma Begins()
    ensures Reachable(A0)
  {
    assert Initial(A0);
    assert Run([A0]);
  }

  lemma Contacted()
    ensures Reachable(A1)
  {
    Begins();
    Reach(A0, Connect(0), A1);
  }

  lemma Asked()
    ensures Reachable(A3)
  {
    Contacted();
    BySetup(A1, 0, Lock, A2);
    BySetup(A2, 0, Ask(0), A3);
  }

  lemma Samples()
    ensures Reachable(COLLECTS)
  {
    Asked();
    ByReader(A3, Park, UNREAD, At(Parked, true, true, 0), A4);
    BySetup(A4, 0, Sample(0), SAMPLED);
    BySetup(SAMPLED, 0, BeginCollect, COLLECTS);
  }

  lemma Collects()
    ensures Reachable(A5)
  {
    Samples();
    assert COLLECTS.links[0].offered[0 := Some([])] == SNAP;
    ByCollect(COLLECTS, 0, Snap(0, false), SNAPPED);
    ByCollect(SNAPPED, 0, SealAgents, A5);
  }

  lemma Sends()
    ensures Reachable(A7)
  {
    Collects();
    ByTransfer(A5, 0, SendReady, A6);
    ByTransfer(A6, 0, SendFds, A7);
  }

  lemma Receives()
    ensures Reachable(A9)
  {
    Sends();
    ByHeir(A7, 0, ReceiveReady, A8);
    ByHeir(A8, 0, ReceiveFds, A9);
  }

  lemma TimesOut()
    ensures Reachable(A11)
  {
    Receives();
    ByTransfer(A9, 0, Fail(AckTimeout, false), A10);
    ByCleanup(A10, 0, ResumeOne(0), A11);
  }

  lemma Closes()
    ensures Reachable(A14)
  {
    TimesOut();
    ByCleanup(A11, 0, NextTask, A12);
    ByCleanup(A12, 0, CloseOne(0), A13);
    ByCleanup(A13, 0, NextTask, A14);
  }

  lemma RollsBack()
    ensures Reachable(A17)
  {
    Closes();
    ByCleanup(A14, 0, NextTask, A15);
    ByCleanup(A15, 0, NextTask, A16);
    ByCleanup(A16, 0, NextTask, A17);
  }

  // --------------------------------------------------- an acknowledgement too late

  ghost const LATE := Served(Back, [], [3], AckSent, SNAP, {})
  ghost const B1 := One(UNREAD, true, UP, At(Parked, false, true, 0), JobOf(Idle, 0, {}, {}), map[0 := LATE])
  ghost const B2 := One(UNREAD, true, UP, At(Resuming, false, true, 0), JobOf(Idle, 0, {}, {}), map[0 := LATE])
  ghost const B3 := One(UNREAD, true, UP, At(Top, false, false, 0), JobOf(Idle, 0, {}, {}), map[0 := LATE])
  ghost const B4 := One(UNREAD, true, UP, At(Selecting, false, false, 0), JobOf(Idle, 0, {}, {}), map[0 := LATE])
  ghost const B5 := One(UNREAD, true, UP, At(Reading, false, false, 0), JobOf(Idle, 0, {}, {}), map[0 := LATE])
  ghost const B6 := One(READ, true, UP, At(Holding([7]), false, false, 0), JobOf(Idle, 0, {}, {}), map[0 := LATE])
  ghost const B7 := One(READ, false, UP, At(Holding([7]), false, false, 0), JobOf(Idle, 0, {}, {}),
                        map[0 := Served(Back, [], [3], KillSent, SNAP, {})])
  ghost const B8 := One(READ, false, UP, At(Holding([7]), false, false, 0), JobOf(Idle, 0, {}, {}),
                        map[0 := Conn(Back, Wire(false, true, [], [3]), Heir(Adopted, SNAP, map[0 := []]), SNAP, {})])
  ghost const B9 := One(READ, false, UP, At(Holding([7]), false, false, 0), JobOf(Idle, 0, {}, {}),
                        map[0 := Conn(Back, Wire(false, true, [], [3]), Heir(Streaming, SNAP, map[0 := []]), SNAP, {})])

  lemma LateAck()
    ensures Reachable(B3)
  {
    RollsBack();
    ByHeir(A17, 0, Acknowledge, B1);
    ByReader(B1, Unpark, UNREAD, At(Resuming, false, true, 0), B2);
    ByReader(B2, MarkResumed, UNREAD, At(Top, false, false, 0), B3);
  }

  lemma LateRead()
    ensures Reachable(B6)
  {
    LateAck();
    ByReader(B3, Pass, UNREAD, At(Selecting, false, false, 0), B4);
    ByReader(B4, ReaderMove.Ready, UNREAD, At(Reading, false, false, 0), B5);
    assert Bytes(UNREAD, 1) == [7] && Taken(UNREAD, Daemon, 1) == READ;
    ByReader(B5, Read(1), READ, At(Holding([7]), false, false, 0), B6);
  }

  /** An acknowledgement sent after the incumbent rolled back ends in the incumbent's
      death and the adoption of an old snapshot. The byte the incumbent read meanwhile
      is in neither. */
  lemma LateAckLosesBytes()
    ensures Reachable(B9) && SuccessorReads(B9, 0, 0)
    ensures B9.links[0].heir.received[0] == Some([]) && !Continuous(B9, 0, 0, [])
  {
    LateRead();
    Reach(B6, Kill(0), B7);
    ByHeir(B7, 0, SeeEof, B8);
    ByHeir(B8, 0, StartReaders, B9);
  }

  // ----------------------------------------------- a second attempt, a stale mark

  ghost const GUARDED := Fence(true, false, 1, false, false)

  ghost const D1 := One(UNREAD, true, UP, At(Resuming, false, true, 0), JobOf(Idle, 0, {}, {}), map[0 := BACK])
  ghost const D2 := One(UNREAD, true, GUARDED, At(Resuming, false, true, 0), JobOf(Idle, 0, {}, {}), map[0 := BACK])
  ghost const D3 := One(UNREAD, true, GUARDED, At(Resuming, false, true, 1), JobOf(Idle, 0, {}, {}), map[0 := BACK])
  ghost const D4 := One(UNREAD, true, UP, At(Resuming, false, true, 1), JobOf(Idle, 0, {}, {}), map[0 := BACK])
  ghost const D5 := One(UNREAD, true, UP, At(Resuming, false, true, 1), JobOf(Idle, 0, {}, {}), map[0 := BACK, 1 := NEW_CONN])
  ghost const D6 := One(UNREAD, true, LOCKED, At(Resuming, false, true, 1), NewJob(Locked, 1, {}), map[0 := BACK, 1 := FIRST])
  ghost const D7 := One(UNREAD, true, LOCKED, At(Resuming, true, true, 1), NewJob(Locked, 1, {0}), map[0 := BACK, 1 := FIRST])

  ghost function Pair(conn: Conn): map<Link, Conn> {
    map[0 := BACK, 1 := conn]
  }

  ghost const STALE := FIRST.(unsettled := {0})
  ghost const STALE_SAMPLED := One(UNREAD, true, LOCKED, At(Resuming, true, true, 1), JobOf(Locked, 1, {0}, {}), Pair(STALE))
  ghost const STALE_COLLECTS := One(UNREAD, true, LOCKED, At(Resuming, true, true, 1), JobOf(Collecting, 1, {0}, {}), Pair(STALE))
  ghost const TAKEN := Served(Serving, [], [], AwaitReady, map[], {0})
  ghost const STALE_SNAPPED := One(UNREAD, true, LOCKED, At(Resuming, true, true, 1), JobOf(Collecting, 1, {0}, {0}), Pair(TAKEN))
  ghost const D8 := One(UNREAD, true, SEALED, At(Resuming, true, true, 1), JobOf(Collected, 1, {0}, {0}), Pair(TAKEN))
  ghost const D9 := One(UNREAD, true, SEALED, At(Top, true, false, 1), JobOf(Collected, 1, {0}, {0}), Pair(TAKEN))
  ghost const D10 := One(UNREAD, true, SEALED, At(Selecting, true, false, 1), JobOf(Collected, 1, {0}, {0}), Pair(TAKEN))
  ghost const D11 := One(UNREAD, true, SEALED, At(Reading, true, false, 1), JobOf(Collected, 1, {0}, {0}), Pair(TAKEN))
  ghost const D12 := One(READ, true, SEALED, At(Holding([7]), true, false, 1), JobOf(Collected, 1, {0}, {0}), Pair(TAKEN))

  ghost function Full(pc: Pc, stop: bool): Reader {
    Reader([7], pc, true, stop, false, 1)
  }

  ghost const D13 := One(READ, true, SEALED, Full(Top, false), JobOf(Collected, 1, {0}, {0}), Pair(TAKEN))
  ghost const D14 := One(READ, true, SEALED, Full(Selecting, false), JobOf(Collected, 1, {0}, {0}), Pair(TAKEN))
  ghost const D15 := One(READ, true, SEALED, Full(Reading, false), JobOf(Collected, 1, {0}, {0}), Pair(TAKEN))
  ghost const D16 := One(READ, true, SEALED, Full(Reading, false), JobOf(ReadySent, 1, {0}, {0}),
                         Pair(Served(Serving, [ToSuccessor.Ready(SNAP)], [], AwaitReady, map[], {0})))
  ghost const D17 := One(READ, true, SEALED, Full(Reading, false), JobOf(FdsSent, 1, {0}, {0}),
                         Pair(Served(Serving, [ToSuccessor.Ready(SNAP), Fds(1)], [], AwaitReady, map[], {0})))
  ghost const D18 := One(READ, true, SEALED, Full(Reading, false), JobOf(FdsSent, 1, {0}, {0}),
                         Pair(Served(Serving, [Fds(1)], [], AwaitFds, SNAP, {0})))
  ghost const D19 := One(READ, true, SEALED, Full(Reading, false), JobOf(FdsSent, 1, {0}, {0}),
                         Pair(Served(Serving, [], [], GotFds, SNAP, {0})))
  ghost const D20 := One(READ, true, SEALED, Full(Reading, false), JobOf(FdsSent, 1, {0}, {0}),
                         Pair(Served(Serving, [], [3], AckSent, SNAP, {0})))
  ghost const KEPT := Served(Kept, [], [], AckSent, SNAP, {0})
  ghost const D21 := One(READ, true, OVER, Full(Reading, false), JobOf(Committed, 1, {0}, {0}), Pair(KEPT))
  ghost const D22 := One(READ, true, OVER, Full(Reading, true), JobOf(Stopping, 1, {0}, {0}), Pair(KEPT))
  ghost const D23 := One(READ, true, OVER, Full(Reading, true), JobOf(Released, 1, {0}, {}), Pair(KEPT))
  ghost const D24 := One(READ, true, OVER, Full(Reading, true), JobOf(Released, 1, {0}, {}),
                         Pair(Conn(Kept, Wire(true, false, [], []), Heir(AckSent, SNAP, map[]), SNAP, {0})))
  ghost const HEIR := Conn(Kept, Wire(true, true, [], []), Heir(Adopted, SNAP, map[0 := []]), SNAP, {0})
  ghost const D25 := One(READ, true, OVER, Full(Reading, true), JobOf(Released, 1, {0}, {}), Pair(HEIR))
  ghost const D26 := One(READ, false, OVER, Full(Reading, true), JobOf(Released, 1, {0}, {}), Pair(HEIR))
  ghost const D27 := One(READ, false, OVER, Full(Reading, true), JobOf(Released, 1, {0}, {}),
                         Pair(HEIR.(heir := Heir(Streaming, SNAP, map[0 := []]))))

  lemma StaleInput()
    ensures Reachable(D4)
  {
    RollsBack();
    ByReader(A17, Unpark, UNREAD, At(Resuming, false, true, 0), D1);
    Reach(D1, OnRegistry(TakeGuard), D2);
    Reach(D2, OnRegistry(Input(0)), D3);
    Reach(D3, OnRegistry(DropGuard), D4);
  }

  lemma StaleAsked()
    ensures Reachable(D7)
  {
    StaleInput();
    Reach(D4, Connect(1), D5);
    BySetup(D5, 1, Lock, D6);
    BySetup(D6, 1, Ask(0), D7);
  }

  lemma StaleSampled()
    ensures Reachable(STALE_COLLECTS)
  {
    StaleAsked();
    assert {} + {0} == {0};
    BySetup(D7, 1, Sample(0), STALE_SAMPLED);
    BySetup(STALE_SAMPLED, 1, BeginCollect, STALE_COLLECTS);
  }

  lemma StaleCollects()
    ensures Reachable(D8)
  {
    StaleSampled();
    assert STALE.offered[0 := Some([])] == SNAP;
    ByCollect(STALE_COLLECTS, 1, Snap(0, false), STALE_SNAPPED);
    ByCollect(STALE_SNAPPED, 1, SealAgents, D8);
  }

  lemma StaleResumes()
    ensures Reachable(D11)
  {
    StaleCollects();
    ByReader(D8, MarkResumed, UNREAD, At(Top, true, false, 1), D9);
    ByReader(D9, Pass, UNREAD, At(Selecting, true, false, 1), D10);
    ByReader(D10, ReaderMove.Ready, UNREAD, At(Reading, true, false, 1), D11);
  }

  lemma StaleReads()
    ensures Reachable(D13)
  {
    StaleResumes();
    assert Bytes(UNREAD, 1) == [7] && Taken(UNREAD, Daemon, 1) == READ;
    ByReader(D11, Read(1), READ, At(Holding([7]), true, false, 1), D12);
    ByReader(D12, Mirror(0), READ, Full(Top, false), D13);
  }

  lemma StaleReadsOn()
    ensures Reachable(D15)
  {
    StaleReads();
    ByReader(D13, Pass, READ, Full(Selecting, false), D14);
    ByReader(D14, ReaderMove.Ready, READ, Full(Reading, false), D15);
  }

  lemma StaleSends()
    ensures Reachable(D17)
  {
    StaleReadsOn();
    ByTransfer(D15, 1, SendReady, D16);
    ByTransfer(D16, 1, SendFds, D17);
  }

  lemma StaleAcks()
    ensures Reachable(D20)
  {
    StaleSends();
    ByHeir(D17, 1, ReceiveReady, D18);
    ByHeir(D18, 1, ReceiveFds, D19);
    ByHeir(D19, 1, Acknowledge, D20);
  }

  lemma StaleCommits()
    ensures Reachable(D22)
  {
    StaleAcks();
    ByTransfer(D20, 1, ReadAck, D21);
    ByEnding(D21, 1, RequestStop, D22);
  }

  lemma StaleReleases()
    ensures Reachable(D24)
  {
    StaleCommits();
    ByEnding(D22, 1, Release, D23);
    ByEnding(D23, 1, CloseAfterCommit, D24);
  }

  /** End of file, and the incumbent still about to read. */
  lemma StaleAdopts()
    ensures Reachable(D25) && Adopts(D25, 1, 0) && IncumbentReads(D25, 0)
  {
    StaleReleases();
    ByHeir(D24, 1, SeeEof, D25);
  }

  /** A second attempt over the mark the first one left: the commit goes through, and a
      byte the incumbent read after the snapshot dies with it. */
  lemma StaleMarkLosesBytes()
    ensures Reachable(D27) && HasCommitted(D27.inc.job.phase) && Standing(D27, 1) && SuccessorReads(D27, 1, 0)
    ensures D27.links[1].heir.received[0] == Some([]) && !Continuous(D27, 1, 0, [])
  {
    StaleAdopts();
    Reach(D25, Die, D26);
    ByHeir(D26, 1, StartReaders, D27);
  }

  // ------------------------------------------------------------- two successors

  /** The successor of the rolled-back attempt acknowledges late and takes the exit of
      the incumbent, after its commit to another, for its own release: two successors
      read one PTY. */
  lemma TwoSuccessorsAdopt() returns (t: State)
    ensures Reachable(t) && SuccessorReads(t, 0, 0) && SuccessorReads(t, 1, 0)
  {
    StaleAdopts();
    t := RivalsCanMeet(D25, 0, 1, 0);
    FollowsReachable(D25, t);
  }
}
