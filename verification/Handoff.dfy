/**
 The daemon handoff as a protocol between the incumbent and any number of
 successors, each on its own connection.

 The incumbent seals its registry, asks its PTY readers to park, waits for their
 quiesced marks, snapshots every session, sends metadata and descriptors, and waits
 for an acknowledgement; it then commits or rolls back and may be asked again. A
 successor acknowledges, adopts only when its connection reports end of file, and
 starts reading only when the incumbent is dead. Deadlines are steps that may fire at
 any moment, and every process may die at any moment.

 Sessions are named by PTY incarnation: a respawn under the same session id is a
 different PTY. The terminal emulator is abstracted to the bytes it was fed.
 */
module Handoff {
  import opened Common

  type Pty = nat
  type Link = nat   // one successor's connection

  datatype Who = Daemon | Successor(link: Link)

  /** The kernel's side of one PTY: everything the child wrote, and who took each
      byte taken so far off the master. */
  datatype Kernel = Kernel(output: seq<Byte>, takers: seq<Who>)

  datatype Pc =
    | Top                           // at the checks that begin an iteration
    | Selecting                     // inside select
    | Reading                       // found no stop request, about to read(2)
    | Holding(chunk: seq<Byte>)     // read(2) returned, the chunk is not mirrored yet
    | Parked                        // marked quiesced, in the inner loop
    | Resuming                      // out of the inner loop, the mark still set
    | Leaving                       // out of the loop, exit cleanup not done
    | Stopped                       // marked stopped

  /** One `stream_output` task with its `StreamControl` flags and the number of
      accepted inputs it has not written yet. */
  datatype Reader = Reader(mirror: seq<Byte>, pc: Pc, quiesce: bool, stop: bool, marked: bool, inputs: nat)

  /** What the transferred metadata says of a session: its snapshot, if taken. */
  type Infos = map<Pty, Option<seq<Byte>>>

  /** The seven ways a transfer is given up. */
  datatype Exit =
    | QuiesceTimeout
    | ReadyWriteFailed
    | ReadyFlushFailed
    | FdSendFailed
    | UnexpectedAck
    | Disconnect
    | AckTimeout

  datatype Task = ResumeReaders | CloseClones | Unseal | DropAgentSeal | ReleaseLock

  datatype Phase =
    | Idle
    | Locked                                    // lock and seal taken, asking readers
    | Collecting                                // every mark found set, taking snapshots
    | Collected
    | ReadySent
    | FdsSent
    | RollingBack(exit: Exit, todo: seq<Task>)  // what is left of that exit's code
    | Committed
    | Stopping
    | Released

  datatype ToSuccessor = Ready(infos: Infos) | Fds(count: nat) | Noise

  datatype Stage =
    | AwaitReady
    | AwaitFds
    | GotFds
    | AckSent
    | KillSent
    | Adopted       // end of file seen, waiting for the incumbent's death
    | Streaming     // reading what it adopted
    | Gone

  /** The lifecycle lock and the two registry seals. */
  datatype Fence = Fence(
    running: bool,          // DaemonLifecycleState::Running
    writeLocked: bool,      // lifecycle lock held by a handoff
    guards: nat,            // lifecycle read guards held by commands and exits
    sealed: bool,
    agentSealed: bool)

  /** The handoff in progress, if any: whose connection, which readers are asked to
      park, whose mark was found set in the last pass over them, which sessions were
      skipped as dead, which descriptor clones are open. */
  datatype Job = Job(phase: Phase, link: Link, asked: set<Pty>, sampled: set<Pty>, skipped: set<Pty>, clones: set<Pty>)

  datatype Incumbent = Incumbent(alive: bool, fence: Fence, registry: map<Pty, Reader>, job: Job)

  /** How the incumbent's handler stands towards a connection. */
  datatype Status = Fresh | Serving | Back | Kept

  datatype Wire = Wire(
    closed: bool,           // the incumbent closed its end, short of dying
    left: bool,             // the successor closed its end
    inbox: seq<ToSuccessor>,
    outbox: seq<nat>)       // acknowledgements, by protocol version

  datatype Heir = Heir(stage: Stage, received: Infos, adopted: map<Pty, seq<Byte>>)

  /** A connection, with the metadata collected for it and the sessions whose reader
      was not really quiet when its mark was sampled. */
  datatype Conn = Conn(status: Status, wire: Wire, heir: Heir, offered: Infos, unsettled: set<Pty>)

  datatype State = State(kernel: map<Pty, Kernel>, inc: Incumbent, links: map<Link, Conn>)

  /** The protocol version both ends agreed on. */
  const VERSION: nat := 3

  datatype ReaderMove =
    | Pass | Park | Unpark | MarkResumed
    | Ready | Read(n: nat) | Mirror(replies: nat)
    | Turn | WriteInput | Break | Stop

  /** A command or an exit on the incumbent, fenced by the lifecycle lock. */
  datatype Command = TakeGuard | DropGuard | Spawn(pty: Pty) | Remove(pty: Pty) | Input(pty: Pty)

  /** The handoff handler. */
  datatype HandlerMove =
    | Lock
    | Ask(pty: Pty)
    | Sample(pty: Pty)
    | BeginCollect
    | Snap(pty: Pty, blind: bool)
    | Skip(pty: Pty)
    | SealAgents
    | SendReady
    | SendFds
    | ReadAck
    | Fail(exit: Exit, garbled: bool)
    | ResumeOne(pty: Pty)
    | CloseOne(pty: Pty)
    | NextTask
    | RequestStop
    | Release
    | CloseAfterCommit

  /** The incumbent's connection loop outside a transfer. */
  datatype LoopMove = Refuse | ReplyLateAck | CloseOnEof

  datatype HeirMove =
    | ReceiveReady
    | ReceiveFds
    | Acknowledge
    | Ignore
    | SeeEof
    | StartReaders
    | GiveUp                 // a deadline, a bad peer, a failed write, or death
    | AdoptedRead(pty: Pty, n: nat)

  datatype Step =
    | Child(pty: Pty, bytes: seq<Byte>)
    | OnReader(pty: Pty, kernel: Kernel, reader: Reader)
    | OnRegistry(command: Command)
    | OnHandler(link: Link, handler: HandlerMove)
    | OnLoop(link: Link, loop: LoopMove)
    | OnHeir(link: Link, heir: HeirMove)
    | Kill(link: Link)       // a successor that waited too long kills the incumbent
    | Connect(link: Link)
    | Die

  // ------------------------------------------------------------- vocabulary

  function Held(r: Reader): seq<Byte> {
    if r.pc.Holding? then r.pc.chunk else []
  }

  /** What the handler takes for a parked reader. */
  predicate LooksQuiet(r: Reader) {
    r.marked || r.pc.Stopped?
  }

  /** A reader that will take no byte while it is asked to park: at rest, or on its
      way through the checks with nothing to write. */
  predicate Quiet(r: Reader) {
    r.pc.Parked? || r.pc.Stopped? || ((r.pc.Resuming? || r.pc.Top?) && r.inputs == 0)
  }

  predicate Transferring(phase: Phase) {
    phase.Locked? || phase.Collecting? || phase.Collected? || phase.ReadySent? || phase.FdsSent?
  }

  predicate HasCommitted(phase: Phase) {
    phase.Committed? || phase.Stopping? || phase.Released?
  }

  predicate SnapshotTaken(phase: Phase) {
    phase.Collected? || phase.ReadySent? || phase.FdsSent? || HasCommitted(phase)
  }

  /** The handler is at work under the lifecycle lock. */
  predicate Busy(phase: Phase) {
    Transferring(phase) || phase.RollingBack?
  }

  /** What each exit still does, in order, before the handler answers false. Only the
      first one comes before descriptors are cloned and the agent registry is sealed. */
  function Cleanup(exit: Exit): seq<Task> {
    match exit
    case QuiesceTimeout => [ResumeReaders, Unseal, ReleaseLock]
    case ReadyWriteFailed => [ResumeReaders, CloseClones, Unseal, DropAgentSeal, ReleaseLock]
    case ReadyFlushFailed => [ResumeReaders, CloseClones, Unseal, DropAgentSeal, ReleaseLock]
    case FdSendFailed => [ResumeReaders, CloseClones, Unseal, DropAgentSeal, ReleaseLock]
    case UnexpectedAck => [ResumeReaders, CloseClones, Unseal, DropAgentSeal, ReleaseLock]
    case Disconnect => [ResumeReaders, CloseClones, Unseal, DropAgentSeal, ReleaseLock]
    case AckTimeout => [ResumeReaders, CloseClones, Unseal, DropAgentSeal, ReleaseLock]
  }

  function Bytes(k: Kernel, n: nat): seq<Byte>
    requires |k.takers| + n <= |k.output|
  {
    k.output[|k.takers|..|k.takers| + n]
  }

  function Taken(k: Kernel, who: Who, n: nat): Kernel {
    k.(takers := k.takers + seq(n, _ => who))
  }

  // --------------------------------------------------------------- readers

  /** One move of a reader: its PTY and itself before, and after. */
  ghost predicate ReaderMoves(k: Kernel, r: Reader, move: ReaderMove, k': Kernel, r': Reader) {
    match move
    // An iteration that has inputs to write does not park, whatever it is asked.
    case Pass => r.pc.Top? && !r.stop && (!r.quiesce || r.inputs > 0) && k' == k && r' == r.(pc := Selecting)
    case Park => r.pc.Top? && !r.stop && r.quiesce && k' == k && r' == r.(pc := Parked, marked := true)
    case Unpark => r.pc.Parked? && !r.quiesce && k' == k && r' == r.(pc := Resuming)
    case MarkResumed => r.pc.Resuming? && k' == k && r' == r.(pc := Top, marked := false)
    case Ready => r.pc.Selecting? && !r.stop && k' == k && r' == r.(pc := Reading)
    case Read(n) =>
      && r.pc.Reading? && 0 < n <= 4096 && |k.takers| + n <= |k.output|
      && k' == Taken(k, Daemon, n) && r' == r.(pc := Holding(Bytes(k, n)))
    case Mirror(replies) =>
      && r.pc.Holding? && k' == k
      // A stop that lands between read and mirror drops the late chunk.
      && (r.stop ==> r' == r.(pc := Stopped, marked := false))
      && (!r.stop ==> r' == r.(mirror := r.mirror + r.pc.chunk, pc := Top, inputs := r.inputs + replies))
    case Turn => (r.pc.Selecting? || r.pc.Reading?) && k' == k && r' == r.(pc := Top)
    case WriteInput => r.pc.Selecting? && r.inputs > 0 && k' == k && r' == r.(pc := Top, inputs := r.inputs - 1)
    case Break => (r.pc.Selecting? || r.pc.Reading?) && k' == k && r' == r.(pc := Leaving)
    case Stop =>
      && (r.pc.Leaving? || (r.stop && (r.pc.Top? || r.pc.Selecting? || r.pc.Reading? || r.pc.Parked?)))
      && k' == k && r' == r.(pc := Stopped, marked := false)
  }

  ghost predicate SomeReaderMove(k: Kernel, r: Reader, k': Kernel, r': Reader) {
    exists move :: ReaderMoves(k, r, move, k', r')
  }

  // -------------------------------------------------------------- registry

  predicate MayChangeRegistry(inc: Incumbent) {
    inc.fence.guards > 0 && inc.fence.running && !inc.fence.sealed
  }

  ghost predicate RegistryMoves(s: State, command: Command, t: State) {
    && s.inc.alive
    && match command
       case TakeGuard =>
         !s.inc.fence.writeLocked && t == s.(inc := s.inc.(fence := s.inc.fence.(guards := s.inc.fence.guards + 1)))
       case DropGuard =>
         s.inc.fence.guards > 0 && t == s.(inc := s.inc.(fence := s.inc.fence.(guards := s.inc.fence.guards - 1)))
       case Spawn(p) =>
         && MayChangeRegistry(s.inc) && p !in s.kernel
         && t == s.(kernel := s.kernel[p := Kernel([], [])],
                    inc := s.inc.(registry := s.inc.registry[p := Reader([], Top, false, false, false, 0)]))
       case Remove(p) =>
         && MayChangeRegistry(s.inc) && p in s.inc.registry
         && t == s.(inc := s.inc.(registry := s.inc.registry - {p}))
       case Input(p) =>
         && s.inc.fence.guards > 0 && s.inc.fence.running && p in s.inc.registry
         && t == s.(inc := s.inc.(registry :=
                      s.inc.registry[p := s.inc.registry[p].(inputs := s.inc.registry[p].inputs + 1)]))
  }

  // ------------------------------------------------------------- incumbent

  function Marked(registry: map<Pty, Reader>, p: Pty, quiesce: bool): map<Pty, Reader>
    requires p in registry
  {
    registry[p := registry[p].(quiesce := quiesce)]
  }

  function AllStopped(registry: map<Pty, Reader>): map<Pty, Reader> {
    map p | p in registry :: registry[p].(stop := true)
  }

  /** When each exit can be taken. */
  ghost predicate MayFail(inc: Incumbent, wire: Wire, exit: Exit) {
    match exit
    case QuiesceTimeout =>
      && inc.job.phase.Locked? && inc.job.asked == inc.registry.Keys
      && exists p :: p in inc.registry && p !in inc.job.sampled && !LooksQuiet(inc.registry[p])
    case ReadyWriteFailed => inc.job.phase.Collected?
    case ReadyFlushFailed => inc.job.phase.ReadySent?
    case FdSendFailed => inc.job.phase.ReadySent?
    case UnexpectedAck => inc.job.phase.FdsSent? && wire.outbox != [] && wire.outbox[0] != VERSION
    case Disconnect => inc.job.phase.FdsSent? && wire.left && wire.outbox == []
    case AckTimeout => inc.job.phase.FdsSent?
  }

  /** An empty transfer sends no descriptor message at all. */
  function FdMessage(infos: Infos): seq<ToSuccessor> {
    if |infos| == 0 then [] else [Fds(|infos|)]
  }

  /** Taking the lock, asking, and the last pass over the marks. */
  ghost predicate SetupMoves(inc: Incumbent, conn: Conn, l: Link, move: HandlerMove, inc': Incumbent, conn': Conn) {
    match move
    case Lock =>
      && inc.job.phase.Idle? && conn.status.Fresh? && !conn.wire.closed
      && !inc.fence.writeLocked && inc.fence.guards == 0 && inc.fence.running
      && conn' == conn.(status := Serving)
      && inc' == inc.(fence := inc.fence.(writeLocked := true, sealed := true), job := Job(Locked, l, {}, {}, {}, {}))
    case Ask(p) =>
      && inc.job.phase.Locked? && inc.job.link == l && p in inc.registry && p !in inc.job.asked && conn' == conn
      && inc' == inc.(registry := Marked(inc.registry, p, true), job := inc.job.(asked := inc.job.asked + {p}))
    case Sample(p) =>
      && inc.job.phase.Locked? && inc.job.link == l && inc.job.asked == inc.registry.Keys
      && p in inc.registry && p !in inc.job.sampled && LooksQuiet(inc.registry[p])
      && conn' == conn.(unsettled := if Quiet(inc.registry[p]) then conn.unsettled else conn.unsettled + {p})
      && inc' == inc.(job := inc.job.(sampled := inc.job.sampled + {p}))
    case BeginCollect =>
      && inc.job.phase.Locked? && inc.job.link == l && inc.job.sampled == inc.job.asked == inc.registry.Keys && conn' == conn
      && inc' == inc.(job := inc.job.(phase := Collecting))
    case _ => false
  }

  /** Taking the snapshots, one session after another; a `blind` one fails, and its
      session transfers without. */
  ghost predicate CollectMoves(inc: Incumbent, conn: Conn, l: Link, move: HandlerMove, inc': Incumbent, conn': Conn) {
    && inc.job.phase.Collecting? && inc.job.link == l
    && match move
       case Snap(p, blind) =>
         && p in inc.registry && p !in conn.offered && p !in inc.job.skipped
         && conn' == conn.(offered := conn.offered[p := if blind then None else Some(inc.registry[p].mirror)])
         && inc' == inc.(job := inc.job.(clones := inc.job.clones + {p}))
       case Skip(p) =>
         && p in inc.registry && p !in conn.offered && p !in inc.job.skipped && conn' == conn
         && inc' == inc.(job := inc.job.(skipped := inc.job.skipped + {p}))
       case SealAgents =>
         && conn.offered.Keys + inc.job.skipped == inc.registry.Keys && conn' == conn
         && inc' == inc.(fence := inc.fence.(agentSealed := true), job := inc.job.(phase := Collected))
       case _ => false
  }

  /** Sending, and the outcome. */
  ghost predicate TransferMoves(inc: Incumbent, conn: Conn, l: Link, move: HandlerMove, inc': Incumbent, conn': Conn) {
    && inc.job.link == l
    && match move
       case SendReady =>
         && inc.job.phase.Collected? && inc' == inc.(job := inc.job.(phase := ReadySent))
         && conn' == conn.(wire := conn.wire.(inbox := conn.wire.inbox + [ToSuccessor.Ready(conn.offered)]))
       case SendFds =>
         && inc.job.phase.ReadySent? && inc' == inc.(job := inc.job.(phase := FdsSent))
         && conn' == conn.(wire := conn.wire.(inbox := conn.wire.inbox + FdMessage(conn.offered)))
       case ReadAck =>
         && inc.job.phase.FdsSent? && conn.wire.outbox != [] && conn.wire.outbox[0] == VERSION
         && conn' == conn.(status := Kept, wire := conn.wire.(outbox := conn.wire.outbox[1..]))
         && inc' == inc.(fence := inc.fence.(running := false, writeLocked := false), job := inc.job.(phase := Committed))
       case Fail(exit, garbled) =>
         && MayFail(inc, conn.wire, exit) && (garbled ==> exit.ReadyWriteFailed?)
         && inc' == inc.(job := inc.job.(phase := RollingBack(exit, Cleanup(exit))))
         && conn' == conn.(wire := conn.wire.(
                      inbox := conn.wire.inbox + (if garbled then [Noise] else []),
                      outbox := if exit.UnexpectedAck? then conn.wire.outbox[1..] else conn.wire.outbox))
       case _ => false
  }

  /** One step of the code of a rollback exit. */
  ghost predicate CleanupMoves(inc: Incumbent, conn: Conn, l: Link, move: HandlerMove, inc': Incumbent, conn': Conn) {
    && inc.job.link == l && inc.job.phase.RollingBack? && inc.job.phase.todo != []
    && var task, rest := inc.job.phase.todo[0], RollingBack(inc.job.phase.exit, inc.job.phase.todo[1..]);
    match move
    case ResumeOne(p) =>
      && task.ResumeReaders? && p in inc.job.asked && p in inc.registry && conn' == conn
      && inc' == inc.(registry := Marked(inc.registry, p, false), job := inc.job.(asked := inc.job.asked - {p}))
    case CloseOne(p) =>
      && task.CloseClones? && p in inc.job.clones && conn' == conn
      && inc' == inc.(job := inc.job.(clones := inc.job.clones - {p}))
    case NextTask =>
      && (task.ResumeReaders? ==> inc.job.asked == {}) && (task.CloseClones? ==> inc.job.clones == {})
      && (!task.ReleaseLock? ==>
            && conn' == conn
            && inc' == inc.(fence := inc.fence.(sealed := inc.fence.sealed && !task.Unseal?,
                                                agentSealed := inc.fence.agentSealed && !task.DropAgentSeal?),
                            job := inc.job.(phase := rest)))
      && (task.ReleaseLock? ==>
            && conn' == conn.(status := Back)
            && inc' == inc.(fence := inc.fence.(writeLocked := false), job := inc.job.(phase := Idle)))
    case _ => false
  }

  /** After the commit. */
  ghost predicate EndingMoves(inc: Incumbent, conn: Conn, l: Link, move: HandlerMove, inc': Incumbent, conn': Conn) {
    && inc.job.link == l
    && match move
       case RequestStop =>
         && inc.job.phase.Committed? && conn' == conn
         && inc' == inc.(registry := AllStopped(inc.registry), job := inc.job.(phase := Stopping))
       case Release =>
         && inc.job.phase.Stopping? && conn' == conn
         && inc' == inc.(job := inc.job.(phase := Released, clones := {}))
       case CloseAfterCommit =>
         && inc.job.phase.Released? && inc' == inc && conn' == conn.(wire := conn.wire.(closed := true))
       case _ => false
  }

  ghost predicate HandlerMoves(inc: Incumbent, conn: Conn, l: Link, move: HandlerMove, inc': Incumbent, conn': Conn) {
    || SetupMoves(inc, conn, l, move, inc', conn')
    || CollectMoves(inc, conn, l, move, inc', conn')
    || TransferMoves(inc, conn, l, move, inc', conn')
    || CleanupMoves(inc, conn, l, move, inc', conn')
    || EndingMoves(inc, conn, l, move, inc', conn')
  }

  ghost predicate LoopMoves(conn: Conn, move: LoopMove, conn': Conn) {
    && !conn.wire.closed && (conn.status.Fresh? || conn.status.Back?)
    && match move
       case Refuse => conn.status.Fresh? && conn' == conn.(wire := conn.wire.(inbox := conn.wire.inbox + [Noise]))
       case ReplyLateAck =>
         && conn.wire.outbox != []
         && conn' == conn.(wire := conn.wire.(outbox := conn.wire.outbox[1..], inbox := conn.wire.inbox + [Noise]))
       case CloseOnEof => conn.wire.left && conn.wire.outbox == [] && conn' == conn.(wire := conn.wire.(closed := true))
  }

  // ------------------------------------------------------------- successor

  predicate Waiting(stage: Stage) {
    stage.AckSent? || stage.KillSent?
  }

  predicate HasAdopted(stage: Stage) {
    stage.Adopted? || stage.Streaming?
  }

  ghost predicate HeirMoves(alive: bool, kernel: map<Pty, Kernel>, conn: Conn, move: HeirMove, conn': Conn) {
    match move
    case ReceiveReady =>
      && conn.heir.stage.AwaitReady? && conn.wire.inbox != [] && conn.wire.inbox[0].Ready?
      && conn' == conn.(wire := conn.wire.(inbox := conn.wire.inbox[1..]),
                        heir := conn.heir.(received := conn.wire.inbox[0].infos,
                                           stage := if |conn.wire.inbox[0].infos| == 0 then GotFds else AwaitFds))
    case ReceiveFds =>
      && conn.heir.stage.AwaitFds? && conn.wire.inbox != [] && conn.wire.inbox[0] == Fds(|conn.heir.received|)
      && conn' == conn.(wire := conn.wire.(inbox := conn.wire.inbox[1..]), heir := conn.heir.(stage := GotFds))
    case Acknowledge =>
      && conn.heir.stage.GotFds?
      && conn' == conn.(wire := conn.wire.(outbox := conn.wire.outbox + [VERSION]), heir := conn.heir.(stage := AckSent))
    case Ignore =>
      && Waiting(conn.heir.stage) && conn.wire.inbox != []
      && conn' == conn.(wire := conn.wire.(inbox := conn.wire.inbox[1..]))
    case SeeEof =>
      && Waiting(conn.heir.stage) && conn.wire.inbox == [] && (conn.wire.closed || !alive)
      && conn' == conn.(wire := conn.wire.(left := true),
                        heir := Heir(Adopted, conn.heir.received,
                                     map p | p in conn.heir.received && p in kernel :: []))
    case StartReaders =>
      // A successor that adopted nothing does not wait.
      && conn.heir.stage.Adopted? && (!alive || conn.heir.adopted == map[])
      && conn' == conn.(heir := conn.heir.(stage := Streaming))
    case GiveUp =>
      && !conn.heir.stage.Gone?
      && conn' == conn.(wire := conn.wire.(left := true), heir := conn.heir.(stage := Gone))
    case AdoptedRead(_, _) => false
  }

  /** A successor that has started its readers reads a PTY it adopted. */
  ghost predicate AdoptedReads(s: State, l: Link, p: Pty, n: nat, t: State) {
    && l in s.links && p in s.kernel
    && var conn, k := s.links[l], s.kernel[p];
    && conn.heir.stage.Streaming? && p in conn.heir.adopted
    && 0 < n <= 4096 && |k.takers| + n <= |k.output|
    && t == s.(kernel := s.kernel[p := Taken(k, Successor(l), n)],
               links := s.links[l := conn.(heir := conn.heir.(
                          adopted := conn.heir.adopted[p := conn.heir.adopted[p] + Bytes(k, n)]))])
  }

  // ---------------------------------------------------------------- system

  const NEW_CONN: Conn := Conn(Fresh, Wire(false, false, [], []), Heir(AwaitReady, map[], map[]), map[], {})

  ghost predicate Next(s: State, step: Step, t: State) {
    match step
    case Child(p, bytes) =>
      p in s.kernel && t == s.(kernel := s.kernel[p := s.kernel[p].(output := s.kernel[p].output + bytes)])
    case OnReader(p, k, r) =>
      && s.inc.alive && p in s.inc.registry && p in s.kernel
      && SomeReaderMove(s.kernel[p], s.inc.registry[p], k, r)
      && t == s.(kernel := s.kernel[p := k], inc := s.inc.(registry := s.inc.registry[p := r]))
    case OnRegistry(command) => RegistryMoves(s, command, t)
    case OnHandler(l, move) =>
      && s.inc.alive && l in s.links && l in t.links
      && HandlerMoves(s.inc, s.links[l], l, move, t.inc, t.links[l])
      && t == s.(inc := t.inc, links := s.links[l := t.links[l]])
    case OnLoop(l, move) =>
      && s.inc.alive && l in s.links && l in t.links
      && LoopMoves(s.links[l], move, t.links[l]) && t == s.(links := s.links[l := t.links[l]])
    case OnHeir(l, AdoptedRead(p, n)) => AdoptedReads(s, l, p, n, t)
    case OnHeir(l, move) =>
      && l in s.links && l in t.links
      && HeirMoves(s.inc.alive, s.kernel, s.links[l], move, t.links[l]) && t == s.(links := s.links[l := t.links[l]])
    case Kill(l) =>
      && s.inc.alive && l in s.links && (s.links[l].heir.stage.AckSent? || s.links[l].heir.stage.Adopted?)
      && t == s.(inc := s.inc.(alive := false),
                 links := s.links[l := s.links[l].(heir := s.links[l].heir.(
                            stage := if s.links[l].heir.stage.AckSent? then KillSent else Adopted))])
    case Connect(l) => s.inc.alive && l !in s.links && t == s.(links := s.links[l := NEW_CONN])
    case Die => s.inc.alive && t == s.(inc := s.inc.(alive := false))
  }

  // ------------------------------------------------------------------ runs

  /** The mirror, and the chunk in hand, are exactly the bytes taken so far. */
  ghost predicate InStep(k: Kernel, r: Reader) {
    |k.takers| <= |k.output| && r.mirror + Held(r) == k.output[..|k.takers|]
  }

  ghost predicate AllDaemon(k: Kernel) {
    forall i :: 0 <= i < |k.takers| ==> k.takers[i].Daemon?
  }

  /** A serving incumbent nobody has contacted yet: any set of streaming sessions,
      each of whose mirrors has taken in exactly what was read. */
  ghost predicate Initial(s: State) {
    && s.inc.alive && s.inc.fence == Fence(true, false, 0, false, false) && s.inc.job == Job(Idle, 0, {}, {}, {}, {})
    && s.links == map[]
    && (forall p :: p in s.kernel ==> |s.kernel[p].takers| <= |s.kernel[p].output| && AllDaemon(s.kernel[p]))
    && (forall p :: p in s.inc.registry ==> p in s.kernel && InStep(s.kernel[p], s.inc.registry[p]))
    && (forall p :: p in s.inc.registry ==> Undisturbed(s.inc.registry[p]))
  }

  predicate Undisturbed(r: Reader) {
    !r.quiesce && !r.stop && !r.marked && !r.pc.Parked? && !r.pc.Resuming?
  }

  ghost predicate Linked(s: State, t: State) {
    exists step :: Next(s, step, t)
  }

  /** States that follow one another, from anywhere. */
  ghost predicate Path(run: seq<State>) {
    run != [] && forall i :: 0 < i < |run| ==> StepAt(run, i)
  }

  /** `run` lists the states of some execution from an initial state. */
  ghost predicate Run(run: seq<State>) {
    Path(run) && Initial(run[0])
  }

  ghost predicate StepAt(run: seq<State>, i: nat)
    requires 0 < i < |run|
  {
    Linked(run[i - 1], run[i])
  }
}
