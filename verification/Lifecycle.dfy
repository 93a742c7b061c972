/**
 The life of one session id: Spawn, Kill, a reader's natural exit and a handoff
 transfer, interleaved at every await with the commands and disconnects of clients.

 Every incarnation of the id has its own number. The id-keyed registries (fanout,
 terminal clients, sizes, recovery) hold at most one entry for the id, which remembers
 for which incarnation it was made. One lock per id serialises Spawn, Kill, natural
 exit and most client commands; a transfer excludes the first three.
 */
module Lifecycle {
  import opened Common

  type Inc = nat
  type Conn = nat   // a client connection

  datatype Slot = FanoutSlot | ClientsSlot | SizesSlot | RecoverySlot

  /** A registry's entry for the id: the incarnation registered when it was made, if
      any, and the clients recorded in it. */
  datatype Entry = Entry(owner: Option<Inc>, users: set<Conn>)

  datatype Event = Created(inc: Inc) | Exit(inc: Inc, killed: bool)

  /** Who holds the id's lifecycle lock, and how far they are. */
  datatype Holder =
    | Nobody
    | SpawnInstall                       // forked the child, about to insert the handle
    | SpawnPrepare(inc: Inc)             // inserted, about to claim the registries
    | SpawnStart(inc: Inc)               // about to start the reader
    | SpawnAnnounce(inc: Inc)            // about to publish SessionCreated
    | KillClaim
    | KillSignal(target: Option<Inc>)    // claimed, about to stop reader and child
    | KillWait(inc: Inc)                 // child killed, waiting for the reader to stop
    | KillPublish(inc: Inc)
    | KillClean
    | ExitRemove(inc: Inc)               // second check passed
    | ExitPublish(inc: Inc)
    | ExitClean(inc: Inc)

  datatype Reader =
    | Starting        // spawned, has not asked for its fanout yet
    | Streaming
    | AwaitingLock    // past its first check, waiting for the id's lock
    | Stopped

  datatype Registry = Registry(current: Option<Inc>, tomb: bool, retired: set<Inc>, stopAsked: set<Inc>, next: Inc)

  datatype Daemon = Daemon(running: bool, sealed: bool, transfer: bool)

  datatype State = State(
    reg: Registry,
    daemon: Daemon,
    holder: Holder,
    readers: map<Inc, Reader>,
    entries: map<Slot, Entry>,
    mirrored: set<Inc>,          // incarnations whose recovery mirror was started
    unkilled: set<Inc>,          // incarnations taken by a Kill whose signal failed
    log: seq<Event>)

  datatype Step =
    | BeginSpawn(forked: bool)
    | Install
    | Prepare(mirrors: bool)     // whether the recovery mirror could be started
    | StartReader
    | Announce
    | BeginKill
    | Claim
    | Signal(ok: bool)
    | SeeStopped
    | PublishKilled
    | CleanKilled
    | ReaderEnters(inc: Inc)     // gets or makes its fanout
    | ReaderFails(inc: Inc)      // cannot register the descriptor
    | ReaderStops(inc: Inc)
    | ReaderEnds(inc: Inc)       // end of file or error: first check
    | ReaderLocks(inc: Inc)      // lock taken: second check
    | RemoveSelf
    | PublishExit
    | CleanExit
    | Attach(conn: Conn, emulates: bool)
    | RegisterViewer(conn: Conn, recorded: bool)
    | Resize(conn: Conn)         // of this id, whether or not a session has it
    | Detach(conn: Conn)
    | Unregister(conn: Conn)     // from the terminal clients, on detach or disconnect
    | Disconnect(conn: Conn)     // of any client, whatever sessions it used
    | Seal
    | Rollback
    | Commit
    | ClearAll                   // after the commit

  const ALL_SLOTS: set<Slot> := {FanoutSlot, ClientsSlot, SizesSlot, RecoverySlot}

  /** Free to begin: the daemon serves, no transfer, nobody else at this id. */
  predicate Open(s: State) {
    s.holder.Nobody? && !s.daemon.transfer
  }

  predicate Withdrawn(reg: Registry, i: Inc) {
    i in reg.stopAsked || i in reg.retired
  }

  /** Get or make an entry and record clients in it. */
  function Joined(entries: map<Slot, Entry>, slot: Slot, owner: Option<Inc>, users: set<Conn>): map<Slot, Entry> {
    entries[slot := if slot in entries then entries[slot].(users := entries[slot].users + users) else Entry(owner, users)]
  }

  /** Take a client out of an entry; an entry without clients may go with it. */
  function Departed(entries: map<Slot, Entry>, slot: Slot, conn: Conn, drop: bool): map<Slot, Entry> {
    if slot !in entries then entries
    else if drop && entries[slot].users - {conn} == {} then entries - {slot}
    else entries[slot := entries[slot].(users := entries[slot].users - {conn})]
  }

  /** Spawn makes fanout and sizes if there are none, and starts the recovery mirror
      over if it can. */
  function Prepared(entries: map<Slot, Entry>, i: Inc, mirrors: bool): map<Slot, Entry> {
    var filled := Joined(Joined(entries, FanoutSlot, Some(i), {}), SizesSlot, Some(i), {});
    if mirrors then filled[RecoverySlot := Entry(Some(i), {})] else filled
  }

  // ----------------------------------------------------------------- Spawn

  ghost predicate SpawnStep(s: State, step: Step, t: State) {
    match step
    case BeginSpawn(forked) =>
      && Open(s)
      && t == s.(holder := if s.daemon.running && s.reg.current.None? && forked then SpawnInstall else Nobody)
    case Install =>
      && s.holder.SpawnInstall?
      && var refused := s.reg.current.Some? || s.daemon.sealed || s.reg.tomb;
      && (refused ==> t == s.(holder := Nobody))
      && (!refused ==> t == s.(reg := s.reg.(current := Some(s.reg.next), next := s.reg.next + 1),
                               holder := SpawnPrepare(s.reg.next)))
    case Prepare(mirrors) =>
      && s.holder.SpawnPrepare?
      && t == s.(entries := Prepared(s.entries, s.holder.inc, mirrors),
                 mirrored := if mirrors then s.mirrored + {s.holder.inc} else s.mirrored,
                 holder := SpawnStart(s.holder.inc))
    case StartReader =>
      && s.holder.SpawnStart?
      && t == s.(readers := s.readers[s.holder.inc := Starting], holder := SpawnAnnounce(s.holder.inc))
    case Announce => s.holder.SpawnAnnounce? && t == s.(log := s.log + [Created(s.holder.inc)], holder := Nobody)
    case _ => false
  }

  // ------------------------------------------------------------------ Kill

  ghost predicate KillStep(s: State, step: Step, t: State) {
    match step
    case BeginKill => Open(s) && t == s.(holder := if s.daemon.running then KillClaim else Nobody)
    case Claim =>
      && s.holder.KillClaim?
      && (s.daemon.sealed ==> t == s.(holder := Nobody))
      && (!s.daemon.sealed && s.reg.current.None? ==> t == s.(holder := KillSignal(None)))
      && (!s.daemon.sealed && s.reg.current.Some? ==>
            t == s.(reg := s.reg.(current := None, retired := s.reg.retired + {s.reg.current.value}, tomb := true),
                    holder := KillSignal(s.reg.current)))
    case Signal(ok) =>
      && s.holder.KillSignal?
      && (s.holder.target.None? ==> t == s.(entries := s.entries - {FanoutSlot}, holder := KillClean))
      && (s.holder.target.Some? ==>
            t == s.(reg := s.reg.(stopAsked := s.reg.stopAsked + {s.holder.target.value}),
                    unkilled := if ok then s.unkilled else s.unkilled + {s.holder.target.value},
                    entries := if ok then s.entries else s.entries - {FanoutSlot},
                    holder := if ok then KillWait(s.holder.target.value) else KillClean))
    case SeeStopped =>
      && s.holder.KillWait? && s.holder.inc in s.readers && s.readers[s.holder.inc].Stopped?
      && t == s.(entries := s.entries - {FanoutSlot}, holder := KillPublish(s.holder.inc))
    case PublishKilled =>
      && s.holder.KillPublish?
      && t == s.(log := s.log + [Exit(s.holder.inc, true)], entries := s.entries - {RecoverySlot}, holder := KillClean)
    case CleanKilled =>
      && s.holder.KillClean?
      && t == s.(reg := s.reg.(tomb := false), entries := s.entries - {ClientsSlot, SizesSlot}, holder := Nobody)
    case _ => false
  }

  // ---------------------------------------------------------- natural exit

  ghost predicate ReaderStep(s: State, step: Step, t: State) {
    match step
    case ReaderEnters(i) =>
      && i in s.readers && s.readers[i].Starting?
      && t == s.(readers := s.readers[i := Streaming], entries := Joined(s.entries, FanoutSlot, Some(i), {}))
    case ReaderFails(i) => i in s.readers && s.readers[i].Starting? && t == s.(readers := s.readers[i := Stopped])
    case ReaderStops(i) =>
      && i in s.readers && s.readers[i].Streaming? && Withdrawn(s.reg, i)
      && t == s.(readers := s.readers[i := Stopped])
    case ReaderEnds(i) =>
      && i in s.readers && s.readers[i].Streaming?
      && t == s.(readers := s.readers[i := if Withdrawn(s.reg, i) then Stopped else AwaitingLock])
    case ReaderLocks(i) =>
      && i in s.readers && s.readers[i].AwaitingLock? && Open(s)
      && (!s.daemon.running || Withdrawn(s.reg, i) ==> t == s.(readers := s.readers[i := Stopped]))
      && (s.daemon.running && !Withdrawn(s.reg, i) ==> t == s.(holder := ExitRemove(i)))
    case RemoveSelf =>
      // A sealed registry parks the reader until the seal lifts.
      && s.holder.ExitRemove? && !s.daemon.sealed
      && var i := s.holder.inc;
      && (s.reg.current == Some(i) ==>
            t == s.(reg := s.reg.(current := None, retired := s.reg.retired + {i}), holder := ExitPublish(i)))
      && (s.reg.current != Some(i) ==> t == s.(readers := s.readers[i := Stopped], holder := Nobody))
    case PublishExit =>
      && s.holder.ExitPublish?
      && t == s.(log := s.log + [Exit(s.holder.inc, false)], holder := ExitClean(s.holder.inc))
    case CleanExit =>
      && s.holder.ExitClean?
      && t == s.(entries := s.entries - ALL_SLOTS, readers := s.readers[s.holder.inc := Stopped], holder := Nobody)
    case _ => false
  }

  // ------------------------------------------------- clients and transfers

  /** Client commands and disconnects, which touch the registries only. */
  ghost predicate ClientStep(s: State, step: Step, t: State) {
    match step
    case Attach(conn, emulates) =>
      && s.holder.Nobody? && s.reg.current.Some?
      && var attached := Joined(s.entries, FanoutSlot, s.reg.current, {});
      && t == s.(entries := if emulates then Joined(attached, ClientsSlot, s.reg.current, {conn}) else attached)
    case RegisterViewer(conn, recorded) =>
      && s.holder.Nobody? && s.reg.current.Some?
      && t == s.(entries := Joined(s.entries, SizesSlot, s.reg.current, if recorded then {conn} else {}))
    case Resize(conn) => s.holder.Nobody? && t == s.(entries := Joined(s.entries, SizesSlot, s.reg.current, {conn}))
    case Detach(conn) => t == s.(entries := Departed(s.entries, SizesSlot, conn, false))
    case Unregister(conn) => t == s.(entries := Departed(s.entries, ClientsSlot, conn, true))
    case Disconnect(conn) => t == s.(entries := Departed(s.entries, SizesSlot, conn, true))
    case _ => false
  }

  ghost predicate TransferStep(s: State, step: Step, t: State) {
    match step
    case Seal => Open(s) && s.daemon.running && t == s.(daemon := s.daemon.(sealed := true, transfer := true))
    case Rollback => s.daemon.transfer && t == s.(daemon := s.daemon.(sealed := false, transfer := false))
    case Commit => s.daemon.transfer && t == s.(daemon := s.daemon.(running := false, transfer := false))
    case ClearAll => !s.daemon.running && t == s.(entries := s.entries - {FanoutSlot, SizesSlot})
    case _ => false
  }

  ghost predicate Next(s: State, step: Step, t: State) {
    SpawnStep(s, step, t) || KillStep(s, step, t) || ReaderStep(s, step, t) || ClientStep(s, step, t) || TransferStep(s, step, t)
  }

  ghost predicate Initial(s: State) {
    s == State(Registry(None, false, {}, {}, 0), Daemon(true, false, false), Nobody, map[], map[], {}, {}, [])
  }

  ghost predicate Linked(s: State, t: State) {
    exists step :: Next(s, step, t)
  }

  ghost predicate StepAt(run: seq<State>, i: nat)
    requires 0 < i < |run|
  {
    Linked(run[i - 1], run[i])
  }

  /** States that follow one another, from anywhere. */
  ghost predicate Path(run: seq<State>) {
    run != [] && forall i :: 0 < i < |run| ==> StepAt(run, i)
  }

  ghost predicate Run(run: seq<State>) {
    Path(run) && Initial(run[0])
  }

  // ------------------------------------------------------------- invariant

  ghost predicate Announced(log: seq<Event>, i: Inc) {
    exists k :: 0 <= k < |log| && log[k] == Created(i)
  }

  ghost predicate Ended(log: seq<Event>, i: Inc) {
    exists k :: 0 <= k < |log| && log[k].Exit? && log[k].inc == i
  }

  /** The published order: each incarnation is created once and exits at most once,
      after its own creation and before any replacement's. */
  ghost predicate Ordered(log: seq<Event>) {
    && (forall k :: 0 <= k < |log| && log[k].Exit? ==> Announced(log[..k], log[k].inc))
    && (forall k, m :: 0 <= k < m < |log| && log[k].Exit? && log[m].Exit? ==> log[k].inc != log[m].inc)
    && (forall k, m :: 0 <= k < m < |log| && log[k].Created? && log[m].Exit? ==> log[k].inc <= log[m].inc)
    && (forall k, m :: 0 <= k < m < |log| && log[k].Created? && log[m].Created? ==> log[k].inc < log[m].inc)
  }

  /** The incarnation an operation has taken out of the map and not yet published. */
  function Departing(h: Holder): Option<Inc> {
    match h
    case KillSignal(target) => target
    case KillWait(i) => Some(i)
    case KillPublish(i) => Some(i)
    case ExitPublish(i) => Some(i)
    case _ => None
  }

  /** The incarnation Spawn has inserted and not yet announced. */
  function Arriving(h: Holder): Option<Inc> {
    match h
    case SpawnPrepare(i) => Some(i)
    case SpawnStart(i) => Some(i)
    case SpawnAnnounce(i) => Some(i)
    case _ => None
  }

  /** The registry slot: only the newest incarnation is ever in it. */
  ghost predicate SlotOk(reg: Registry, h: Holder) {
    && (forall i :: i in reg.retired ==> i < reg.next)
    && (reg.current.Some? ==> reg.current.value + 1 == reg.next && reg.current.value !in reg.retired)
    && (Arriving(h).Some? ==> reg.current == Arriving(h))
    && (Departing(h).Some? ==> reg.current.None? && Departing(h).value + 1 == reg.next && Departing(h).value in reg.retired)
    && (h.KillClean? || h.KillSignal? || h.ExitClean? || h.SpawnInstall? ==> reg.current.None?)
    && (reg.tomb ==> h.KillSignal? || h.KillWait? || h.KillPublish? || h.KillClean?)
    && (h.ExitClean? ==> h.inc in reg.retired)
  }

  /** What has been published agrees with the slot. */
  ghost predicate Published(reg: Registry, h: Holder, log: seq<Event>) {
    && (forall k :: 0 <= k < |log| ==> log[k].inc < reg.next)
    && (reg.current.Some? && Arriving(h).None? ==> Announced(log, reg.current.value))
    && (Arriving(h).Some? ==> forall k :: 0 <= k < |log| ==> log[k].inc < Arriving(h).value)
    && (reg.current.Some? ==> !Ended(log, reg.current.value))
    && (Departing(h).Some? ==> Announced(log, Departing(h).value) && !Ended(log, Departing(h).value))
  }

  /** A transfer and an operation exclude each other. */
  ghost predicate Fenced(s: State) {
    && (s.daemon.transfer ==> s.holder.Nobody? && s.daemon.sealed && s.daemon.running)
    && (s.daemon.sealed && s.daemon.running ==> s.daemon.transfer)
    && (!s.holder.Nobody? ==> s.daemon.running && !s.daemon.sealed)
  }

  ghost predicate ReadersKnown(reg: Registry, h: Holder, readers: map<Inc, Reader>) {
    && (forall i :: i in readers ==> i < reg.next)
    && (forall i :: 0 <= i < reg.next && i !in readers ==> h == SpawnPrepare(i) || h == SpawnStart(i))
    && (h.ExitRemove? || h.ExitPublish? || h.ExitClean? ==> h.inc in readers && readers[h.inc].AwaitingLock?)
  }

  ghost predicate Inv(s: State) {
    && SlotOk(s.reg, s.holder)
    && Ordered(s.log)
    && Published(s.reg, s.holder, s.log)
    && Fenced(s)
    && ReadersKnown(s.reg, s.holder, s.readers)
  }

  // ------------------------------------------------- the invariant is kept

  /** The event may come next. */
  ghost predicate Timely(log: seq<Event>, e: Event) {
    && (e.Exit? ==> Announced(log, e.inc) && !Ended(log, e.inc) && forall k :: 0 <= k < |log| ==> log[k].inc <= e.inc)
    && (e.Created? ==> forall k :: 0 <= k < |log| ==> log[k].inc < e.inc)
  }

  lemma SnocAnnounced(log: seq<Event>, e: Event, k: nat)
    requires Ordered(log) && Timely(log, e) && k < |log + [e]| && (log + [e])[k].Exit?
    ensures Announced((log + [e])[..k], (log + [e])[k].inc)
  {
    assert (log + [e])[..k] == log[..k];
    assert log[..|log|] == log;
  }

  lemma SnocOrdered(log: seq<Event>, e: Event)
    requires Ordered(log) && Timely(log, e)
    ensures Ordered(log + [e])
  {
    var more := log + [e];
    forall k | 0 <= k < |more| && more[k].Exit? ensures Announced(more[..k], more[k].inc) {
      SnocAnnounced(log, e, k);
    }
  }

  lemma AppendCreated(log: seq<Event>, i: Inc)
    requires Ordered(log) && forall k :: 0 <= k < |log| ==> log[k].inc < i
    ensures Ordered(log + [Created(i)]) && Announced(log + [Created(i)], i) && !Ended(log + [Created(i)], i)
  {
    SnocOrdered(log, Created(i));
    assert (log + [Created(i)])[|log|] == Created(i);
  }

  lemma AppendExit(log: seq<Event>, i: Inc, killed: bool)
    requires Ordered(log) && Announced(log, i) && !Ended(log, i)
    requires forall k :: 0 <= k < |log| ==> log[k].inc <= i
    ensures Ordered(log + [Exit(i, killed)])
  {
    SnocOrdered(log, Exit(i, killed));
  }

  lemma SpawnSlot(s: State, step: Step, t: State)
    requires SlotOk(s.reg, s.holder) && Fenced(s) && SpawnStep(s, step, t)
    ensures SlotOk(t.reg, t.holder) && Fenced(t)
  {
  }

  lemma SpawnReaders(s: State, step: Step, t: State)
    requires ReadersKnown(s.reg, s.holder, s.readers) && SlotOk(s.reg, s.holder) && SpawnStep(s, step, t)
    ensures ReadersKnown(t.reg, t.holder, t.readers)
  {
  }

  /** The new incarnation is inserted: nothing published concerns it. */
  lemma InstallPublished(reg: Registry, h: Holder, reg': Registry, log: seq<Event>)
    requires Published(reg, h, log) && reg'.current == Some(reg.next) && reg'.next == reg.next + 1
    ensures Published(reg', SpawnPrepare(reg.next), log)
  {
  }

  lemma ArrivingPublished(reg: Registry, h: Holder, h': Holder, log: seq<Event>)
    requires Published(reg, h, log) && Arriving(h).Some? && Arriving(h') == Arriving(h)
    ensures Published(reg, h', log)
  {
  }

  /** ... until it is announced. */
  lemma AnnouncePublished(reg: Registry, h: Holder, i: Inc, log: seq<Event>)
    requires SlotOk(reg, h) && Ordered(log) && Published(reg, h, log) && Arriving(h) == Some(i)
    ensures Ordered(log + [Created(i)]) && Published(reg, Nobody, log + [Created(i)])
  {
    AppendCreated(log, i);
  }

  lemma SpawnPublished(s: State, step: Step, t: State)
    requires SlotOk(s.reg, s.holder) && Ordered(s.log) && Published(s.reg, s.holder, s.log) && SpawnStep(s, step, t)
    ensures Ordered(t.log) && Published(t.reg, t.holder, t.log)
  {
    match step
    case BeginSpawn(_) => QuietPublished(s.reg, s.holder, t.reg, t.holder, s.log);
    case Install =>
      if t.reg == s.reg {
        QuietPublished(s.reg, s.holder, t.reg, t.holder, s.log);
      } else {
        InstallPublished(s.reg, s.holder, t.reg, s.log);
      }
    case Announce => AnnouncePublished(s.reg, s.holder, s.holder.inc, s.log);
    case _ => ArrivingPublished(s.reg, s.holder, t.holder, s.log);
  }

  lemma SpawnInv(s: State, step: Step, t: State)
    requires Inv(s) && SpawnStep(s, step, t)
    ensures Inv(t)
  {
    SpawnSlot(s, step, t);
    SpawnReaders(s, step, t);
    SpawnPublished(s, step, t);
  }

  /** Publishing the departing incarnation's Exit. */
  lemma ExitPublished(reg: Registry, h: Holder, i: Inc, killed: bool, h': Holder, log: seq<Event>)
    requires SlotOk(reg, h) && Ordered(log) && Published(reg, h, log)
    requires Departing(h) == Some(i) && Departing(h').None? && Arriving(h').None?
    ensures Ordered(log + [Exit(i, killed)]) && Published(reg, h', log + [Exit(i, killed)])
  {
    AppendExit(log, i, killed);
  }

  /** Taking the current incarnation out, or nothing at all, without publishing. */
  lemma QuietPublished(reg: Registry, h: Holder, reg': Registry, h': Holder, log: seq<Event>)
    requires Published(reg, h, log) && Arriving(h).None? && Arriving(h').None? && reg'.next == reg.next
    requires reg'.current == reg.current || reg'.current.None?
    requires Departing(h').Some? ==> Departing(h') == Departing(h) || Departing(h') == reg.current
    ensures Published(reg', h', log)
  {
  }

  lemma KillSlot(s: State, step: Step, t: State)
    requires SlotOk(s.reg, s.holder) && Fenced(s) && KillStep(s, step, t)
    ensures SlotOk(t.reg, t.holder) && Fenced(t)
  {
  }

  lemma KillReaders(s: State, step: Step, t: State)
    requires ReadersKnown(s.reg, s.holder, s.readers) && KillStep(s, step, t)
    ensures ReadersKnown(t.reg, t.holder, t.readers)
  {
  }

  lemma KillPublished(s: State, step: Step, t: State)
    requires SlotOk(s.reg, s.holder) && Ordered(s.log) && Published(s.reg, s.holder, s.log) && KillStep(s, step, t)
    ensures Ordered(t.log) && Published(t.reg, t.holder, t.log)
  {
    if step.PublishKilled? {
      ExitPublished(s.reg, s.holder, s.holder.inc, true, t.holder, s.log);
    } else {
      QuietPublished(s.reg, s.holder, t.reg, t.holder, s.log);
    }
  }

  lemma KillInv(s: State, step: Step, t: State)
    requires Inv(s) && KillStep(s, step, t)
    ensures Inv(t)
  {
    KillSlot(s, step, t);
    KillReaders(s, step, t);
    KillPublished(s, step, t);
  }

  lemma ReaderSlot(s: State, step: Step, t: State)
    requires SlotOk(s.reg, s.holder) && Fenced(s) && ReaderStep(s, step, t)
    ensures SlotOk(t.reg, t.holder) && Fenced(t)
  {
  }

  lemma ReaderReaders(s: State, step: Step, t: State)
    requires ReadersKnown(s.reg, s.holder, s.readers) && ReaderStep(s, step, t)
    ensures ReadersKnown(t.reg, t.holder, t.readers)
  {
  }

  lemma ReaderPublished(s: State, step: Step, t: State)
    requires SlotOk(s.reg, s.holder) && Ordered(s.log) && Published(s.reg, s.holder, s.log) && ReaderStep(s, step, t)
    ensures Ordered(t.log) && Published(t.reg, t.holder, t.log)
  {
    if step.PublishExit? {
      ExitPublished(s.reg, s.holder, s.holder.inc, false, t.holder, s.log);
    } else if step.RemoveSelf? || step.CleanExit? || step.ReaderLocks? {
      QuietPublished(s.reg, s.holder, t.reg, t.holder, s.log);
    }
  }

  lemma ReaderInv(s: State, step: Step, t: State)
    requires Inv(s) && ReaderStep(s, step, t)
    ensures Inv(t)
  {
    ReaderSlot(s, step, t);
    ReaderReaders(s, step, t);
    ReaderPublished(s, step, t);
  }

  lemma OutsideInv(s: State, step: Step, t: State)
    requires Inv(s) && (ClientStep(s, step, t) || TransferStep(s, step, t))
    ensures Inv(t)
  {
  }

  lemma NextInv(s: State, step: Step, t: State)
    requires Inv(s) && Next(s, step, t)
    ensures Inv(t)
  {
    if SpawnStep(s, step, t) {
      SpawnInv(s, step, t);
    } else if KillStep(s, step, t) {
      KillInv(s, step, t);
    } else if ReaderStep(s, step, t) {
      ReaderInv(s, step, t);
    } else {
      OutsideInv(s, step, t);
    }
  }

  lemma InitialInv(s: State)
    requires Initial(s)
    ensures Inv(s)
  {
  }

  lemma {:induction false} RunInv(run: seq<State>, i: nat)
    requires Run(run) && i < |run|
    ensures Inv(run[i])
  {
    if i == 0 {
      InitialInv(run[0]);
    } else {
      RunInv(run, i - 1);
      assert StepAt(run, i);
      var step :| Next(run[i - 1], step, run[i]);
      NextInv(run[i - 1], step, run[i]);
    }
  }

  // -------------------------------------------------------------- theorems

  /** In every run, over any number of incarnations, the published events of an id
      are ordered: at most one Exit each, after its SessionCreated, and none after a
      replacement's SessionCreated. */
  lemma OneExitEach(run: seq<State>, i: nat, k: nat, m: nat)
    requires Run(run) && i < |run| && m < |run[i].log| && run[i].log[m].Exit? && k < |run[i].log|
    ensures Announced(run[i].log[..m], run[i].log[m].inc)
    ensures k != m && run[i].log[k].Exit? ==> run[i].log[k].inc != run[i].log[m].inc
    ensures k < m && run[i].log[k].Created? ==> run[i].log[k].inc <= run[i].log[m].inc
  {
    RunInv(run, i);
    var log := run[i].log;
    if k > m {
      assert log[m].Exit?;
    }
  }

  /** What was published stays: the log only grows. */
  lemma LogGrows(s: State, step: Step, t: State)
    requires Next(s, step, t)
    ensures s.log <= t.log && |t.log| <= |s.log| + 1
  {
    if SpawnStep(s, step, t) || KillStep(s, step, t) {
      CommandsLog(s, step, t);
    } else {
      OthersLog(s, step, t);
    }
  }

  lemma CommandsLog(s: State, step: Step, t: State)
    requires SpawnStep(s, step, t) || KillStep(s, step, t)
    ensures s.log <= t.log && |t.log| <= |s.log| + 1
  {
  }

  lemma OthersLog(s: State, step: Step, t: State)
    requires ReaderStep(s, step, t) || ClientStep(s, step, t) || TransferStep(s, step, t)
    ensures s.log <= t.log && |t.log| <= |s.log| + 1
  {
  }

  /** A registered incarnation is served by the slot's entry. */
  predicate Kept(s: State, slot: Slot) {
    s.reg.current.Some? && slot in s.entries
  }

  lemma CommandsSpare(s: State, step: Step, t: State, slot: Slot)
    requires SlotOk(s.reg, s.holder) && t.reg.current == s.reg.current && Kept(s, slot)
    requires SpawnStep(s, step, t) || KillStep(s, step, t)
    ensures Kept(t, slot)
  {
  }

  lemma ReadersSpare(s: State, step: Step, t: State, slot: Slot)
    requires SlotOk(s.reg, s.holder) && t.reg.current == s.reg.current && Kept(s, slot) && ReaderStep(s, step, t)
    ensures Kept(t, slot)
  {
  }

  /** Id-keyed cleanup of Kill and of natural exit never touches a live incarnation:
      while the same incarnation stays registered, every registry entry of its id stays
      over every step of theirs. */
  lemma CleanupSparesReplacement(s: State, step: Step, t: State, slot: Slot)
    requires Inv(s) && t.reg.current == s.reg.current && Kept(s, slot)
    requires SpawnStep(s, step, t) || KillStep(s, step, t) || ReaderStep(s, step, t)
    ensures Kept(t, slot)
  {
    if ReaderStep(s, step, t) {
      ReadersSpare(s, step, t, slot);
    } else {
      CommandsSpare(s, step, t, slot);
    }
  }

  /** The step drops an entry for want of clients, or clears everything after a commit. */
  predicate Drops(s: State, step: Step, slot: Slot) {
    || (slot.SizesSlot? && step.Disconnect? && slot in s.entries && s.entries[slot].users - {step.conn} == {})
    || (slot.ClientsSlot? && step.Unregister? && slot in s.entries && s.entries[slot].users - {step.conn} == {})
    || ((slot.FanoutSlot? || slot.SizesSlot?) && step.ClearAll?)
  }

  /** What the clients do: a live incarnation loses an entry exactly by a disconnect that
      leaves no client in its sizes, by a detach or disconnect that leaves none among
      its terminal clients, or after a commit. */
  lemma EntryLostIff(s: State, step: Step, t: State, slot: Slot)
    requires Inv(s) && Next(s, step, t) && t.reg.current == s.reg.current && Kept(s, slot)
    ensures slot !in t.entries <==> Drops(s, step, slot)
  {
    if SpawnStep(s, step, t) || KillStep(s, step, t) || ReaderStep(s, step, t) {
      CleanupSparesReplacement(s, step, t, slot);
      NotOutside(s, step, t);
    } else {
      OutsideLostIff(s, step, t, slot);
    }
  }

  lemma OutsideLostIff(s: State, step: Step, t: State, slot: Slot)
    requires (ClientStep(s, step, t) || TransferStep(s, step, t)) && slot in s.entries
    ensures slot !in t.entries <==> Drops(s, step, slot)
  {
  }

  lemma NotOutside(s: State, step: Step, t: State)
    requires SpawnStep(s, step, t) || KillStep(s, step, t) || ReaderStep(s, step, t)
    ensures !step.Disconnect? && !step.Unregister? && !step.ClearAll?
  {
  }

  // ------------------------------------------------- entries and incarnations

  /** The incarnation whose cleanup an operation still owes, if it owes one. */
  predicate Cleaning(h: Holder) {
    h.KillSignal? || h.KillWait? || h.KillPublish? || h.KillClean? || h.ExitPublish? || h.ExitClean?
  }

  /** Outside cleanup a size entry was made for the registered incarnation, or while
      none was. */
  ghost predicate SizesFresh(current: Option<Inc>, h: Holder, entries: map<Slot, Entry>) {
    SizesSlot in entries && !Cleaning(h) ==>
      entries[SizesSlot].owner.None? || (entries[SizesSlot].owner == current && !h.SpawnPrepare?)
  }

  /** Outside cleanup only a registered incarnation has terminal clients. */
  ghost predicate ClientsFresh(current: Option<Inc>, h: Holder, entries: map<Slot, Entry>) {
    ClientsSlot in entries && !Cleaning(h) ==> current.Some? && entries[ClientsSlot].owner == current
  }

  /** The incarnation whose fanout an operation is still to remove. */
  function Removing(h: Holder): Option<Inc> {
    match h
    case KillSignal(target) => target
    case KillWait(i) => Some(i)
    case ExitPublish(i) => Some(i)
    case ExitClean(i) => Some(i)
    case _ => None
  }

  /** A fanout is of the registered incarnation, of one being cleaned up, or left by one
      whose Kill failed to signal it. */
  ghost predicate FanoutKnown(current: Option<Inc>, h: Holder, unkilled: set<Inc>, entries: map<Slot, Entry>) {
    FanoutSlot in entries ==>
      && entries[FanoutSlot].owner.Some?
      && (entries[FanoutSlot].owner == current || entries[FanoutSlot].owner == Removing(h) || entries[FanoutSlot].owner.value in unkilled)
  }

  /** A reader that has not asked for its fanout yet. */
  ghost predicate StartersKnown(s: State) {
    forall i :: i in s.readers && s.readers[i].Starting? ==>
      Some(i) == s.reg.current || i in s.unkilled || s.holder == KillSignal(Some(i)) || s.holder == KillWait(i)
  }

  /** While the daemon serves, a registered and prepared incarnation has its fanout, and
      its recovery mirror if that could be started. */
  ghost predicate Equipped(s: State) {
    && (s.daemon.running && s.reg.current.Some? && !s.holder.SpawnPrepare? ==> FanoutSlot in s.entries)
    && (s.reg.current.Some? && s.reg.current.value in s.mirrored ==>
          RecoverySlot in s.entries && s.entries[RecoverySlot].owner == s.reg.current)
    && (forall i :: i in s.mirrored ==> i < s.reg.next) && (s.holder.SpawnPrepare? ==> s.holder.inc !in s.mirrored)
  }

  ghost predicate Attributed(s: State) {
    && SizesFresh(s.reg.current, s.holder, s.entries) && ClientsFresh(s.reg.current, s.holder, s.entries)
    && FanoutKnown(s.reg.current, s.holder, s.unkilled, s.entries) && StartersKnown(s)
  }

  lemma SpawnEquipped(s: State, step: Step, t: State)
    requires SlotOk(s.reg, s.holder) && Equipped(s) && SpawnStep(s, step, t)
    ensures Equipped(t)
  {
  }

  lemma KillEquipped(s: State, step: Step, t: State)
    requires SlotOk(s.reg, s.holder) && Equipped(s) && KillStep(s, step, t)
    ensures Equipped(t)
  {
  }

  lemma ReaderEquipped(s: State, step: Step, t: State)
    requires SlotOk(s.reg, s.holder) && Equipped(s) && ReaderStep(s, step, t)
    ensures Equipped(t)
  {
  }

  lemma OutsideEquipped(s: State, step: Step, t: State)
    requires SlotOk(s.reg, s.holder) && Equipped(s) && (ClientStep(s, step, t) || TransferStep(s, step, t))
    ensures Equipped(t)
  {
  }

  lemma EquippedStays(s: State, step: Step, t: State)
    requires SlotOk(s.reg, s.holder) && Equipped(s) && Next(s, step, t)
    ensures Equipped(t)
  {
    if SpawnStep(s, step, t) {
      SpawnEquipped(s, step, t);
    } else if KillStep(s, step, t) {
      KillEquipped(s, step, t);
    } else if ReaderStep(s, step, t) {
      ReaderEquipped(s, step, t);
    } else {
      OutsideEquipped(s, step, t);
    }
  }

  lemma RunSlots(run: seq<State>, i: nat)
    requires Run(run) && i < |run|
    ensures SlotOk(run[i].reg, run[i].holder) && ReadersKnown(run[i].reg, run[i].holder, run[i].readers)
  {
    RunInv(run, i);
  }

  lemma {:induction false} AlwaysEquipped(run: seq<State>, i: nat)
    requires Run(run) && i < |run|
    ensures Equipped(run[i])
  {
    if i > 0 {
      AlwaysEquipped(run, i - 1);
      RunSlots(run, i - 1);
      assert StepAt(run, i);
      var step :| Next(run[i - 1], step, run[i]);
      EquippedStays(run[i - 1], step, run[i]);
    }
  }

  lemma SpawnAttributed(s: State, step: Step, t: State)
    requires SlotOk(s.reg, s.holder) && ReadersKnown(s.reg, s.holder, s.readers) && Attributed(s) && SpawnStep(s, step, t)
    ensures Attributed(t)
  {
  }

  lemma KillAttributed(s: State, step: Step, t: State)
    requires SlotOk(s.reg, s.holder) && Attributed(s) && KillStep(s, step, t)
    ensures Attributed(t)
  {
  }

  lemma ReaderAttributed(s: State, step: Step, t: State)
    requires SlotOk(s.reg, s.holder) && ReadersKnown(s.reg, s.holder, s.readers) && Attributed(s) && ReaderStep(s, step, t)
    ensures Attributed(t)
  {
    ReaderFanouts(s, step, t);
  }

  lemma ReaderFanouts(s: State, step: Step, t: State)
    requires ReadersKnown(s.reg, s.holder, s.readers) && ReaderStep(s, step, t)
    requires FanoutKnown(s.reg.current, s.holder, s.unkilled, s.entries) && StartersKnown(s)
    ensures FanoutKnown(t.reg.current, t.holder, t.unkilled, t.entries) && StartersKnown(t)
  {
  }

  lemma OutsideAttributed(s: State, step: Step, t: State)
    requires SlotOk(s.reg, s.holder) && Attributed(s) && (ClientStep(s, step, t) || TransferStep(s, step, t))
    ensures Attributed(t)
  {
  }

  lemma AttributedStays(s: State, step: Step, t: State)
    requires SlotOk(s.reg, s.holder) && ReadersKnown(s.reg, s.holder, s.readers) && Attributed(s) && Next(s, step, t)
    ensures Attributed(t)
  {
    if SpawnStep(s, step, t) {
      SpawnAttributed(s, step, t);
    } else if KillStep(s, step, t) {
      KillAttributed(s, step, t);
    } else if ReaderStep(s, step, t) {
      ReaderAttributed(s, step, t);
    } else {
      OutsideAttributed(s, step, t);
    }
  }

  lemma {:induction false} AlwaysAttributed(run: seq<State>, i: nat)
    requires Run(run) && i < |run|
    ensures Attributed(run[i])
  {
    if i > 0 {
      AlwaysAttributed(run, i - 1);
      RunSlots(run, i - 1);
      assert StepAt(run, i);
      var step :| Next(run[i - 1], step, run[i]);
      AttributedStays(run[i - 1], step, run[i]);
    }
  }

  /** While no session has the id, exactly a resize makes a size entry. */
  lemma SizesMadeIff(s: State, step: Step, t: State)
    requires SlotOk(s.reg, s.holder) && Next(s, step, t) && s.reg.current.None? && t.reg.current.None? && SizesSlot !in s.entries
    ensures SizesSlot in t.entries <==> step.Resize?
  {
    if SpawnStep(s, step, t) || KillStep(s, step, t) {
      CommandsMakeNone(s, step, t);
    }
  }

  lemma CommandsMakeNone(s: State, step: Step, t: State)
    requires SlotOk(s.reg, s.holder) && s.reg.current.None? && (SpawnStep(s, step, t) || KillStep(s, step, t))
    ensures !step.Resize? && (SizesSlot in t.entries ==> SizesSlot in s.entries)
  {
  }

  /** In every run, a Spawn finds a size entry exactly if its session does not get one of
      its own, and then one that was made while no session had the id. */
  lemma SizesInheritedIff(run: seq<State>, k: nat, mirrors: bool)
    requires Run(run) && 0 < k < |run| && SpawnStep(run[k - 1], Prepare(mirrors), run[k])
    ensures SizesSlot in run[k].entries
    ensures SizesSlot in run[k - 1].entries <==> run[k].entries[SizesSlot].owner != run[k].reg.current
    ensures SizesSlot in run[k - 1].entries ==> run[k].entries[SizesSlot].owner.None?
  {
    AlwaysAttributed(run, k - 1);
    RunSlots(run, k - 1);
  }

  ghost predicate DropStep(s: State, step: Step, t: State, slot: Slot) {
    Next(s, step, t) && Drops(s, step, slot)
  }

  ghost predicate Dropped(s: State, t: State, slot: Slot) {
    exists step :: DropStep(s, step, t, slot)
  }

  /** A step to this moment drops the entry. */
  ghost predicate DroppedAt(run: seq<State>, k: nat, slot: Slot)
    requires 0 < k < |run|
  {
    Dropped(run[k - 1], run[k], slot)
  }

  ghost predicate DroppedBetween(run: seq<State>, i: nat, j: nat, slot: Slot)
    requires i <= j < |run|
  {
    exists k :: i < k <= j && DroppedAt(run, k, slot)
  }

  ghost predicate HadAll(run: seq<State>, i: nat, j: nat, slot: Slot)
    requires i <= j < |run|
  {
    forall k :: i <= k <= j ==> slot in run[k].entries
  }

  /** In every run, as long as one incarnation stays registered, an entry it has stays
      exactly until a disconnect or detach drops it for want of clients. */
  lemma {:induction false} KeptUntilDropped(run: seq<State>, i: nat, j: nat, slot: Slot)
    requires Run(run) && i <= j < |run| && run[i].reg.current.Some? && slot in run[i].entries
    requires forall k :: i <= k <= j ==> run[k].reg.current == run[i].reg.current
    ensures HadAll(run, i, j, slot) <==> !DroppedBetween(run, i, j, slot)
    decreases j - i
  {
    if i < j {
      KeptUntilDropped(run, i, j - 1, slot);
      if slot in run[j - 1].entries {
        LostAt(run, j, slot);
      }
      assert DroppedBetween(run, i, j, slot) <==> DroppedBetween(run, i, j - 1, slot) || DroppedAt(run, j, slot);
      assert HadAll(run, i, j, slot) <==> HadAll(run, i, j - 1, slot) && slot in run[j].entries;
    }
  }

  lemma LostAt(run: seq<State>, j: nat, slot: Slot)
    requires Run(run) && 0 < j < |run| && run[j].reg.current == run[j - 1].reg.current && Kept(run[j - 1], slot)
    ensures slot !in run[j].entries <==> DroppedAt(run, j, slot)
  {
    RunInv(run, j - 1);
    assert StepAt(run, j);
    LostIff(run[j - 1], run[j], slot);
  }

  lemma LostIff(s: State, t: State, slot: Slot)
    requires Inv(s) && Linked(s, t) && t.reg.current == s.reg.current && Kept(s, slot)
    ensures slot !in t.entries <==> Dropped(s, t, slot)
  {
    if Dropped(s, t, slot) {
      var step :| DropStep(s, step, t, slot);
      EntryLostIff(s, step, t, slot);
    } else {
      var step :| Next(s, step, t);
      assert !DropStep(s, step, t, slot);
      EntryLostIff(s, step, t, slot);
    }
  }

  /** In every run, outside cleanup: terminal clients and sizes never outlive their
      session, a size entry is its session's own or was made by a resize while no session
      had the id, and a fanout is its session's own unless some Kill failed to signal. */
  lemma EntriesNeverStale(run: seq<State>, i: nat)
    requires Run(run) && i < |run| && !Cleaning(run[i].holder)
    ensures ClientsSlot in run[i].entries ==> run[i].reg.current.Some? && run[i].entries[ClientsSlot].owner == run[i].reg.current
    ensures SizesSlot in run[i].entries ==>
              run[i].entries[SizesSlot].owner == run[i].reg.current || run[i].entries[SizesSlot].owner.None?
    ensures FanoutSlot in run[i].entries && run[i].unkilled == {} ==> run[i].entries[FanoutSlot].owner == run[i].reg.current
  {
    AlwaysAttributed(run, i);
  }

  /** The id is left alone. */
  ghost predicate Still(s: State, t: State) {
    t.reg.current == s.reg.current && t.log == s.log && t.holder.Nobody?
  }

  lemma CommandsStill(s: State, step: Step, t: State)
    requires (SpawnStep(s, step, t) || KillStep(s, step, t)) && s.holder.Nobody? && (s.daemon.transfer || !s.daemon.running)
    ensures Still(s, t) && t.daemon == s.daemon
  {
  }

  lemma ReadersStill(s: State, step: Step, t: State)
    requires ReaderStep(s, step, t) && s.holder.Nobody? && (s.daemon.transfer || !s.daemon.running)
    ensures Still(s, t) && t.daemon == s.daemon
  {
  }

  lemma OthersStill(s: State, step: Step, t: State)
    requires (ClientStep(s, step, t) || TransferStep(s, step, t)) && s.holder.Nobody?
    ensures Still(s, t) && (!s.daemon.running ==> !t.daemon.running)
  {
  }

  lemma NextStill(s: State, step: Step, t: State)
    requires Next(s, step, t) && s.holder.Nobody? && (s.daemon.transfer || !s.daemon.running)
    ensures Still(s, t) && (!s.daemon.running ==> !t.daemon.running)
  {
    if SpawnStep(s, step, t) || KillStep(s, step, t) {
      CommandsStill(s, step, t);
    } else if ReaderStep(s, step, t) {
      ReadersStill(s, step, t);
    } else {
      OthersStill(s, step, t);
    }
  }

  /** Between seal and outcome nothing at this id is created, removed or published. */
  lemma TransferFreezes(s: State, step: Step, t: State)
    requires Inv(s) && Next(s, step, t) && s.daemon.transfer
    ensures t.reg.current == s.reg.current && t.log == s.log && t.holder.Nobody?
  {
    NextStill(s, step, t);
  }

  /** After a commit this daemon publishes nothing more for the id. */
  lemma CommittedIsSilent(s: State, step: Step, t: State)
    requires Inv(s) && Next(s, step, t) && !s.daemon.running && s.holder.Nobody?
    ensures t.log == s.log && t.reg.current == s.reg.current && t.holder.Nobody? && !t.daemon.running
  {
    NextStill(s, step, t);
  }

  // --------------------------------------------- a Kill that cannot finish

  /** The reader of an incarnation is past its first check and waits for the lock. */
  predicate Awaits(s: State, i: Inc) {
    i in s.readers && s.readers[i].AwaitingLock?
  }

  /** Kill has taken an incarnation and its reader has not been seen stopped. */
  predicate Claimed(h: Holder, i: Inc) {
    h == KillSignal(Some(i)) || h == KillWait(i)
  }

  /** Kill waits for a reader that waits for the lock Kill holds. */
  predicate Deadlocked(s: State) {
    s.holder.KillWait? && Awaits(s, s.holder.inc)
  }

  /** While Kill holds the lock, only Kill and readers change anything but entries and
      the daemon's state. */
  lemma OnlyKillAndReaders(s: State, step: Step, t: State)
    requires Next(s, step, t) && (s.holder.KillClaim? || s.holder.KillSignal? || s.holder.KillWait?)
    requires !KillStep(s, step, t) && !ReaderStep(s, step, t)
    ensures t.reg == s.reg && t.readers == s.readers && t.log == s.log && t.holder == s.holder
  {
  }

  /** ... and a reader changes only its own state and a fanout. */
  lemma ReadersUnderKill(s: State, step: Step, t: State)
    requires ReaderStep(s, step, t) && (s.holder.KillClaim? || s.holder.KillSignal? || s.holder.KillWait?)
    ensures t.log == s.log && t.holder == s.holder && t.reg == s.reg
    ensures forall i :: i in s.readers && s.readers[i].AwaitingLock? ==> i in t.readers && t.readers[i].AwaitingLock?
    ensures forall i :: i in t.readers && t.readers[i].AwaitingLock? ==>
              i in s.readers && (s.readers[i].AwaitingLock? || !Withdrawn(s.reg, i))
  {
  }

  lemma KillUnderKill(s: State, step: Step, t: State)
    requires KillStep(s, step, t)
    ensures t.readers == s.readers
    ensures Deadlocked(s) ==> t == s
    ensures s.holder.KillClaim? && t.holder.KillSignal? && t.holder.target.Some? ==> s.reg.current == t.holder.target
  {
  }

  lemma DeadlockStays(s: State, step: Step, t: State)
    requires Deadlocked(s) && Next(s, step, t)
    ensures Deadlocked(t) && t.log == s.log && t.holder == s.holder
  {
    if KillStep(s, step, t) {
      KillUnderKill(s, step, t);
    } else if ReaderStep(s, step, t) {
      ReadersUnderKill(s, step, t);
    } else {
      OnlyKillAndReaders(s, step, t);
    }
  }

  lemma {:induction false} DeadlockedForever(run: seq<State>, i: nat, j: nat)
    requires Path(run) && i <= j < |run| && Deadlocked(run[i])
    ensures Deadlocked(run[j]) && run[j].log == run[i].log && run[j].holder == run[i].holder
    decreases j - i
  {
    if i < j {
      DeadlockedForever(run, i, j - 1);
      assert StepAt(run, j);
      var step :| Next(run[j - 1], step, run[j]);
      DeadlockStays(run[j - 1], step, run[j]);
    }
  }

  /** Whether the reader of a taken incarnation waits for the lock was settled when it
      was taken: one that ends later sees that it was withdrawn, and stops. */
  lemma ClaimSettles(s: State, step: Step, t: State, i: Inc)
    requires SlotOk(s.reg, s.holder) && Next(s, step, t) && Claimed(s.holder, i) && Claimed(t.holder, i)
    ensures Awaits(t, i) <==> Awaits(s, i)
  {
    assert Departing(s.holder) == Some(i);
    if KillStep(s, step, t) {
      KillUnderKill(s, step, t);
    } else if ReaderStep(s, step, t) {
      ReadersUnderKill(s, step, t);
    } else {
      OnlyKillAndReaders(s, step, t);
    }
  }

  lemma {:induction false} ClaimSettlesRun(run: seq<State>, k: nat, j: nat, i: Inc)
    requires Run(run) && k <= j < |run| && forall m :: k <= m <= j ==> Claimed(run[m].holder, i)
    ensures Awaits(run[j], i) <==> Awaits(run[k], i)
    decreases j - k
  {
    if k < j {
      ClaimSettlesRun(run, k, j - 1, i);
      RunSlots(run, j - 1);
      assert StepAt(run, j);
      LinkSettles(run[j - 1], run[j], i);
    }
  }

  lemma LinkSettles(s: State, t: State, i: Inc)
    requires SlotOk(s.reg, s.holder) && Linked(s, t) && Claimed(s.holder, i) && Claimed(t.holder, i)
    ensures Awaits(t, i) <==> Awaits(s, i)
  {
    var step :| Next(s, step, t);
    ClaimSettles(s, step, t, i);
  }

  lemma TakenByClaim(s: State, step: Step, t: State, i: Inc)
    requires Next(s, step, t) && s.holder.KillClaim? && t.holder == KillSignal(Some(i))
    ensures s.reg.current == Some(i) && t.readers == s.readers
  {
    if KillStep(s, step, t) {
      KillUnderKill(s, step, t);
    } else if ReaderStep(s, step, t) {
      ReadersUnderKill(s, step, t);
    } else {
      OnlyKillAndReaders(s, step, t);
    }
  }

  ghost predicate Reachable(s: State) {
    exists run :: Run(run) && run[|run| - 1] == s
  }

  lemma Reach(s: State, step: Step, t: State)
    requires Reachable(s) && Next(s, step, t)
    ensures Reachable(t)
  {
    var run :| Run(run) && run[|run| - 1] == s;
    var more := run + [t];
    assert Linked(s, t);
    forall i | 0 < i < |more| ensures StepAt(more, i) {
      if i < |run| {
        assert StepAt(run, i) && more[i] == run[i] && more[i - 1] == run[i - 1];
      } else {
        assert more[i - 1] == run[|run| - 1];
      }
    }
    assert Run(more) && more[|more| - 1] == t;
  }

  const ON: Daemon := Daemon(true, false, false)
  const BORN: Registry := Registry(Some(0), false, {}, {}, 1)
  const TAKEN: Registry := Registry(None, true, {0}, {}, 1)
  const EMPTY: Registry := Registry(None, false, {}, {}, 0)
  const OWN: Entry := Entry(Some(0), {})
  const SLOTS: map<Slot, Entry> := map[FanoutSlot := OWN, SizesSlot := OWN, RecoverySlot := OWN]

  ghost const FRESH := State(EMPTY, ON, Nobody, map[], map[], {}, {}, [])

  /** One announced session whose reader has not begun, and then has. */
  ghost const SPAWNED := State(BORN, ON, Nobody, map[0 := Starting], SLOTS, {0}, {}, [Created(0)])
  ghost const LIVE := State(BORN, ON, Nobody, map[0 := Streaming], SLOTS, {0}, {}, [Created(0)])

  /** ... and the same session when its child has closed the terminal. */
  ghost const ENDED := State(BORN, ON, Nobody, map[0 := AwaitingLock], SLOTS, {0}, {}, [Created(0)])

  ghost const HELD := State(TAKEN, ON, KillSignal(Some(0)), map[0 := AwaitingLock], SLOTS, {0}, {}, [Created(0)])

  lemma FreshReachable()
    ensures Reachable(FRESH)
  {
    assert Path([FRESH]);
    assert Run([FRESH]);
  }

  lemma InstalledReachable(entries: map<Slot, Entry>)
    requires Reachable(FRESH.(entries := entries))
    ensures Reachable(State(BORN, ON, SpawnPrepare(0), map[], entries, {}, {}, []))
  {
    var idle := FRESH.(entries := entries);
    Reach(idle, BeginSpawn(true), idle.(holder := SpawnInstall));
    Reach(idle.(holder := SpawnInstall), Install, State(BORN, ON, SpawnPrepare(0), map[], entries, {}, {}, []));
  }

  lemma PreparedReachable()
    ensures Reachable(State(BORN, ON, SpawnStart(0), map[], SLOTS, {0}, {}, []))
  {
    FreshReachable();
    assert FRESH.(entries := map[]) == FRESH;
    InstalledReachable(map[]);
    assert Prepared(map[], 0, true) == SLOTS;
    Reach(State(BORN, ON, SpawnPrepare(0), map[], map[], {}, {}, []), Prepare(true), State(BORN, ON, SpawnStart(0), map[], SLOTS, {0}, {}, []));
  }

  lemma SpawnedReachable()
    ensures Reachable(SPAWNED)
  {
    PreparedReachable();
    var started := State(BORN, ON, SpawnAnnounce(0), map[0 := Starting], SLOTS, {0}, {}, []);
    Reach(State(BORN, ON, SpawnStart(0), map[], SLOTS, {0}, {}, []), StartReader, started);
    Reach(started, Announce, SPAWNED);
  }

  lemma LiveReachable()
    ensures Reachable(LIVE)
  {
    SpawnedReachable();
    assert OWN.(users := OWN.users + {}) == OWN;
    assert Joined(SLOTS, FanoutSlot, Some(0), {}) == SLOTS;
    Reach(SPAWNED, ReaderEnters(0), LIVE);
  }

  lemma EndedReachable()
    ensures Reachable(ENDED)
  {
    LiveReachable();
    Reach(LIVE, ReaderEnds(0), ENDED);
  }

  lemma HeldReachable()
    ensures Reachable(HELD)
  {
    EndedReachable();
    Reach(ENDED, BeginKill, ENDED.(holder := KillClaim));
    Reach(ENDED.(holder := KillClaim), Claim, HELD);
  }

  /** It happens: end of file on the child, then Kill before the reader gets the lock. */
  lemma KillCanDeadlock() returns (s: State)
    ensures Reachable(s) && Deadlocked(s)
  {
    HeldReachable();
    s := HELD.(reg := TAKEN.(stopAsked := {0}), holder := KillWait(0));
    Reach(HELD, Signal(true), s);
  }

  // ------------------------------------------- entries lost, kept and inherited

  /** It happens: a session nobody views yet loses its size entry to the disconnect of
      any client at all. */
  lemma DisconnectDropsSizes(conn: Conn) returns (s: State)
    ensures Reachable(s) && s.reg.current == Some(0) && s.holder.Nobody? && SizesSlot !in s.entries
  {
    LiveReachable();
    s := LIVE.(entries := LIVE.entries - {SizesSlot});
    Reach(LIVE, Disconnect(conn), s);
  }

  /** It happens: a resize of an id no session has makes a size entry, and the session
      spawned next inherits it with that client in it. */
  lemma SpawnInheritsSizes(conn: Conn) returns (s: State)
    ensures Reachable(s) && s.holder == SpawnStart(0) && s.reg.current == Some(0)
    ensures SizesSlot in s.entries && s.entries[SizesSlot] == Entry(None, {conn})
  {
    FreshReachable();
    var sizes := map[SizesSlot := Entry(None, {conn})];
    assert Joined(map[], SizesSlot, None, {conn}) == sizes;
    Reach(FRESH, Resize(conn), FRESH.(entries := sizes));
    InstalledReachable(sizes);
    var prepared := State(BORN, ON, SpawnPrepare(0), map[], sizes, {}, {}, []);
    s := State(BORN, ON, SpawnStart(0), map[], Prepared(sizes, 0, false), {}, {}, []);
    assert {conn} + {} == {conn} && sizes[SizesSlot] == Entry(None, {conn});
    Reach(prepared, Prepare(false), s);
  }

  ghost const UNKILLED := State(TAKEN.(stopAsked := {0}), ON, KillClean, map[0 := Starting], SLOTS - {FanoutSlot}, {0}, {0}, [Created(0)])

  lemma UnkilledReachable()
    ensures Reachable(UNKILLED)
  {
    SpawnedReachable();
    Reach(SPAWNED, BeginKill, SPAWNED.(holder := KillClaim));
    var taken := SPAWNED.(reg := TAKEN, holder := KillSignal(Some(0)));
    Reach(SPAWNED.(holder := KillClaim), Claim, taken);
    Reach(taken, Signal(false), UNKILLED);
  }

  /** It happens: after a Kill that failed to signal, the reader it did not wait for makes
      a fanout for the id no session has any more. */
  lemma ReaderOutlivesFanout() returns (s: State)
    ensures Reachable(s) && s.holder.Nobody? && s.reg.current.None? && FanoutSlot in s.entries && s.unkilled == {0}
  {
    UnkilledReachable();
    var cleaned := UNKILLED.(reg := UNKILLED.reg.(tomb := false), holder := Nobody, entries := UNKILLED.entries - {ClientsSlot, SizesSlot});
    Reach(UNKILLED, CleanKilled, cleaned);
    s := cleaned.(readers := map[0 := Streaming], entries := Joined(cleaned.entries, FanoutSlot, Some(0), {}));
    Reach(cleaned, ReaderEnters(0), s);
  }
}
