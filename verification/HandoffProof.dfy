/**
 The invariant of the handoff protocol, kept by every step.
 */
module HandoffProof {
  import opened Common
  import opened Handoff

  // -------------------------------------------------------------- who took what

  /** The bytes one process took, in order. */
  function Mine(output: seq<Byte>, takers: seq<Who>, who: Who): seq<Byte>
    requires |takers| <= |output|
  {
    if takers == [] then []
    else
      var n := |takers| - 1;
      Mine(output, takers[..n], who) + if takers[n] == who then [output[n]] else []
  }

  lemma {:induction false} MineGrows(output: seq<Byte>, more: seq<Byte>, takers: seq<Who>, who: Who)
    requires |takers| <= |output|
    ensures Mine(output + more, takers, who) == Mine(output, takers, who)
  {
    if takers != [] {
      MineGrows(output, more, takers[..|takers| - 1], who);
    }
  }

  lemma {:induction false} MineTakes(output: seq<Byte>, takers: seq<Who>, who: Who, n: nat, me: Who)
    requires |takers| + n <= |output|
    ensures Mine(output, takers + seq(n, _ => who), me) ==
            Mine(output, takers, me) + if me == who then output[|takers|..|takers| + n] else []
  {
    var more := takers + seq(n, _ => who);
    if n == 0 {
      assert more == takers;
      assert output[|takers|..|takers|] == [];
    } else {
      MineTakes(output, takers, who, n - 1, me);
      assert more[..|more| - 1] == takers + seq(n - 1, _ => who);
      var m := |takers| + n - 1;
      assert output[|takers|..m] + [output[m]] == output[|takers|..m + 1];
      Assoc(Mine(output, takers, me), output[|takers|..m], [output[m]]);
    }
  }

  lemma {:induction false} MineNone(output: seq<Byte>, takers: seq<Who>, who: Who)
    requires |takers| <= |output| && forall i :: 0 <= i < |takers| ==> takers[i] != who
    ensures Mine(output, takers, who) == []
  {
    if takers != [] {
      MineNone(output, takers[..|takers| - 1], who);
    }
  }

  /** Whoever took everything from some point on, and nothing before, holds exactly
      that part of the output. */
  lemma {:induction false} MineTail(output: seq<Byte>, takers: seq<Who>, who: Who, from: nat)
    requires from <= |takers| <= |output|
    requires forall i :: 0 <= i < from ==> takers[i] != who
    requires forall i :: from <= i < |takers| ==> takers[i] == who
    ensures Mine(output, takers, who) == output[from..|takers|]
  {
    if from == |takers| {
      MineNone(output, takers, who);
    } else {
      var n := |takers| - 1;
      MineTail(output, takers[..n], who, from);
      assert output[from..n] + [output[n]] == output[from..n + 1];
    }
  }

  /** Whoever misses a byte past that point holds fewer. */
  lemma {:induction false} MineShort(output: seq<Byte>, takers: seq<Who>, who: Who, from: nat)
    requires from <= |takers| <= |output|
    requires forall i :: 0 <= i < from ==> takers[i] != who
    ensures |Mine(output, takers, who)| <= |takers| - from
    ensures (exists i :: from <= i < |takers| && takers[i] != who) ==> |Mine(output, takers, who)| < |takers| - from
  {
    if from == |takers| {
      MineNone(output, takers, who);
    } else {
      MineShort(output, takers[..|takers| - 1], who, from);
    }
  }

  // ------------------------------------------------------------------ invariant

  ghost predicate KernelOk(kernel: map<Pty, Kernel>) {
    forall p :: p in kernel ==> |kernel[p].takers| <= |kernel[p].output|
  }

  /** The quiesced mark is set from parking until after resuming. */
  ghost predicate MarksOk(registry: map<Pty, Reader>) {
    forall p :: p in registry ==> (registry[p].marked <==> registry[p].pc.Parked? || registry[p].pc.Resuming?)
  }

  /** Reader flags against what the handler has asked. */
  ghost predicate Flags(phase: Phase, asked: set<Pty>, registry: map<Pty, Reader>) {
    && asked <= registry.Keys
    && (forall p :: p in registry ==>
          && (registry[p].quiesce <==> p in asked)
          && (registry[p].stop ==> phase.Stopping? || phase.Released?))
  }

  /** What is left to do by a phase. */
  predicate Owes(phase: Phase, task: Task) {
    phase.RollingBack? && task in phase.todo
  }

  ghost predicate Suffix(todo: seq<Task>, all: seq<Task>) {
    0 < |todo| <= |all| && forall i :: 0 <= i < |todo| ==> todo[i] == all[|all| - |todo| + i]
  }

  /** Which fences are up in which phase; a rollback still owes what is not down. */
  ghost predicate Fences(fence: Fence, job: Job, keys: set<Pty>) {
    && fence.running == !HasCommitted(job.phase)
    && fence.writeLocked == Busy(job.phase)
    && (fence.writeLocked ==> fence.guards == 0)
    && fence.sealed == (Transferring(job.phase) || HasCommitted(job.phase) || Owes(job.phase, Unseal))
    && fence.agentSealed == (SnapshotTaken(job.phase) || Owes(job.phase, DropAgentSeal))
    && (job.clones != {} ==> job.phase.Collecting? || (SnapshotTaken(job.phase) && !job.phase.Released?) || Owes(job.phase, CloseClones))
    && (job.phase.Idle? ==> job.asked == {})
    && (job.phase.RollingBack? && !Owes(job.phase, ResumeReaders) ==> job.asked == {})
    && (job.phase.Collecting? || SnapshotTaken(job.phase) ==> job.asked == keys)
    && (job.phase.RollingBack? ==> Suffix(job.phase.todo, Cleanup(job.phase.exit)))
  }

  /** The handler serves one connection at a time. */
  ghost predicate Seats(job: Job, links: map<Link, Conn>) {
    && (!job.phase.Idle? ==> job.link in links)
    && (forall l :: l in links ==>
          && (links[l].status.Serving? <==> Busy(job.phase) && l == job.link)
          && (links[l].status.Kept? <==> HasCommitted(job.phase) && l == job.link))
  }

  /** Marks are being sampled, or have been and the transfer is not given up. */
  predicate Sampling(phase: Phase) {
    phase.Locked? || phase.Collecting? || SnapshotTaken(phase)
  }

  /** From its sample until a rollback a settled reader stays quiet. */
  ghost predicate Frozen(job: Job, registry: map<Pty, Reader>, links: map<Link, Conn>) {
    Sampling(job.phase) && job.link in links ==> Sampled(job, registry, links[job.link]) && FrozenFor(job, registry, links[job.link])
  }

  /** How far the handler is: which marks it sampled, which sessions it collected. */
  ghost predicate Sampled(job: Job, registry: map<Pty, Reader>, conn: Conn) {
    && job.sampled <= registry.Keys && (!job.phase.Locked? ==> job.sampled == registry.Keys)
    && (job.sampled != {} ==> job.asked == registry.Keys) && conn.unsettled <= job.sampled
    && (job.phase.Locked? ==> conn.offered == map[] && job.skipped == {})
    && conn.offered.Keys + job.skipped <= registry.Keys && conn.offered.Keys !! job.skipped
    && (SnapshotTaken(job.phase) ==> registry.Keys == conn.offered.Keys + job.skipped)
  }

  ghost predicate FrozenFor(job: Job, registry: map<Pty, Reader>, conn: Conn) {
    forall p :: p in registry && p in job.sampled && p !in conn.unsettled ==>
      && Quiet(registry[p])
      && (p in conn.offered && conn.offered[p].Some? ==> conn.offered[p].value == registry[p].mirror)
  }

  /** Until its death only the incumbent has read. */
  ghost predicate Sole(alive: bool, kernel: map<Pty, Kernel>) {
    alive ==> forall p :: p in kernel ==> AllDaemon(kernel[p])
  }

  /** The incumbent's byte accounting. */
  ghost predicate Books(kernel: map<Pty, Kernel>, registry: map<Pty, Reader>) {
    forall p :: p in registry ==> p in kernel && (AllDaemon(kernel[p]) && !registry[p].stop ==> InStep(kernel[p], registry[p]))
  }

  ghost predicate NoDaemonPast(k: Kernel, n: nat) {
    forall i :: n <= i < |k.takers| ==> !k.takers[i].Daemon?
  }

  /** From its snapshot until a rollback the incumbent takes nothing of a settled
      session. */
  ghost predicate Cut(job: Job, kernel: map<Pty, Kernel>, links: map<Link, Conn>) {
    Sampling(job.phase) && job.link in links ==> CutFor(kernel, links[job.link])
  }

  ghost predicate CutFor(kernel: map<Pty, Kernel>, conn: Conn) {
    forall p :: p in conn.offered && p in kernel && p !in conn.unsettled && conn.offered[p].Some? ==>
      NoDaemonPast(kernel[p], |conn.offered[p].value|)
  }

  /** Nothing has been sent on the connection yet. */
  predicate Untold(job: Job, l: Link, conn: Conn) {
    conn.status.Fresh? || (l == job.link && (job.phase.Locked? || job.phase.Collecting? || job.phase.Collected?))
  }

  /** What the successor was told is what was collected for its connection. */
  ghost predicate Talk(conn: Conn, untold: bool) {
    && (forall i :: 0 <= i < |conn.wire.inbox| && conn.wire.inbox[i].Ready? ==> conn.wire.inbox[i].infos == conn.offered && !untold)
    && (conn.heir.stage.AwaitReady? ==> conn.heir.received == map[])
    && (!conn.heir.stage.AwaitReady? && !conn.heir.stage.Gone? ==> conn.heir.received == conn.offered && !untold)
    && (conn.heir.stage.Gone? ==> conn.heir.received == map[] || (conn.heir.received == conn.offered && !untold))
    && (untold ==> conn.heir.adopted == map[])
    && (conn.status.Fresh? ==> conn.offered == map[] && conn.unsettled == {})
    && (conn.heir.stage.AwaitReady? || conn.heir.stage.AwaitFds? || conn.heir.stage.GotFds? ==> conn.wire.outbox == [])
    && (forall i :: 0 <= i < |conn.wire.outbox| ==> conn.wire.outbox[i] == VERSION)
  }

  /** While the successor holds its end, end of file means death or release. */
  ghost predicate Gate(conn: Conn, alive: bool, released: bool) {
    && (conn.wire.left <==> conn.heir.stage.Gone? || HasAdopted(conn.heir.stage))
    && (alive && conn.wire.closed ==> conn.wire.left || (released && conn.status.Kept?))
    && (HasAdopted(conn.heir.stage) || conn.heir.adopted != map[] ==> !alive || (released && conn.status.Kept?))
    && (conn.heir.adopted != map[] ==> HasAdopted(conn.heir.stage) || conn.heir.stage.Gone?)
    && conn.heir.adopted.Keys <= conn.heir.received.Keys
    && (HasAdopted(conn.heir.stage) ==> conn.heir.adopted.Keys == conn.heir.received.Keys)
    && (conn.heir.stage.Streaming? ==> !alive || conn.heir.adopted == map[])
  }

  ghost predicate PrefixOf(snapshot: seq<Byte>, k: Kernel) {
    |snapshot| <= |k.takers| <= |k.output| && snapshot == k.output[..|snapshot|]
  }

  /** A snapshot is a prefix of what the child wrote and was taken, and no byte of it
      was taken by the successor it is for. */
  ghost predicate OfferOk(kernel: map<Pty, Kernel>, l: Link, infos: Infos) {
    forall p :: p in infos ==> p in kernel && (infos[p].Some? ==> SnapshotOk(kernel[p], l, infos[p].value))
  }

  ghost predicate SnapshotOk(k: Kernel, l: Link, snapshot: seq<Byte>) {
    PrefixOf(snapshot, k) && forall i :: 0 <= i < |snapshot| ==> k.takers[i] != Successor(l)
  }

  ghost predicate ConnsOk(s: State) {
    forall l :: l in s.links ==>
      && Talk(s.links[l], Untold(s.inc.job, l, s.links[l]))
      && Gate(s.links[l], s.inc.alive, s.inc.job.phase.Released?)
      && OfferOk(s.kernel, l, s.links[l].offered)
  }

  /** Every successor holds exactly the bytes it took. */
  ghost predicate HeirsHold(kernel: map<Pty, Kernel>, links: map<Link, Conn>) {
    forall l, p :: l in links && p in links[l].heir.adopted && p in kernel && |kernel[p].takers| <= |kernel[p].output| ==>
      links[l].heir.adopted[p] == Mine(kernel[p].output, kernel[p].takers, Successor(l))
  }

  /** Only adopters take. */
  ghost predicate TakersKnown(kernel: map<Pty, Kernel>, links: map<Link, Conn>) {
    forall p, i :: p in kernel && 0 <= i < |kernel[p].takers| && kernel[p].takers[i].Successor? ==>
      Adopter(links, kernel[p].takers[i].link, p)
  }

  predicate Adopter(links: map<Link, Conn>, l: Link, p: Pty) {
    l in links && p in links[l].heir.adopted
  }

  ghost predicate Inv(s: State) {
    && KernelOk(s.kernel)
    && MarksOk(s.inc.registry)
    && Flags(s.inc.job.phase, s.inc.job.asked, s.inc.registry)
    && Fences(s.inc.fence, s.inc.job, s.inc.registry.Keys)
    && Seats(s.inc.job, s.links)
    && Frozen(s.inc.job, s.inc.registry, s.links)
    && Sole(s.inc.alive, s.kernel)
    && Books(s.kernel, s.inc.registry)
    && Cut(s.inc.job, s.kernel, s.links)
    && ConnsOk(s)
    && HeirsHold(s.kernel, s.links)
    && TakersKnown(s.kernel, s.links)
  }

  lemma InitialInv(s: State)
    requires Initial(s)
    ensures Inv(s)
  {
  }

  // ----------------------------------------------------- the child and readers

  /** More output leaves every account of the bytes already taken alone. */
  lemma GrowthLocal(k: Kernel, bytes: seq<Byte>, k': Kernel)
    requires k' == k.(output := k.output + bytes) && |k.takers| <= |k.output|
    ensures forall r :: InStep(k, r) ==> InStep(k', r)
    ensures forall l, snapshot :: SnapshotOk(k, l, snapshot) ==> SnapshotOk(k', l, snapshot)
    ensures forall who :: Mine(k'.output, k'.takers, who) == Mine(k.output, k.takers, who)
  {
    forall who ensures Mine(k'.output, k'.takers, who) == Mine(k.output, k.takers, who) {
      MineGrows(k.output, bytes, k.takers, who);
    }
  }

  lemma ChildBooks(s: State, p: Pty, bytes: seq<Byte>, k: Kernel)
    requires Inv(s) && p in s.kernel && k == s.kernel[p].(output := s.kernel[p].output + bytes)
    ensures KernelOk(s.kernel[p := k]) && Books(s.kernel[p := k], s.inc.registry)
    ensures Sole(s.inc.alive, s.kernel[p := k]) && Cut(s.inc.job, s.kernel[p := k], s.links)
  {
    GrowthLocal(s.kernel[p], bytes, k);
  }

  lemma ChildHeirs(s: State, p: Pty, bytes: seq<Byte>, k: Kernel)
    requires Inv(s) && p in s.kernel && k == s.kernel[p].(output := s.kernel[p].output + bytes)
    ensures HeirsHold(s.kernel[p := k], s.links) && TakersKnown(s.kernel[p := k], s.links)
    ensures forall l :: l in s.links ==> OfferOk(s.kernel[p := k], l, s.links[l].offered)
  {
    GrowthLocal(s.kernel[p], bytes, k);
  }

  lemma ChildInv(s: State, p: Pty, bytes: seq<Byte>, t: State)
    requires Inv(s) && Next(s, Child(p, bytes), t)
    ensures Inv(t)
  {
    ChildBooks(s, p, bytes, t.kernel[p]);
    ChildHeirs(s, p, bytes, t.kernel[p]);
  }

  /** What one reader move may do: take bytes it then holds, or stay quiet while asked. */
  ghost predicate ReaderStep(k: Kernel, r: Reader, k': Kernel, r': Reader) {
    && (k' == k || exists n :: 0 < n && |k.takers| + n <= |k.output| && k' == Taken(k, Daemon, n))
    && r'.quiesce == r.quiesce && r'.stop == r.stop
    && ((r.marked <==> r.pc.Parked? || r.pc.Resuming?) ==> (r'.marked <==> r'.pc.Parked? || r'.pc.Resuming?))
    && (InStep(k, r) && !r.stop ==> InStep(k', r'))
    && (Quiet(r) && r.quiesce ==> Quiet(r') && r'.mirror == r.mirror && k' == k)
  }

  lemma ReaderInStep(k: Kernel, r: Reader, move: ReaderMove, k': Kernel, r': Reader)
    requires ReaderMoves(k, r, move, k', r') && InStep(k, r) && !r.stop
    ensures InStep(k', r')
  {
    if move.Read? {
      assert r.mirror + Held(r) == r.mirror;
      assert k.output[..|k.takers|] + Bytes(k, move.n) == k.output[..|k.takers| + move.n];
    } else if move.Mirror? {
      assert r'.mirror + [] == r'.mirror;
    }
  }

  lemma ReaderStaysQuiet(k: Kernel, r: Reader, move: ReaderMove, k': Kernel, r': Reader)
    requires ReaderMoves(k, r, move, k', r') && Quiet(r) && r.quiesce
    ensures Quiet(r') && r'.mirror == r.mirror && k' == k
  {
  }

  lemma ReaderMoveLocal(k: Kernel, r: Reader, k': Kernel, r': Reader)
    requires SomeReaderMove(k, r, k', r')
    ensures ReaderStep(k, r, k', r')
  {
    var move :| ReaderMoves(k, r, move, k', r');
    if InStep(k, r) && !r.stop {
      ReaderInStep(k, r, move, k', r');
    }
    if Quiet(r) && r.quiesce {
      ReaderStaysQuiet(k, r, move, k', r');
    }
  }

  /** Taking bytes moves no earlier byte. */
  lemma TakenLocal(k: Kernel, who: Who, n: nat, k': Kernel)
    requires |k.takers| + n <= |k.output| && k' == Taken(k, who, n)
    ensures |k'.takers| <= |k'.output|
    ensures forall l, snapshot :: SnapshotOk(k, l, snapshot) ==> SnapshotOk(k', l, snapshot)
    ensures forall me :: me != who ==> Mine(k'.output, k'.takers, me) == Mine(k.output, k.takers, me)
    ensures Mine(k'.output, k'.takers, who) == Mine(k.output, k.takers, who) + Bytes(k, n)
    ensures AllDaemon(k') <==> AllDaemon(k) && (who.Daemon? || n == 0)
    ensures forall m :: NoDaemonPast(k, m) && !who.Daemon? ==> NoDaemonPast(k', m)
  {
    forall me ensures Mine(k'.output, k'.takers, me) == Mine(k.output, k.takers, me) + if me == who then Bytes(k, n) else [] {
      MineTakes(k.output, k.takers, who, n, me);
    }
    assert forall i :: 0 <= i < |k.takers| ==> k'.takers[i] == k.takers[i];
    assert n > 0 ==> k'.takers[|k.takers|] == who;
  }

  /** A reader's PTY after its move: nothing but bytes taken by the incumbent. */
  lemma ReaderKernel(k: Kernel, r: Reader, k': Kernel, r': Reader)
    requires ReaderStep(k, r, k', r') && |k.takers| <= |k.output|
    ensures |k'.takers| <= |k'.output|
    ensures forall l, snapshot :: SnapshotOk(k, l, snapshot) ==> SnapshotOk(k', l, snapshot)
    ensures forall l :: Mine(k'.output, k'.takers, Successor(l)) == Mine(k.output, k.takers, Successor(l))
    ensures AllDaemon(k') <==> AllDaemon(k)
    ensures forall i :: 0 <= i < |k'.takers| && k'.takers[i].Successor? ==> i < |k.takers| && k.takers[i] == k'.takers[i]
  {
    if k' != k {
      var n :| 0 < n && |k.takers| + n <= |k.output| && k' == Taken(k, Daemon, n);
      TakenLocal(k, Daemon, n, k');
    }
  }

  lemma ReaderFrozen(job: Job, registry: map<Pty, Reader>, kernel: map<Pty, Kernel>, links: map<Link, Conn>, p: Pty, k: Kernel, r: Reader)
    requires Flags(job.phase, job.asked, registry)
    requires Frozen(job, registry, links) && Cut(job, kernel, links)
    requires p in registry && p in kernel && ReaderStep(kernel[p], registry[p], k, r)
    ensures Flags(job.phase, job.asked, registry[p := r])
    ensures Frozen(job, registry[p := r], links) && Cut(job, kernel[p := k], links)
  {
    assert registry[p := r].Keys == registry.Keys;
  }

  lemma ReaderLedger(kernel: map<Pty, Kernel>, registry: map<Pty, Reader>, p: Pty, k: Kernel, r: Reader)
    requires Books(kernel, registry) && MarksOk(registry) && p in registry && p in kernel
    requires ReaderStep(kernel[p], registry[p], k, r) && (AllDaemon(k) <==> AllDaemon(kernel[p]))
    ensures Books(kernel[p := k], registry[p := r]) && MarksOk(registry[p := r])
  {
  }

  lemma ReaderBooks(s: State, p: Pty, k: Kernel, r: Reader)
    requires Inv(s) && p in s.inc.registry && p in s.kernel && ReaderStep(s.kernel[p], s.inc.registry[p], k, r)
    ensures KernelOk(s.kernel[p := k]) && MarksOk(s.inc.registry[p := r])
    ensures Sole(s.inc.alive, s.kernel[p := k])
    ensures Books(s.kernel[p := k], s.inc.registry[p := r])
  {
    ReaderKernel(s.kernel[p], s.inc.registry[p], k, r);
    ReaderLedger(s.kernel, s.inc.registry, p, k, r);
  }

  lemma HeirsAfter(kernel: map<Pty, Kernel>, links: map<Link, Conn>, p: Pty, k: Kernel)
    requires HeirsHold(kernel, links) && p in kernel && |kernel[p].takers| <= |kernel[p].output| && |k.takers| <= |k.output|
    requires forall l :: Mine(k.output, k.takers, Successor(l)) == Mine(kernel[p].output, kernel[p].takers, Successor(l))
    ensures HeirsHold(kernel[p := k], links)
  {
  }

  lemma TakersAfter(kernel: map<Pty, Kernel>, links: map<Link, Conn>, p: Pty, k: Kernel)
    requires TakersKnown(kernel, links) && p in kernel
    requires forall i :: 0 <= i < |k.takers| && k.takers[i].Successor? ==> i < |kernel[p].takers| && kernel[p].takers[i] == k.takers[i]
    ensures TakersKnown(kernel[p := k], links)
  {
  }

  lemma OfferAfter(kernel: map<Pty, Kernel>, l: Link, infos: Infos, p: Pty, k: Kernel)
    requires OfferOk(kernel, l, infos) && p in kernel
    requires forall snapshot :: SnapshotOk(kernel[p], l, snapshot) ==> SnapshotOk(k, l, snapshot)
    ensures OfferOk(kernel[p := k], l, infos)
  {
  }

  lemma ReaderHeirs(s: State, p: Pty, k: Kernel, r: Reader)
    requires Inv(s) && p in s.inc.registry && p in s.kernel && ReaderStep(s.kernel[p], s.inc.registry[p], k, r)
    ensures HeirsHold(s.kernel[p := k], s.links) && TakersKnown(s.kernel[p := k], s.links)
    ensures forall l :: l in s.links ==> OfferOk(s.kernel[p := k], l, s.links[l].offered)
  {
    ReaderKernel(s.kernel[p], s.inc.registry[p], k, r);
    HeirsAfter(s.kernel, s.links, p, k);
    TakersAfter(s.kernel, s.links, p, k);
    forall l | l in s.links ensures OfferOk(s.kernel[p := k], l, s.links[l].offered) {
      OfferAfter(s.kernel, l, s.links[l].offered, p, k);
    }
  }

  lemma ReaderInv(s: State, p: Pty, k: Kernel, r: Reader, t: State)
    requires Inv(s) && s.inc.alive && p in s.inc.registry && p in s.kernel
    requires ReaderStep(s.kernel[p], s.inc.registry[p], k, r)
    requires t == s.(kernel := s.kernel[p := k], inc := s.inc.(registry := s.inc.registry[p := r]))
    ensures Inv(t)
  {
    ReaderFrozen(s.inc.job, s.inc.registry, s.kernel, s.links, p, k, r);
    ReaderBooks(s, p, k, r);
    ReaderHeirs(s, p, k, r);
    assert t.inc.registry.Keys == s.inc.registry.Keys;
  }

  // --------------------------------------------------------------- the registry

  /** Only the guards change. */
  lemma GuardInv(s: State, guards: nat, t: State)
    requires Inv(s) && (s.inc.fence.writeLocked ==> guards == 0)
    requires t == s.(inc := s.inc.(fence := s.inc.fence.(guards := guards)))
    ensures Inv(t)
  {
  }

  lemma SpawnInv(s: State, p: Pty, t: State)
    requires Inv(s) && RegistryMoves(s, Spawn(p), t)
    ensures Inv(t)
  {
    assert t.kernel[p].output[..0] == [];
  }

  lemma RemoveInv(s: State, p: Pty, t: State)
    requires Inv(s) && RegistryMoves(s, Remove(p), t)
    ensures Inv(t)
  {
  }

  lemma InputInv(s: State, p: Pty, t: State)
    requires Inv(s) && RegistryMoves(s, Input(p), t)
    ensures Inv(t)
  {
    assert t.inc.registry.Keys == s.inc.registry.Keys;
  }

  lemma RegistryInv(s: State, command: Command, t: State)
    requires Inv(s) && RegistryMoves(s, command, t)
    ensures Inv(t)
  {
    match command
    case TakeGuard => GuardInv(s, s.inc.fence.guards + 1, t);
    case DropGuard => GuardInv(s, s.inc.fence.guards - 1, t);
    case Spawn(p) => SpawnInv(s, p, t);
    case Remove(p) => RemoveInv(s, p, t);
    case Input(p) => InputInv(s, p, t);
  }

  /** What one connection must satisfy under a job. */
  ghost predicate ConnOk(conn: Conn, alive: bool, job: Job, l: Link) {
    Talk(conn, Untold(job, l, conn)) && Gate(conn, alive, job.phase.Released?)
  }

  ghost predicate SameOffer(conn: Conn, conn': Conn) {
    conn'.offered == conn.offered && conn'.unsettled == conn.unsettled && conn'.heir.adopted == conn.heir.adopted
  }

  /** A later phase of the same job promises no more about the snapshot. */
  ghost predicate Continues(job: Job, job': Job) {
    && job'.link == job.link && !job.phase.Idle? && job'.phase.Released? == job.phase.Released?
    && (Sampling(job'.phase) ==>
          && SnapshotTaken(job.phase) && SnapshotTaken(job'.phase)
          && job'.skipped == job.skipped && job'.sampled == job.sampled && job'.asked == job.asked)
  }

  /** Only one connection changes or appears. */
  lemma OneConn(s: State, l: Link, t: State)
    requires ConnsOk(s) && l in t.links && t.inc.alive == s.inc.alive
    requires t.inc.job.phase.Released? == s.inc.job.phase.Released?
    requires forall m :: m in t.links && m != l ==> m in s.links && t.links[m] == s.links[m]
    requires forall m :: m in t.links && m != l ==> (Untold(t.inc.job, m, t.links[m]) <==> Untold(s.inc.job, m, t.links[m]))
    requires forall m :: m in t.links ==> OfferOk(t.kernel, m, t.links[m].offered)
    requires ConnOk(t.links[l], t.inc.alive, t.inc.job, l)
    ensures ConnsOk(t)
  {
  }

  // ---------------------------------------------------------------- the handler

  lemma LockInv(s: State, l: Link, t: State)
    requires Inv(s) && s.inc.alive && l in s.links && l in t.links && SetupMoves(s.inc, s.links[l], l, Lock, t.inc, t.links[l])
    requires t == s.(inc := t.inc, links := s.links[l := t.links[l]])
    ensures Inv(t)
  {
  }

  /** Asking a reader to park, or letting it go, touches nothing else. */
  lemma MarkedBooks(kernel: map<Pty, Kernel>, registry: map<Pty, Reader>, p: Pty, quiesce: bool)
    requires p in registry && MarksOk(registry) && Books(kernel, registry)
    ensures var registry' := Marked(registry, p, quiesce);
            registry'.Keys == registry.Keys && MarksOk(registry') && Books(kernel, registry')
  {
  }

  /** The handler turns one reader's request on or off while no sample stands. */
  lemma MarkedInv(s: State, p: Pty, quiesce: bool, job: Job, t: State)
    requires Inv(s) && p in s.inc.registry && (!Sampling(job.phase) || (job.phase.Locked? && job.sampled == {}))
    requires job == s.inc.job.(asked := job.asked)
    requires t == s.(inc := s.inc.(registry := Marked(s.inc.registry, p, quiesce), job := job))
    requires Flags(job.phase, job.asked, t.inc.registry) && Fences(s.inc.fence, job, s.inc.registry.Keys)
    ensures Inv(t)
  {
    MarkedBooks(s.kernel, s.inc.registry, p, quiesce);
  }

  lemma AskInv(s: State, l: Link, p: Pty, t: State)
    requires Inv(s) && s.inc.alive && l in s.links && l in t.links && SetupMoves(s.inc, s.links[l], l, Ask(p), t.inc, t.links[l])
    requires t == s.(inc := t.inc, links := s.links[l := t.links[l]])
    ensures Inv(t)
  {
    assert t.links == s.links;
    MarkedInv(s, p, true, t.inc.job, t);
  }

  /** The handler is before its first message, whichever of the setup steps it is at. */
  predicate Preparing(phase: Phase) {
    phase.Locked? || phase.Collecting? || phase.Collected?
  }

  lemma PreparingConn(conn: Conn, conn': Conn, job: Job, job': Job, l: Link)
    requires ConnOk(conn, true, job, l) && Preparing(job.phase) && Preparing(job'.phase) && job.link == l == job'.link
    requires conn' == conn.(offered := conn'.offered, unsettled := conn'.unsettled) && conn.status.Serving?
    ensures ConnOk(conn', true, job', l)
  {
  }

  /** The handler moves on among its setup steps, readers and kernel untouched. */
  lemma PreparingInv(s: State, fence: Fence, job: Job, conn: Conn, t: State)
    requires Inv(s) && s.inc.alive && Preparing(s.inc.job.phase) && Preparing(job.phase) && job.link == s.inc.job.link
    requires conn == s.links[job.link].(offered := conn.offered, unsettled := conn.unsettled)
    requires t == s.(inc := s.inc.(fence := fence, job := job), links := s.links[job.link := conn])
    requires Flags(job.phase, job.asked, s.inc.registry) && Fences(fence, job, s.inc.registry.Keys)
    requires Sampled(job, s.inc.registry, conn) && FrozenFor(job, s.inc.registry, conn) && CutFor(s.kernel, conn)
    requires OfferOk(s.kernel, job.link, conn.offered)
    ensures Inv(t)
  {
    PreparingConn(s.links[job.link], conn, s.inc.job, job, job.link);
    PreparingHeirs(s.kernel, s.links, job.link, conn);
    OneConn(s, job.link, t);
  }

  lemma PreparingHeirs(kernel: map<Pty, Kernel>, links: map<Link, Conn>, l: Link, conn: Conn)
    requires l in links && conn.heir == links[l].heir && HeirsHold(kernel, links) && TakersKnown(kernel, links)
    ensures HeirsHold(kernel, links[l := conn]) && TakersKnown(kernel, links[l := conn])
  {
  }

  /** A reader's mirror lacks exactly the chunk in its hand. */
  lemma MirrorOk(k: Kernel, l: Link, r: Reader)
    requires InStep(k, r) && AllDaemon(k)
    ensures SnapshotOk(k, l, r.mirror) && |r.mirror| + |Held(r)| == |k.takers|
    ensures Quiet(r) ==> Held(r) == []
  {
    assert (r.mirror + Held(r))[..|r.mirror|] == r.mirror;
  }

  lemma SampleInv(s: State, l: Link, p: Pty, t: State)
    requires Inv(s) && s.inc.alive && l in s.links && l in t.links && SetupMoves(s.inc, s.links[l], l, Sample(p), t.inc, t.links[l])
    requires t == s.(inc := t.inc, links := s.links[l := t.links[l]])
    ensures Inv(t)
  {
    PreparingInv(s, t.inc.fence, t.inc.job, t.links[l], t);
  }

  lemma BeginCollectInv(s: State, l: Link, t: State)
    requires Inv(s) && s.inc.alive && l in s.links && l in t.links && SetupMoves(s.inc, s.links[l], l, BeginCollect, t.inc, t.links[l])
    requires t == s.(inc := t.inc, links := s.links[l := t.links[l]])
    ensures Inv(t)
  {
    PreparingInv(s, t.inc.fence, t.inc.job, t.links[l], t);
  }

  lemma SnapOffer(kernel: map<Pty, Kernel>, l: Link, offered: Infos, p: Pty, info: Option<seq<Byte>>)
    requires OfferOk(kernel, l, offered) && p in kernel && (info.Some? ==> SnapshotOk(kernel[p], l, info.value))
    ensures OfferOk(kernel, l, offered[p := info])
  {
  }

  lemma SnapFrozen(job: Job, job': Job, registry: map<Pty, Reader>, kernel: map<Pty, Kernel>, conn: Conn, p: Pty, info: Option<seq<Byte>>, conn': Conn)
    requires Sampled(job, registry, conn) && FrozenFor(job, registry, conn) && CutFor(kernel, conn) && job.phase.Collecting?
    requires p in registry && p in kernel && p !in conn.offered && p !in job.skipped
    requires info.Some? ==> info.value == registry[p].mirror && |info.value| + |Held(registry[p])| == |kernel[p].takers|
    requires Quiet(registry[p]) ==> Held(registry[p]) == []
    requires conn' == conn.(offered := conn.offered[p := info]) && job' == job.(clones := job'.clones)
    ensures Sampled(job', registry, conn') && FrozenFor(job', registry, conn') && CutFor(kernel, conn')
  {
    assert conn'.offered.Keys == conn.offered.Keys + {p};
  }

  lemma SnapInv(s: State, l: Link, p: Pty, blind: bool, t: State)
    requires Inv(s) && s.inc.alive && l in s.links && l in t.links && CollectMoves(s.inc, s.links[l], l, Snap(p, blind), t.inc, t.links[l])
    requires t == s.(inc := t.inc, links := s.links[l := t.links[l]])
    ensures Inv(t)
  {
    var info := t.links[l].offered[p];
    MirrorOk(s.kernel[p], l, s.inc.registry[p]);
    SnapOffer(s.kernel, l, s.links[l].offered, p, info);
    SnapFrozen(s.inc.job, t.inc.job, s.inc.registry, s.kernel, s.links[l], p, info, t.links[l]);
    PreparingInv(s, t.inc.fence, t.inc.job, t.links[l], t);
  }

  lemma SkipInv(s: State, l: Link, p: Pty, t: State)
    requires Inv(s) && s.inc.alive && l in s.links && l in t.links && CollectMoves(s.inc, s.links[l], l, Skip(p), t.inc, t.links[l])
    requires t == s.(inc := t.inc, links := s.links[l := t.links[l]])
    ensures Inv(t)
  {
    PreparingInv(s, t.inc.fence, t.inc.job, t.links[l], t);
  }

  lemma SealAgentsInv(s: State, l: Link, t: State)
    requires Inv(s) && s.inc.alive && l in s.links && l in t.links && CollectMoves(s.inc, s.links[l], l, SealAgents, t.inc, t.links[l])
    requires t == s.(inc := t.inc, links := s.links[l := t.links[l]])
    ensures Inv(t)
  {
    PreparingInv(s, t.inc.fence, t.inc.job, t.links[l], t);
  }

  lemma PhaseConns(s: State, job: Job, conn: Conn, t: State)
    requires ConnsOk(s) && job.link in s.links && Continues(s.inc.job, job) && SameOffer(s.links[job.link], conn)
    requires ConnOk(conn, s.inc.alive, job, job.link)
    requires t == s.(inc := t.inc, links := s.links[job.link := conn]) && t.inc.alive == s.inc.alive && t.inc.job == job
    ensures ConnsOk(t)
  {
    OneConn(s, job.link, t);
  }

  lemma PhaseHeirs(kernel: map<Pty, Kernel>, links: map<Link, Conn>, l: Link, conn: Conn)
    requires l in links && SameOffer(links[l], conn) && HeirsHold(kernel, links) && TakersKnown(kernel, links)
    ensures HeirsHold(kernel, links[l := conn]) && TakersKnown(kernel, links[l := conn])
  {
  }

  /** The handler moves on within its job, readers and kernel untouched. */
  lemma PhaseInv(s: State, fence: Fence, job: Job, conn: Conn, t: State)
    requires Inv(s) && Continues(s.inc.job, job) && SameOffer(s.links[job.link], conn)
    requires t == s.(inc := s.inc.(fence := fence, job := job), links := s.links[job.link := conn])
    requires Flags(job.phase, job.asked, s.inc.registry) && Fences(fence, job, s.inc.registry.Keys)
    requires (conn.status.Serving? <==> Busy(job.phase)) && (conn.status.Kept? <==> HasCommitted(job.phase))
    requires ConnOk(conn, s.inc.alive, job, job.link)
    ensures Inv(t)
  {
    PhaseConns(s, job, conn, t);
    PhaseHeirs(s.kernel, s.links, job.link, conn);
  }

  lemma TransferFences(inc: Incumbent, conn: Conn, l: Link, move: HandlerMove, inc': Incumbent, conn': Conn)
    requires TransferMoves(inc, conn, l, move, inc', conn')
    requires Fences(inc.fence, inc.job, inc.registry.Keys) && Flags(inc.job.phase, inc.job.asked, inc.registry)
    ensures inc' == inc.(fence := inc'.fence, job := inc'.job) && Continues(inc.job, inc'.job)
    ensures Flags(inc'.job.phase, inc'.job.asked, inc.registry) && Fences(inc'.fence, inc'.job, inc.registry.Keys)
  {
  }

  lemma TransferConn(inc: Incumbent, conn: Conn, l: Link, move: HandlerMove, inc': Incumbent, conn': Conn)
    requires TransferMoves(inc, conn, l, move, inc', conn') && ConnOk(conn, true, inc.job, l) && conn.status.Serving?
    ensures SameOffer(conn, conn') && ConnOk(conn', true, inc'.job, l)
    ensures (conn'.status.Serving? <==> Busy(inc'.job.phase)) && (conn'.status.Kept? <==> HasCommitted(inc'.job.phase))
  {
  }

  lemma TransferInv(s: State, l: Link, move: HandlerMove, t: State)
    requires Inv(s) && s.inc.alive && l in s.links && l in t.links
    requires TransferMoves(s.inc, s.links[l], l, move, t.inc, t.links[l])
    requires t == s.(inc := t.inc, links := s.links[l := t.links[l]])
    ensures Inv(t)
  {
    TransferFences(s.inc, s.links[l], l, move, t.inc, t.links[l]);
    TransferConn(s.inc, s.links[l], l, move, t.inc, t.links[l]);
    PhaseInv(s, t.inc.fence, t.inc.job, t.links[l], t);
  }

  lemma ResumeOneInv(s: State, l: Link, p: Pty, t: State)
    requires Inv(s) && s.inc.alive && l in s.links && l in t.links && CleanupMoves(s.inc, s.links[l], l, ResumeOne(p), t.inc, t.links[l])
    requires t == s.(inc := t.inc, links := s.links[l := t.links[l]])
    ensures Inv(t)
  {
    assert t.links == s.links;
    MarkedInv(s, p, false, t.inc.job, t);
  }

  /** A list of different tasks that ends with releasing the lock. */
  ghost predicate Orderly(all: seq<Task>) {
    && all != [] && (forall i, j :: 0 <= i < j < |all| ==> all[i] != all[j])
    && (forall i :: 0 <= i < |all| ==> (all[i].ReleaseLock? <==> i == |all| - 1))
  }

  lemma CleanupOrderly(exit: Exit)
    ensures Orderly(Cleanup(exit))
  {
  }

  /** Doing the first task leaves exactly the others, and the lock is released last. */
  lemma TodoRest(todo: seq<Task>, all: seq<Task>)
    requires Orderly(all) && Suffix(todo, all)
    ensures todo[0].ReleaseLock? <==> |todo| == 1
    ensures |todo| > 1 ==> Suffix(todo[1..], all)
    ensures forall task :: task in todo[1..] <==> task in todo && task != todo[0]
  {
    assert todo == [todo[0]] + todo[1..];
    assert forall i :: 0 <= i < |todo[1..]| ==> todo[1..][i] == all[|all| - |todo| + 1 + i];
  }

  /** One task done, others left. */
  lemma TaskDone(fence: Fence, job: Job, keys: set<Pty>, fence': Fence, job': Job)
    requires Fences(fence, job, keys) && job.phase.RollingBack? && |job.phase.todo| > 1
    requires job' == job.(phase := RollingBack(job.phase.exit, job.phase.todo[1..]))
    requires var task := job.phase.todo[0];
             && (task.ResumeReaders? ==> job.asked == {}) && (task.CloseClones? ==> job.clones == {})
             && fence' == fence.(sealed := fence.sealed && !task.Unseal?, agentSealed := fence.agentSealed && !task.DropAgentSeal?)
    ensures Fences(fence', job', keys)
  {
    CleanupOrderly(job.phase.exit);
    TodoRest(job.phase.todo, Cleanup(job.phase.exit));
  }

  /** The last task done: everything is down. */
  lemma LastTaskDone(fence: Fence, job: Job, keys: set<Pty>)
    requires Fences(fence, job, keys) && job.phase.RollingBack? && job.phase.todo[0].ReleaseLock?
    ensures Fences(fence.(writeLocked := false), job.(phase := Idle), keys)
    ensures job.asked == {} && job.clones == {} && !fence.sealed && !fence.agentSealed
  {
    CleanupOrderly(job.phase.exit);
    TodoRest(job.phase.todo, Cleanup(job.phase.exit));
    assert job.phase.todo == [ReleaseLock];
  }

  lemma NextTaskFences(inc: Incumbent, conn: Conn, l: Link, inc': Incumbent, conn': Conn)
    requires CleanupMoves(inc, conn, l, NextTask, inc', conn') && Fences(inc.fence, inc.job, inc.registry.Keys)
    ensures Fences(inc'.fence, inc'.job, inc.registry.Keys)
  {
    CleanupOrderly(inc.job.phase.exit);
    TodoRest(inc.job.phase.todo, Cleanup(inc.job.phase.exit));
    if inc.job.phase.todo[0].ReleaseLock? {
      LastTaskDone(inc.fence, inc.job, inc.registry.Keys);
    } else {
      TaskDone(inc.fence, inc.job, inc.registry.Keys, inc'.fence, inc'.job);
    }
  }

  lemma TidyFlags(inc: Incumbent, conn: Conn, l: Link, move: HandlerMove, inc': Incumbent, conn': Conn)
    requires CleanupMoves(inc, conn, l, move, inc', conn') && !move.ResumeOne? && Flags(inc.job.phase, inc.job.asked, inc.registry)
    ensures inc' == inc.(fence := inc'.fence, job := inc'.job) && Continues(inc.job, inc'.job)
    ensures Flags(inc'.job.phase, inc'.job.asked, inc.registry)
  {
  }

  lemma TidyFences(inc: Incumbent, conn: Conn, l: Link, move: HandlerMove, inc': Incumbent, conn': Conn)
    requires CleanupMoves(inc, conn, l, move, inc', conn') && !move.ResumeOne? && Fences(inc.fence, inc.job, inc.registry.Keys)
    ensures Fences(inc'.fence, inc'.job, inc.registry.Keys)
  {
    if move.NextTask? {
      NextTaskFences(inc, conn, l, inc', conn');
    }
  }

  lemma TidyConn(inc: Incumbent, conn: Conn, l: Link, move: HandlerMove, inc': Incumbent, conn': Conn)
    requires CleanupMoves(inc, conn, l, move, inc', conn') && !move.ResumeOne?
    requires ConnOk(conn, true, inc.job, l) && conn.status.Serving?
    ensures SameOffer(conn, conn') && ConnOk(conn', true, inc'.job, l)
    ensures (conn'.status.Serving? <==> Busy(inc'.job.phase)) && (conn'.status.Kept? <==> HasCommitted(inc'.job.phase))
  {
  }

  lemma TidyInv(s: State, l: Link, move: HandlerMove, t: State)
    requires Inv(s) && s.inc.alive && l in s.links && l in t.links && !move.ResumeOne?
    requires CleanupMoves(s.inc, s.links[l], l, move, t.inc, t.links[l])
    requires t == s.(inc := t.inc, links := s.links[l := t.links[l]])
    ensures Inv(t)
  {
    TidyFences(s.inc, s.links[l], l, move, t.inc, t.links[l]);
    TidyFlags(s.inc, s.links[l], l, move, t.inc, t.links[l]);
    TidyConn(s.inc, s.links[l], l, move, t.inc, t.links[l]);
    PhaseInv(s, t.inc.fence, t.inc.job, t.links[l], t);
  }

  lemma RequestStopInv(s: State, l: Link, t: State)
    requires Inv(s) && s.inc.alive && l in s.links && l in t.links && EndingMoves(s.inc, s.links[l], l, RequestStop, t.inc, t.links[l])
    requires t == s.(inc := t.inc, links := s.links[l := t.links[l]])
    ensures Inv(t)
  {
  }

  lemma ReleaseInv(s: State, l: Link, t: State)
    requires Inv(s) && s.inc.alive && l in s.links && l in t.links && EndingMoves(s.inc, s.links[l], l, Release, t.inc, t.links[l])
    requires t == s.(inc := t.inc, links := s.links[l := t.links[l]])
    ensures Inv(t)
  {
  }

  /** What the invariant says of a connection's place, status and offer unchanged. */
  lemma LinkSeats(job: Job, registry: map<Pty, Reader>, kernel: map<Pty, Kernel>, links: map<Link, Conn>, l: Link, conn: Conn)
    requires l in links && conn.status == links[l].status && conn.offered == links[l].offered && conn.unsettled == links[l].unsettled
    requires Seats(job, links) && Frozen(job, registry, links) && Cut(job, kernel, links)
    ensures Seats(job, links[l := conn]) && Frozen(job, registry, links[l := conn]) && Cut(job, kernel, links[l := conn])
  {
  }

  /** Only one connection changes, and nothing it was offered. */
  lemma LinkInv(s: State, l: Link, conn: Conn, t: State)
    requires Inv(s) && l in s.links && t == s.(links := s.links[l := conn])
    requires SameOffer(s.links[l], conn) && conn.status == s.links[l].status && ConnOk(conn, s.inc.alive, s.inc.job, l)
    ensures Inv(t)
  {
    PhaseHeirs(s.kernel, s.links, l, conn);
    LinkSeats(s.inc.job, s.inc.registry, s.kernel, s.links, l, conn);
    OneConn(s, l, t);
  }

  lemma CloseAfterCommitInv(s: State, l: Link, t: State)
    requires Inv(s) && s.inc.alive && l in s.links && l in t.links && EndingMoves(s.inc, s.links[l], l, CloseAfterCommit, t.inc, t.links[l])
    requires t == s.(inc := t.inc, links := s.links[l := t.links[l]])
    ensures Inv(t)
  {
    LinkInv(s, l, t.links[l], t);
  }

  // ---------------------------------------- the connection loop and the successors

  lemma LoopInv(s: State, l: Link, move: LoopMove, t: State)
    requires Inv(s) && s.inc.alive && l in s.links && l in t.links && LoopMoves(s.links[l], move, t.links[l])
    requires t == s.(links := s.links[l := t.links[l]])
    ensures Inv(t)
  {
    LinkInv(s, l, t.links[l], t);
  }

  lemma HeirLocal(alive: bool, kernel: map<Pty, Kernel>, conn: Conn, move: HeirMove, conn': Conn, job: Job, l: Link)
    requires HeirMoves(alive, kernel, conn, move, conn') && !move.SeeEof? && ConnOk(conn, alive, job, l)
    ensures SameOffer(conn, conn') && conn'.status == conn.status && ConnOk(conn', alive, job, l)
  {
  }

  lemma HeirInv(s: State, l: Link, move: HeirMove, t: State)
    requires Inv(s) && l in s.links && l in t.links && HeirMoves(s.inc.alive, s.kernel, s.links[l], move, t.links[l]) && !move.SeeEof?
    requires t == s.(links := s.links[l := t.links[l]])
    ensures Inv(t)
  {
    HeirLocal(s.inc.alive, s.kernel, s.links[l], move, t.links[l], s.inc.job, l);
    LinkInv(s, l, t.links[l], t);
  }

  lemma AdoptHeirs(kernel: map<Pty, Kernel>, links: map<Link, Conn>, l: Link, conn: Conn)
    requires KernelOk(kernel) && HeirsHold(kernel, links) && TakersKnown(kernel, links)
    requires l in links && links[l].heir.adopted == map[]
    requires forall p :: p in conn.heir.adopted ==> conn.heir.adopted[p] == []
    ensures HeirsHold(kernel, links[l := conn]) && TakersKnown(kernel, links[l := conn])
  {
    forall p | p in kernel ensures Mine(kernel[p].output, kernel[p].takers, Successor(l)) == [] {
      MineNone(kernel[p].output, kernel[p].takers, Successor(l));
    }
  }

  lemma AdoptLocal(alive: bool, kernel: map<Pty, Kernel>, conn: Conn, conn': Conn, job: Job, l: Link)
    requires HeirMoves(alive, kernel, conn, SeeEof, conn') && ConnOk(conn, alive, job, l) && OfferOk(kernel, l, conn.offered)
    ensures ConnOk(conn', alive, job, l) && conn.heir.adopted == map[]
  {
    assert conn'.heir.adopted.Keys == conn'.heir.received.Keys;
  }

  lemma AdoptInv(s: State, l: Link, t: State)
    requires Inv(s) && l in s.links && l in t.links && HeirMoves(s.inc.alive, s.kernel, s.links[l], SeeEof, t.links[l])
    requires t == s.(links := s.links[l := t.links[l]])
    ensures Inv(t)
  {
    var conn := t.links[l];
    AdoptLocal(s.inc.alive, s.kernel, s.links[l], conn, s.inc.job, l);
    AdoptHeirs(s.kernel, s.links, l, conn);
    LinkSeats(s.inc.job, s.inc.registry, s.kernel, s.links, l, conn);
    OneConn(s, l, t);
  }

  lemma AdoptedReadHeirs(kernel: map<Pty, Kernel>, links: map<Link, Conn>, l: Link, p: Pty, n: nat, k: Kernel, conn: Conn)
    requires KernelOk(kernel) && HeirsHold(kernel, links) && TakersKnown(kernel, links)
    requires l in links && p in kernel && p in links[l].heir.adopted && |kernel[p].takers| + n <= |kernel[p].output|
    requires k == Taken(kernel[p], Successor(l), n)
    requires conn.heir.adopted == links[l].heir.adopted[p := links[l].heir.adopted[p] + Bytes(kernel[p], n)]
    ensures HeirsHold(kernel[p := k], links[l := conn]) && TakersKnown(kernel[p := k], links[l := conn])
  {
    TakenLocal(kernel[p], Successor(l), n, k);
  }

  lemma AdoptedReadBooks(kernel: map<Pty, Kernel>, registry: map<Pty, Reader>, l: Link, p: Pty, n: nat, k: Kernel)
    requires KernelOk(kernel) && Books(kernel, registry) && p in kernel
    requires n > 0 && |kernel[p].takers| + n <= |kernel[p].output| && k == Taken(kernel[p], Successor(l), n)
    ensures KernelOk(kernel[p := k]) && Books(kernel[p := k], registry)
  {
    TakenLocal(kernel[p], Successor(l), n, k);
  }

  lemma AdoptedReadCut(job: Job, kernel: map<Pty, Kernel>, links: map<Link, Conn>, l: Link, p: Pty, n: nat, k: Kernel)
    requires Cut(job, kernel, links) && p in kernel
    requires |kernel[p].takers| + n <= |kernel[p].output| && k == Taken(kernel[p], Successor(l), n)
    ensures Cut(job, kernel[p := k], links)
  {
    TakenLocal(kernel[p], Successor(l), n, k);
  }

  lemma AdoptedReadKernel(s: State, l: Link, p: Pty, n: nat, k: Kernel)
    requires Inv(s) && l in s.links && s.links[l].heir.stage.Streaming? && p in s.kernel && p in s.links[l].heir.adopted
    requires n > 0 && |s.kernel[p].takers| + n <= |s.kernel[p].output| && k == Taken(s.kernel[p], Successor(l), n)
    ensures KernelOk(s.kernel[p := k]) && Sole(s.inc.alive, s.kernel[p := k])
    ensures Books(s.kernel[p := k], s.inc.registry) && Cut(s.inc.job, s.kernel[p := k], s.links)
  {
    AdoptedReadBooks(s.kernel, s.inc.registry, l, p, n, k);
    AdoptedReadCut(s.inc.job, s.kernel, s.links, l, p, n, k);
  }

  lemma AdoptedReadOffers(s: State, l: Link, p: Pty, n: nat, k: Kernel)
    requires ConnsOk(s) && p in s.kernel
    requires |s.kernel[p].takers| + n <= |s.kernel[p].output| && k == Taken(s.kernel[p], Successor(l), n)
    ensures forall m :: m in s.links ==> OfferOk(s.kernel[p := k], m, s.links[m].offered)
  {
    TakenLocal(s.kernel[p], Successor(l), n, k);
  }

  lemma AdoptedReadConn(conn: Conn, alive: bool, job: Job, l: Link, p: Pty, bytes: seq<Byte>, conn': Conn)
    requires ConnOk(conn, alive, job, l) && conn.heir.stage.Streaming? && p in conn.heir.adopted
    requires conn' == conn.(heir := conn.heir.(adopted := conn.heir.adopted[p := conn.heir.adopted[p] + bytes]))
    ensures ConnOk(conn', alive, job, l)
  {
    assert conn'.heir.adopted.Keys == conn.heir.adopted.Keys;
  }

  lemma AdoptedReadConns(s: State, l: Link, p: Pty, n: nat, t: State)
    requires ConnsOk(s) && AdoptedReads(s, l, p, n, t)
    requires forall m :: m in s.links ==> OfferOk(t.kernel, m, s.links[m].offered)
    ensures ConnsOk(t)
  {
    AdoptedReadConn(s.links[l], s.inc.alive, s.inc.job, l, p, Bytes(s.kernel[p], n), t.links[l]);
    OneConn(s, l, t);
  }

  lemma AdoptedReadInv(s: State, l: Link, p: Pty, n: nat, t: State)
    requires Inv(s) && AdoptedReads(s, l, p, n, t)
    ensures Inv(t)
  {
    AdoptedReadKernel(s, l, p, n, t.kernel[p]);
    AdoptedReadOffers(s, l, p, n, t.kernel[p]);
    AdoptedReadHeirs(s.kernel, s.links, l, p, n, t.kernel[p], t.links[l]);
    AdoptedReadConns(s, l, p, n, t);
    LinkSeats(s.inc.job, s.inc.registry, t.kernel, s.links, l, t.links[l]);
  }

  lemma DieInv(s: State, t: State)
    requires Inv(s) && t == s.(inc := s.inc.(alive := false))
    ensures Inv(t)
  {
  }

  lemma KillInv(s: State, l: Link, t: State)
    requires Inv(s) && Next(s, Kill(l), t)
    ensures Inv(t)
  {
    var dead := s.(inc := s.inc.(alive := false));
    DieInv(s, dead);
    LinkInv(dead, l, t.links[l], t);
  }

  lemma ConnectHeirs(kernel: map<Pty, Kernel>, links: map<Link, Conn>, l: Link)
    requires l !in links && HeirsHold(kernel, links) && TakersKnown(kernel, links)
    ensures HeirsHold(kernel, links[l := NEW_CONN]) && TakersKnown(kernel, links[l := NEW_CONN])
  {
  }

  lemma ConnectInv(s: State, l: Link, t: State)
    requires Inv(s) && s.inc.alive && l !in s.links && t == s.(links := s.links[l := NEW_CONN])
    ensures Inv(t)
  {
    ConnectHeirs(s.kernel, s.links, l);
    ConnectSeats(s.inc.job, s.inc.registry, s.kernel, s.links, l);
    OneConn(s, l, t);
  }

  lemma ConnectSeats(job: Job, registry: map<Pty, Reader>, kernel: map<Pty, Kernel>, links: map<Link, Conn>, l: Link)
    requires l !in links && Seats(job, links) && Frozen(job, registry, links) && Cut(job, kernel, links)
    ensures Seats(job, links[l := NEW_CONN]) && (job.phase.Idle? || job.link in links)
    ensures Frozen(job, registry, links[l := NEW_CONN]) && Cut(job, kernel, links[l := NEW_CONN])
  {
  }

  lemma SetupInv(s: State, l: Link, move: HandlerMove, t: State)
    requires Inv(s) && s.inc.alive && l in s.links && l in t.links && SetupMoves(s.inc, s.links[l], l, move, t.inc, t.links[l])
    requires t == s.(inc := t.inc, links := s.links[l := t.links[l]])
    ensures Inv(t)
  {
    match move
    case Lock => LockInv(s, l, t);
    case Ask(p) => AskInv(s, l, p, t);
    case Sample(p) => SampleInv(s, l, p, t);
    case BeginCollect => BeginCollectInv(s, l, t);
  }

  lemma CollectInv(s: State, l: Link, move: HandlerMove, t: State)
    requires Inv(s) && s.inc.alive && l in s.links && l in t.links && CollectMoves(s.inc, s.links[l], l, move, t.inc, t.links[l])
    requires t == s.(inc := t.inc, links := s.links[l := t.links[l]])
    ensures Inv(t)
  {
    match move
    case Snap(p, blind) => SnapInv(s, l, p, blind, t);
    case Skip(p) => SkipInv(s, l, p, t);
    case SealAgents => SealAgentsInv(s, l, t);
  }

  lemma EndingInv(s: State, l: Link, move: HandlerMove, t: State)
    requires Inv(s) && s.inc.alive && l in s.links && l in t.links && EndingMoves(s.inc, s.links[l], l, move, t.inc, t.links[l])
    requires t == s.(inc := t.inc, links := s.links[l := t.links[l]])
    ensures Inv(t)
  {
    match move
    case RequestStop => RequestStopInv(s, l, t);
    case Release => ReleaseInv(s, l, t);
    case CloseAfterCommit => CloseAfterCommitInv(s, l, t);
  }

  lemma HandlerInv(s: State, l: Link, move: HandlerMove, t: State)
    requires Inv(s) && s.inc.alive && l in s.links && l in t.links && HandlerMoves(s.inc, s.links[l], l, move, t.inc, t.links[l])
    requires t == s.(inc := t.inc, links := s.links[l := t.links[l]])
    ensures Inv(t)
  {
    if SetupMoves(s.inc, s.links[l], l, move, t.inc, t.links[l]) {
      SetupInv(s, l, move, t);
    } else if CollectMoves(s.inc, s.links[l], l, move, t.inc, t.links[l]) {
      CollectInv(s, l, move, t);
    } else if TransferMoves(s.inc, s.links[l], l, move, t.inc, t.links[l]) {
      TransferInv(s, l, move, t);
    } else if EndingMoves(s.inc, s.links[l], l, move, t.inc, t.links[l]) {
      EndingInv(s, l, move, t);
    } else if move.ResumeOne? {
      ResumeOneInv(s, l, move.pty, t);
    } else {
      TidyInv(s, l, move, t);
    }
  }

  lemma AnyHeirInv(s: State, l: Link, move: HeirMove, t: State)
    requires Inv(s) && Next(s, OnHeir(l, move), t)
    ensures Inv(t)
  {
    match move
    case AdoptedRead(p, n) => AdoptedReadInv(s, l, p, n, t);
    case SeeEof => AdoptInv(s, l, t);
    case _ => HeirInv(s, l, move, t);
  }

  /** Every step keeps the invariant. */
  lemma NextInv(s: State, step: Step, t: State)
    requires Inv(s) && Next(s, step, t)
    ensures Inv(t)
  {
    match step
    case Child(p, bytes) => ChildInv(s, p, bytes, t);
    case OnReader(p, k, r) =>
      ReaderMoveLocal(s.kernel[p], s.inc.registry[p], k, r);
      ReaderInv(s, p, k, r, t);
    case OnRegistry(command) => RegistryInv(s, command, t);
    case OnHandler(l, move) => HandlerInv(s, l, move, t);
    case OnLoop(l, move) => LoopInv(s, l, move, t);
    case OnHeir(l, move) => AnyHeirInv(s, l, move, t);
    case Kill(l) => KillInv(s, l, t);
    case Connect(l) => ConnectInv(s, l, t);
    case Die => DieInv(s, t);
  }

  /** Every state of every run satisfies the invariant. */
  lemma {:induction false} RunInv(run: seq<State>, i: nat)
    requires Run(run) && i < |run|
    ensures Inv(run[i])
  {
    if i == 0 {
      InitialInv(run[0]);
    } else {
      RunInv(run, i - 1);
      assert StepAt(run, i);
      var step :| Next(run[i - 1], step, run[i]);
      NextInv(run[i - 1], step, run[i]);
    }
  }
}
