/**
 What the handoff protocol guarantees in every run, and exactly when.
 */
module HandoffResults {
  import opened Common
  import opened Handoff
  import opened HandoffProof
  import opened Paths

  /** The incumbent has, or could still take, bytes of this PTY. */
  ghost predicate IncumbentReads(s: State, p: Pty) {
    s.inc.alive && p in s.inc.registry && !Quiet(s.inc.registry[p])
  }

  /** The successor has seen its end of file and holds the PTY for its own. */
  ghost predicate Adopts(s: State, l: Link, p: Pty) {
    l in s.links && HasAdopted(s.links[l].heir.stage) && p in s.links[l].heir.adopted
  }

  /** ... and has started its readers. */
  ghost predicate SuccessorReads(s: State, l: Link, p: Pty) {
    Adopts(s, l, p) && s.links[l].heir.stage.Streaming?
  }

  /** The snapshots collected for this connection still stand: its transfer has not
      been given up, whether it committed, is under way or died with the incumbent. */
  ghost predicate Standing(s: State, l: Link) {
    l in s.links && SnapshotTaken(s.inc.job.phase) && s.inc.job.link == l
  }

  // ------------------------------------------------------------ who reads when

  /** Once a successor has taken a byte, the incumbent takes none. */
  ghost predicate Relayed(k: Kernel) {
    forall i, j :: 0 <= i < j < |k.takers| && k.takers[i].Successor? ==> k.takers[j].Successor?
  }

  lemma RelayedGrows(k: Kernel, who: Who, n: nat)
    requires |k.takers| + n <= |k.output| && Relayed(k) && (who.Daemon? ==> AllDaemon(k))
    ensures Relayed(Taken(k, who, n))
  {
  }

  lemma NextRelayed(s: State, step: Step, t: State, p: Pty)
    requires Sole(s.inc.alive, s.kernel) && Next(s, step, t) && p in t.kernel && (p in s.kernel ==> Relayed(s.kernel[p]))
    ensures Relayed(t.kernel[p])
  {
    if step.OnReader? && step.pty == p {
      var move :| ReaderMoves(s.kernel[p], s.inc.registry[p], move, step.kernel, step.reader);
      if move.Read? {
        RelayedGrows(s.kernel[p], Daemon, move.n);
      }
    } else if step.OnHeir? && step.heir.AdoptedRead? && step.heir.pty == p {
      RelayedGrows(s.kernel[p], Successor(step.link), step.heir.n);
    }
  }

  lemma {:induction false} AlwaysRelayed(run: seq<State>, i: nat, p: Pty)
    requires Run(run) && i < |run| && p in run[i].kernel
    ensures Relayed(run[i].kernel[p])
  {
    if i > 0 {
      RunInv(run, i - 1);
      assert StepAt(run, i);
      var step :| Next(run[i - 1], step, run[i]);
      if p in run[i - 1].kernel {
        AlwaysRelayed(run, i - 1, p);
      }
      NextRelayed(run[i - 1], step, run[i], p);
    }
  }

  /** In every run the incumbent and a successor never read the same PTY, and no byte
      is taken by the incumbent after one taken by a successor. */
  lemma NeverBothReading(run: seq<State>, i: nat, l: Link, p: Pty)
    requires Run(run) && i < |run|
    ensures !(IncumbentReads(run[i], p) && SuccessorReads(run[i], l, p))
    ensures p in run[i].kernel ==> Relayed(run[i].kernel[p])
  {
    if p in run[i].kernel {
      AlwaysRelayed(run, i, p);
    }
    RunInv(run, i);
  }

  /** What end of file alone guarantees, before the incumbent's death: the readers of an
      adopted PTY are at rest, unless theirs was taken for parked while it was resuming
      with inputs to write. */
  lemma EndOfFileMeansQuiet(run: seq<State>, i: nat, l: Link, p: Pty)
    requires Run(run) && i < |run| && Adopts(run[i], l, p) && p !in run[i].links[l].unsettled
    ensures !IncumbentReads(run[i], p)
  {
    RunInv(run, i);
  }

  /** Two successors adopt the same PTY only if one of them was rolled back before it
      acknowledged. */
  lemma AdoptersAreExclusive(run: seq<State>, i: nat, l: Link, m: Link, p: Pty)
    requires Run(run) && i < |run| && Adopts(run[i], l, p) && Adopts(run[i], m, p)
    ensures l == m || run[i].links[l].status.Back? || run[i].links[m].status.Back?
  {
    RunInv(run, i);
  }

  // ----------------------------------------------------------- byte continuity

  /** The transferred snapshot followed by what the successor read is the PTY output
      so far: nothing lost, nothing repeated. */
  ghost predicate Continuous(s: State, l: Link, p: Pty, snapshot: seq<Byte>)
    requires p in s.kernel && l in s.links && p in s.links[l].heir.adopted
  {
    && |s.kernel[p].takers| <= |s.kernel[p].output|
    && snapshot + s.links[l].heir.adopted[p] == s.kernel[p].output[..|s.kernel[p].takers|]
  }

  ghost predicate OnlyPast(k: Kernel, l: Link, n: nat) {
    forall i :: n <= i < |k.takers| ==> k.takers[i] == Successor(l)
  }

  /** Continuity in terms of who took what: exactly when nobody but the successor took
      a byte past its snapshot. */
  lemma ContinuousIff(s: State, l: Link, p: Pty, snapshot: seq<Byte>)
    requires Inv(s) && Adopts(s, l, p) && p in s.links[l].heir.received && s.links[l].heir.received[p] == Some(snapshot)
    ensures p in s.kernel && (Continuous(s, l, p, snapshot) <==> OnlyPast(s.kernel[p], l, |snapshot|))
  {
    assert OfferOk(s.kernel, l, s.links[l].offered);
    var k := s.kernel[p];
    assert SnapshotOk(k, l, snapshot);
    ContinuousLocal(k, Successor(l), snapshot, s.links[l].heir.adopted[p]);
  }

  lemma ContinuousLocal(k: Kernel, me: Who, snapshot: seq<Byte>, read: seq<Byte>)
    requires PrefixOf(snapshot, k) && read == Mine(k.output, k.takers, me)
    requires forall i :: 0 <= i < |snapshot| ==> k.takers[i] != me
    ensures snapshot + read == k.output[..|k.takers|] <==> forall i :: |snapshot| <= i < |k.takers| ==> k.takers[i] == me
  {
    var n := |snapshot|;
    if forall i :: n <= i < |k.takers| ==> k.takers[i] == me {
      MineTail(k.output, k.takers, me, n);
      assert k.output[..n] + k.output[n..|k.takers|] == k.output[..|k.takers|];
    } else {
      MineShort(k.output, k.takers, me, n);
      assert |snapshot + read| < |k.takers|;
    }
  }

  /** While a settled session's snapshot stands, its adoption loses and repeats
      nothing, unless a successor of another connection reads too: after a commit, and
      also when the incumbent dies before it. */
  lemma StandingContinuity(run: seq<State>, i: nat, l: Link, p: Pty, snapshot: seq<Byte>)
    requires Run(run) && i < |run| && Adopts(run[i], l, p)
    requires p in run[i].links[l].heir.received && run[i].links[l].heir.received[p] == Some(snapshot)
    requires Standing(run[i], l) && p !in run[i].links[l].unsettled
    requires forall m :: m in run[i].links && m != l ==> p !in run[i].links[m].heir.adopted
    ensures p in run[i].kernel && Continuous(run[i], l, p, snapshot)
  {
    RunInv(run, i);
    var s := run[i];
    ContinuousIff(s, l, p, snapshot);
    var k := s.kernel[p];
    forall j | |snapshot| <= j < |k.takers| ensures k.takers[j] == Successor(l) {
      assert NoDaemonPast(k, |snapshot|);
      assert Adopter(s.links, k.takers[j].link, p);
    }
  }

  /** Until a release or its death, an incumbent's mirror and the chunk in hand are the
      PTY output without a gap: in particular during and after every rollback. */
  lemma IncumbentContinuity(run: seq<State>, i: nat, p: Pty)
    requires Run(run) && i < |run| && p in run[i].inc.registry
    requires run[i].inc.alive && !run[i].inc.job.phase.Stopping? && !run[i].inc.job.phase.Released?
    ensures p in run[i].kernel && InStep(run[i].kernel[p], run[i].inc.registry[p])
  {
    RunInv(run, i);
  }

  // ------------------------------------------------ continuity, read by read

  /** Somebody other than this connection's successor takes a byte. */
  ghost predicate TakenByOther(s: State, t: State, p: Pty, l: Link) {
    && p in s.kernel && p in t.kernel
    && exists j :: |s.kernel[p].takers| <= j < |t.kernel[p].takers| && t.kernel[p].takers[j] != Successor(l)
  }

  ghost predicate Grew(s: State, t: State, p: Pty) {
    p in s.kernel ==> p in t.kernel && s.kernel[p].takers <= t.kernel[p].takers
  }

  lemma NextGrew(s: State, step: Step, t: State, p: Pty)
    requires Next(s, step, t)
    ensures Grew(s, t, p)
  {
  }

  /** The session has been collected for the connection. */
  ghost predicate Spent(s: State, l: Link, p: Pty) {
    l in s.links && p in s.links[l].offered && !s.links[l].status.Fresh? && !(s.inc.job.link == l && s.inc.job.phase.Locked?)
  }

  ghost predicate SameEntry(conn: Conn, conn': Conn, p: Pty) {
    && p in conn.offered && p in conn'.offered && conn'.offered[p] == conn.offered[p]
    && (p in conn'.unsettled <==> p in conn.unsettled)
  }

  lemma HandlerSpent(inc: Incumbent, conn: Conn, l: Link, move: HandlerMove, inc': Incumbent, conn': Conn, p: Pty)
    requires HandlerMoves(inc, conn, l, move, inc', conn') && !conn.status.Fresh? && !(inc.job.link == l && inc.job.phase.Locked?)
    requires p in conn.offered
    ensures SameEntry(conn, conn', p) && !conn'.status.Fresh?
    ensures inc'.job.phase.Locked? ==> inc'.job.link != l
  {
  }

  lemma HandlerElsewhere(inc: Incumbent, conn: Conn, l: Link, move: HandlerMove, inc': Incumbent, conn': Conn)
    requires HandlerMoves(inc, conn, l, move, inc', conn')
    ensures inc'.job.phase.Locked? ==> inc'.job.link == l
  {
  }

  lemma NextSpent(s: State, step: Step, t: State, l: Link, p: Pty)
    requires Seats(s.inc.job, s.links) && Spent(s, l, p) && Next(s, step, t)
    ensures Spent(t, l, p) && SameEntry(s.links[l], t.links[l], p)
  {
    if step.OnHandler? {
      if step.link == l {
        HandlerSpent(s.inc, s.links[l], l, step.handler, t.inc, t.links[l], p);
      } else {
        HandlerElsewhere(s.inc, s.links[step.link], step.link, step.handler, t.inc, t.links[step.link]);
      }
    }
  }

  ghost predicate OthersTook(run: seq<State>, c: nat, i: nat, p: Pty, l: Link)
    requires c <= i < |run|
  {
    exists k :: c < k <= i && TakenAt(run, k, p, l)
  }

  ghost predicate TakenAt(run: seq<State>, k: nat, p: Pty, l: Link)
    requires 0 < k < |run|
  {
    TakenByOther(run[k - 1], run[k], p, l)
  }

  /** Between two moments of a run takers only grow, and a byte in between is another's
      exactly if some step took it. */
  lemma {:induction false} Between(run: seq<State>, c: nat, i: nat, p: Pty, l: Link)
    requires Run(run) && c <= i < |run| && p in run[c].kernel
    ensures Grew(run[c], run[i], p)
    ensures OnlyPast(run[i].kernel[p], l, |run[c].kernel[p].takers|) <==> !OthersTook(run, c, i, p, l)
    decreases i - c
  {
    if c < i {
      Between(run, c, i - 1, p, l);
      assert StepAt(run, i);
      var step :| Next(run[i - 1], step, run[i]);
      NextGrew(run[i - 1], step, run[i], p);
      BetweenStep(run, c, i, p, l);
    }
  }

  lemma BetweenStep(run: seq<State>, c: nat, i: nat, p: Pty, l: Link)
    requires c < i < |run| && p in run[c].kernel && Grew(run[c], run[i - 1], p) && Grew(run[i - 1], run[i], p)
    requires OnlyPast(run[i - 1].kernel[p], l, |run[c].kernel[p].takers|) <==> !OthersTook(run, c, i - 1, p, l)
    ensures OnlyPast(run[i].kernel[p], l, |run[c].kernel[p].takers|) <==> !OthersTook(run, c, i, p, l)
  {
    var n, before, after := |run[c].kernel[p].takers|, run[i - 1].kernel[p].takers, run[i].kernel[p].takers;
    assert OthersTook(run, c, i, p, l) <==> OthersTook(run, c, i - 1, p, l) || TakenAt(run, i, p, l);
    assert forall j :: 0 <= j < |before| ==> after[j] == before[j];
    if OnlyPast(run[i - 1].kernel[p], l, n) {
      assert TakenAt(run, i, p, l) <==> exists j :: |before| <= j < |after| && after[j] != Successor(l);
    } else {
      var j :| n <= j < |before| && before[j] != Successor(l);
      assert after[j] == before[j];
    }
  }

  /** The step to this moment takes the session's snapshot for the connection. */
  ghost predicate SnapsAt(run: seq<State>, c: nat, l: Link, p: Pty)
    requires 0 < c < |run|
  {
    Next(run[c - 1], OnHandler(l, Snap(p, false)), run[c])
  }

  /** A snapshot is everything taken up to its moment but for a chunk in the reader's
      hand. */
  lemma CollectedAt(run: seq<State>, c: nat, l: Link, p: Pty)
    requires Run(run) && 0 < c < |run| && SnapsAt(run, c, l, p)
    ensures Spent(run[c], l, p) && p in run[c - 1].inc.registry && p in run[c].kernel && AllDaemon(run[c].kernel[p])
    ensures var r := run[c - 1].inc.registry[p];
            run[c].links[l].offered[p] == Some(r.mirror) && |r.mirror| + |Held(r)| == |run[c].kernel[p].takers|
  {
    RunInv(run, c - 1);
    CollectedHere(run[c - 1], l, p, run[c]);
  }

  lemma CollectedHere(s: State, l: Link, p: Pty, t: State)
    requires Inv(s) && s.inc.alive && l in s.links && l in t.links && t == s.(inc := t.inc, links := t.links)
    requires CollectMoves(s.inc, s.links[l], l, Snap(p, false), t.inc, t.links[l])
    ensures Spent(t, l, p) && p in s.inc.registry && p in t.kernel && AllDaemon(t.kernel[p])
    ensures var r := s.inc.registry[p];
            t.links[l].offered[p] == Some(r.mirror) && |r.mirror| + |Held(r)| == |t.kernel[p].takers|
  {
    MirrorOk(s.kernel[p], l, s.inc.registry[p]);
  }

  lemma RunSeats(run: seq<State>, i: nat)
    requires Run(run) && i < |run|
    ensures Seats(run[i].inc.job, run[i].links)
  {
    RunInv(run, i);
  }

  lemma {:induction false} SpentRun(run: seq<State>, c: nat, i: nat, l: Link, p: Pty)
    requires Run(run) && c <= i < |run| && Spent(run[c], l, p)
    ensures Spent(run[i], l, p) && SameEntry(run[c].links[l], run[i].links[l], p)
    decreases i - c
  {
    if c < i {
      SpentRun(run, c, i - 1, l, p);
      RunSeats(run, i - 1);
      assert StepAt(run, i);
      var step :| Next(run[i - 1], step, run[i]);
      NextSpent(run[i - 1], step, run[i], l, p);
    }
  }

  /** An adopter was told what was collected for it. */
  lemma AdopterWasTold(s: State, l: Link, p: Pty)
    requires Inv(s) && Adopts(s, l, p)
    ensures p in s.links[l].heir.received && s.links[l].heir.received == s.links[l].offered
  {
  }

  /** Past the snapshot the chunk in the reader's hand, if any, and what was taken since
      are all there is. */
  lemma PastSnapshot(k: Kernel, k': Kernel, l: Link, snapshot: seq<Byte>, held: nat)
    requires k.takers <= k'.takers && |snapshot| + held == |k.takers| && AllDaemon(k)
    ensures OnlyPast(k', l, |snapshot|) <==> held == 0 && OnlyPast(k', l, |k.takers|)
  {
    if held > 0 {
      assert k'.takers[|snapshot|] == k.takers[|snapshot|];
    }
  }

  /** In every run, committed or not, an adopted session is continuous if and only if no
      chunk was in its reader's hand when its snapshot was taken, and no one but its
      adopter read from the PTY since. */
  lemma ContinuityExactly(run: seq<State>, c: nat, i: nat, l: Link, p: Pty)
    requires Run(run) && 0 < c <= i < |run| && SnapsAt(run, c, l, p) && Adopts(run[i], l, p)
    ensures p in run[c - 1].inc.registry && p in run[i].kernel
    ensures p in run[i].links[l].heir.received && run[i].links[l].heir.received[p] == Some(run[c - 1].inc.registry[p].mirror)
    ensures var r := run[c - 1].inc.registry[p];
            Continuous(run[i], l, p, r.mirror) <==> Held(r) == [] && !OthersTook(run, c, i, p, l)
  {
    var mirror, held := run[c - 1].inc.registry[p].mirror, |Held(run[c - 1].inc.registry[p])|;
    CollectedAt(run, c, l, p);
    AdoptedSnapshot(run, c, i, l, p, mirror);
    Between(run, c, i, p, l);
    PastSnapshot(run[c].kernel[p], run[i].kernel[p], l, mirror, held);
  }

  lemma AdoptedSnapshot(run: seq<State>, c: nat, i: nat, l: Link, p: Pty, snapshot: seq<Byte>)
    requires Run(run) && c <= i < |run| && Spent(run[c], l, p) && run[c].links[l].offered[p] == Some(snapshot) && Adopts(run[i], l, p)
    ensures p in run[i].links[l].heir.received && run[i].links[l].heir.received[p] == Some(snapshot)
    ensures p in run[i].kernel && (Continuous(run[i], l, p, snapshot) <==> OnlyPast(run[i].kernel[p], l, |snapshot|))
  {
    SpentRun(run, c, i, l, p);
    RunInv(run, i);
    AdopterWasTold(run[i], l, p);
    ContinuousIff(run[i], l, p, snapshot);
  }

  // --------------------------------------------------- readers and their marks

  /** Nobody has given a transfer up yet. */
  ghost predicate FirstTime(s: State) {
    !s.inc.job.phase.RollingBack? && forall l :: l in s.links ==> !s.links[l].status.Back?
  }

  /** Until a first rollback a mark never lies: only a reader that is asked to is
      parked, and no reader is resuming. */
  ghost predicate Calm(s: State) {
    FirstTime(s) ==>
      && (forall p :: p in s.inc.registry ==>
            !s.inc.registry[p].pc.Resuming? && (s.inc.registry[p].pc.Parked? ==> s.inc.registry[p].quiesce))
      && (forall l :: l in s.links ==> s.links[l].unsettled == {})
  }

  lemma ReaderCalm(k: Kernel, r: Reader, k': Kernel, r': Reader)
    requires SomeReaderMove(k, r, k', r') && !r.pc.Resuming? && (r.pc.Parked? ==> r.quiesce)
    ensures !r'.pc.Resuming? && (r'.pc.Parked? ==> r'.quiesce)
  {
  }

  /** The handler only works on a connection it has not let go. */
  lemma HandlerServes(inc: Incumbent, links: map<Link, Conn>, l: Link, move: HandlerMove, inc': Incumbent, conn': Conn)
    requires Seats(inc.job, links) && l in links && HandlerMoves(inc, links[l], l, move, inc', conn')
    ensures !links[l].status.Back?
  {
  }

  /** Readers are left where they are, and none is let go. */
  ghost predicate NoneLetGo(registry: map<Pty, Reader>, registry': map<Pty, Reader>) {
    forall p :: p in registry' ==>
      && p in registry && registry'[p].pc == registry[p].pc && (registry[p].quiesce ==> registry'[p].quiesce)
  }

  lemma SetupFirst(inc: Incumbent, conn: Conn, l: Link, move: HandlerMove, inc': Incumbent, conn': Conn)
    requires SetupMoves(inc, conn, l, move, inc', conn')
    ensures !inc.job.phase.RollingBack? && NoneLetGo(inc.registry, inc'.registry)
  {
  }

  lemma MiddleFirst(inc: Incumbent, conn: Conn, l: Link, move: HandlerMove, inc': Incumbent, conn': Conn)
    requires CollectMoves(inc, conn, l, move, inc', conn') || TransferMoves(inc, conn, l, move, inc', conn')
    requires !inc'.job.phase.RollingBack?
    ensures !inc.job.phase.RollingBack? && NoneLetGo(inc.registry, inc'.registry)
  {
  }

  lemma LastFirst(inc: Incumbent, conn: Conn, l: Link, move: HandlerMove, inc': Incumbent, conn': Conn)
    requires CleanupMoves(inc, conn, l, move, inc', conn') || EndingMoves(inc, conn, l, move, inc', conn')
    requires !inc'.job.phase.RollingBack? && !conn'.status.Back?
    ensures !inc.job.phase.RollingBack? && NoneLetGo(inc.registry, inc'.registry)
  {
  }

  /** Before any rollback the handler lets no reader go. */
  lemma HandlerFirst(inc: Incumbent, conn: Conn, l: Link, move: HandlerMove, inc': Incumbent, conn': Conn)
    requires HandlerMoves(inc, conn, l, move, inc', conn') && !inc'.job.phase.RollingBack? && !conn'.status.Back?
    ensures !inc.job.phase.RollingBack? && NoneLetGo(inc.registry, inc'.registry)
  {
    if SetupMoves(inc, conn, l, move, inc', conn') {
      SetupFirst(inc, conn, l, move, inc', conn');
    } else if CollectMoves(inc, conn, l, move, inc', conn') || TransferMoves(inc, conn, l, move, inc', conn') {
      MiddleFirst(inc, conn, l, move, inc', conn');
    } else {
      LastFirst(inc, conn, l, move, inc', conn');
    }
  }

  lemma HandlerUnsettled(inc: Incumbent, conn: Conn, l: Link, move: HandlerMove, inc': Incumbent, conn': Conn)
    requires HandlerMoves(inc, conn, l, move, inc', conn') && MarksOk(inc.registry) && conn.unsettled == {}
    requires forall p :: p in inc.registry ==> !inc.registry[p].pc.Resuming?
    ensures conn'.unsettled == {}
  {
  }

  lemma StayedFirst(s: State, t: State, l: Link)
    requires FirstTime(t) && !s.inc.job.phase.RollingBack? && (l in s.links ==> !s.links[l].status.Back?)
    requires forall m :: m in s.links && m != l ==> m in t.links && t.links[m].status == s.links[m].status
    ensures FirstTime(s)
  {
  }

  lemma HandlerCalm(s: State, l: Link, move: HandlerMove, t: State)
    requires Seats(s.inc.job, s.links) && MarksOk(s.inc.registry) && Calm(s)
    requires l in s.links && l in t.links && HandlerMoves(s.inc, s.links[l], l, move, t.inc, t.links[l])
    requires t == s.(inc := t.inc, links := s.links[l := t.links[l]])
    ensures Calm(t)
  {
    if FirstTime(t) {
      HandlerServes(s.inc, s.links, l, move, t.inc, t.links[l]);
      HandlerFirst(s.inc, s.links[l], l, move, t.inc, t.links[l]);
      StayedFirst(s, t, l);
      HandlerUnsettled(s.inc, s.links[l], l, move, t.inc, t.links[l]);
      StaysCalm(s, t, l);
    }
  }

  lemma StaysCalm(s: State, t: State, l: Link)
    requires Calm(s) && FirstTime(s) && NoneLetGo(s.inc.registry, t.inc.registry)
    requires l in t.links && t.links == s.links[l := t.links[l]] && t.links[l].unsettled == {}
    ensures Calm(t)
  {
  }

  lemma RegistryCalm(s: State, command: Command, t: State)
    requires Calm(s) && RegistryMoves(s, command, t)
    ensures Calm(t)
  {
  }

  /** A step that leaves readers and statuses alone. */
  lemma ElsewhereCalm(s: State, t: State)
    requires Calm(s) && t.inc.registry == s.inc.registry && t.inc.job == s.inc.job
    requires forall m :: m in s.links ==> m in t.links && t.links[m].status == s.links[m].status
    requires forall m :: m in t.links ==> t.links[m].unsettled == if m in s.links then s.links[m].unsettled else {}
    ensures Calm(t)
  {
  }

  lemma LoopCalm(s: State, step: Step, t: State)
    requires Calm(s) && Next(s, step, t) && (step.OnLoop? || step.OnHeir? || step.Kill?)
    ensures Calm(t)
  {
    var l := step.link;
    assert t.links[l].status == s.links[l].status && t.links[l].unsettled == s.links[l].unsettled;
    assert forall m :: m in s.links && m != l ==> t.links[m] == s.links[m];
    ElsewhereCalm(s, t);
  }

  lemma ReaderStepCalm(s: State, p: Pty, k: Kernel, r: Reader, t: State)
    requires Calm(s) && p in s.inc.registry && p in s.kernel && SomeReaderMove(s.kernel[p], s.inc.registry[p], k, r)
    requires t == s.(kernel := s.kernel[p := k], inc := s.inc.(registry := s.inc.registry[p := r]))
    ensures Calm(t)
  {
    if FirstTime(t) {
      ReaderCalm(s.kernel[p], s.inc.registry[p], k, r);
    }
  }

  lemma NextCalm(s: State, step: Step, t: State)
    requires Inv(s) && Calm(s) && Next(s, step, t)
    ensures Calm(t)
  {
    if step.OnHandler? {
      HandlerCalm(s, step.link, step.handler, t);
    } else if step.OnReader? {
      ReaderStepCalm(s, step.pty, step.kernel, step.reader, t);
    } else if step.OnRegistry? {
      RegistryCalm(s, step.command, t);
    } else if step.OnLoop? || step.OnHeir? || step.Kill? {
      LoopCalm(s, step, t);
    } else {
      ElsewhereCalm(s, t);
    }
  }

  lemma {:induction false} AlwaysCalm(run: seq<State>, i: nat)
    requires Run(run) && i < |run|
    ensures Calm(run[i])
  {
    if i > 0 {
      AlwaysCalm(run, i - 1);
      RunInv(run, i - 1);
      assert StepAt(run, i);
      var step :| Next(run[i - 1], step, run[i]);
      NextCalm(run[i - 1], step, run[i]);
    }
  }

  /** A handoff that no rollback preceded finds every reader settled. */
  lemma FirstAttemptIsSettled(run: seq<State>, i: nat, l: Link)
    requires Run(run) && i < |run| && FirstTime(run[i]) && l in run[i].links
    ensures run[i].links[l].unsettled == {}
  {
    AlwaysCalm(run, i);
  }

  // ------------------------------------------------- fences, commit, rollback

  /** From the snapshot on, and at commit, every registered session is either
      transferred or counted as skipped, never both, and a settled session's snapshot
      is its mirror. */
  lemma CommitCoversRegistry(run: seq<State>, i: nat, l: Link)
    requires Run(run) && i < |run| && Standing(run[i], l)
    ensures run[i].inc.registry.Keys == run[i].links[l].offered.Keys + run[i].inc.job.skipped
    ensures run[i].links[l].offered.Keys !! run[i].inc.job.skipped
    ensures forall p :: p in run[i].links[l].offered && p !in run[i].links[l].unsettled && run[i].links[l].offered[p].Some? ==>
              run[i].links[l].offered[p].value == run[i].inc.registry[p].mirror
  {
    RunInv(run, i);
  }

  /** A handoff is under way or has committed. */
  predicate Engaged(phase: Phase) {
    Busy(phase) || HasCommitted(phase)
  }

  ghost predicate Fenced(s: State, t: State) {
    && (Engaged(s.inc.job.phase) ==> t.inc.registry.Keys == s.inc.registry.Keys)
    && (HasCommitted(s.inc.job.phase) ==> HasCommitted(t.inc.job.phase) && t.inc.job.link == s.inc.job.link)
  }

  lemma SetupKeepsKeys(inc: Incumbent, conn: Conn, l: Link, move: HandlerMove, inc': Incumbent, conn': Conn)
    requires SetupMoves(inc, conn, l, move, inc', conn')
    ensures inc'.registry.Keys == inc.registry.Keys
  {
    assert inc'.registry == inc.registry || (move.Ask? && move.pty in inc.registry && inc'.registry == Marked(inc.registry, move.pty, true));
  }

  lemma CleanupKeepsKeys(inc: Incumbent, conn: Conn, l: Link, move: HandlerMove, inc': Incumbent, conn': Conn)
    requires CleanupMoves(inc, conn, l, move, inc', conn')
    ensures inc'.registry.Keys == inc.registry.Keys
  {
    assert inc'.registry == inc.registry
           || (move.ResumeOne? && move.pty in inc.registry && inc'.registry == Marked(inc.registry, move.pty, false));
  }

  lemma HandlerKeepsKeys(inc: Incumbent, conn: Conn, l: Link, move: HandlerMove, inc': Incumbent, conn': Conn)
    requires HandlerMoves(inc, conn, l, move, inc', conn')
    ensures inc'.registry.Keys == inc.registry.Keys
  {
    if SetupMoves(inc, conn, l, move, inc', conn') {
      SetupKeepsKeys(inc, conn, l, move, inc', conn');
    } else if CollectMoves(inc, conn, l, move, inc', conn') {
      assert inc'.registry == inc.registry;
    } else if CleanupMoves(inc, conn, l, move, inc', conn') {
      CleanupKeepsKeys(inc, conn, l, move, inc', conn');
    } else {
      assert inc'.registry == inc.registry || inc'.registry == AllStopped(inc.registry);
    }
  }

  lemma HandlerKeepsCommit(inc: Incumbent, conn: Conn, l: Link, move: HandlerMove, inc': Incumbent, conn': Conn)
    requires HandlerMoves(inc, conn, l, move, inc', conn') && HasCommitted(inc.job.phase)
    ensures HasCommitted(inc'.job.phase) && inc'.job.link == inc.job.link
  {
  }

  lemma NextFenced(s: State, step: Step, t: State)
    requires Fences(s.inc.fence, s.inc.job, s.inc.registry.Keys) && Next(s, step, t)
    ensures Fenced(s, t)
  {
    if step.OnHandler? {
      HandlerKeepsKeys(s.inc, s.links[step.link], step.link, step.handler, t.inc, t.links[step.link]);
      if HasCommitted(s.inc.job.phase) {
        HandlerKeepsCommit(s.inc, s.links[step.link], step.link, step.handler, t.inc, t.links[step.link]);
      }
    } else if step.OnReader? {
      assert t.inc.registry.Keys == s.inc.registry.Keys + {step.pty};
    } else if step.OnRegistry? && step.command.Input? {
      assert t.inc.registry.Keys == s.inc.registry.Keys + {step.command.pty};
    }
  }

  lemma RunFenced(run: seq<State>, i: nat)
    requires Run(run) && i + 1 < |run|
    ensures Fenced(run[i], run[i + 1])
  {
    RunInv(run, i);
    assert StepAt(run, i + 1);
    var step :| Next(run[i], step, run[i + 1]);
    NextFenced(run[i], step, run[i + 1]);
  }

  /** While a handoff is under way, and after it commits, nothing spawns, dies or exits
      out of the registry. */
  lemma {:induction false} RegistryFenced(run: seq<State>, i: nat, j: nat)
    requires Run(run) && i <= j < |run| && forall k :: i <= k <= j ==> Engaged(run[k].inc.job.phase)
    ensures run[j].inc.registry.Keys == run[i].inc.registry.Keys
  {
    if i < j {
      RegistryFenced(run, i, j - 1);
      RunFenced(run, j - 1);
    }
  }

  lemma {:induction false} CommitStays(run: seq<State>, i: nat, j: nat)
    requires Run(run) && i <= j < |run| && HasCommitted(run[i].inc.job.phase)
    ensures HasCommitted(run[j].inc.job.phase) && run[j].inc.job.link == run[i].inc.job.link
  {
    if i < j {
      CommitStays(run, i, j - 1);
      RunFenced(run, j - 1);
    }
  }

  /** After a commit every settled reader stays quiet, for ever. */
  lemma CommitIsFinal(run: seq<State>, i: nat, j: nat, p: Pty)
    requires Run(run) && i <= j < |run| && HasCommitted(run[i].inc.job.phase) && run[i].inc.job.link in run[j].links
    requires p in run[j].inc.registry && p !in run[j].links[run[i].inc.job.link].unsettled
    ensures Quiet(run[j].inc.registry[p])
  {
    CommitStays(run, i, j);
    RunInv(run, j);
  }

  /** Whenever no handoff is under way and none has committed, so after every rollback
      whatever its exit, both seals are down, the lifecycle runs unlocked, no clone is
      open and no reader is asked to wait. */
  lemma RollbackRestores(run: seq<State>, i: nat)
    requires Run(run) && i < |run| && !Engaged(run[i].inc.job.phase)
    ensures var f := run[i].inc.fence; !f.sealed && !f.agentSealed && !f.writeLocked && f.running
    ensures run[i].inc.job.clones == {}
    ensures forall p :: p in run[i].inc.registry ==> !run[i].inc.registry[p].quiesce && !run[i].inc.registry[p].stop
  {
    RunInv(run, i);
  }

  // ----------------------------------------------------- where the system can go

  ghost predicate Reachable(s: State) {
    exists run :: Run(run) && run[|run| - 1] == s
  }

  lemma ReachableInv(s: State)
    requires Reachable(s)
    ensures Inv(s)
  {
    var run :| Run(run) && run[|run| - 1] == s;
    RunInv(run, |run| - 1);
  }

  lemma RunExtends(run: seq<State>, t: State)
    requires Run(run) && Linked(run[|run| - 1], t)
    ensures Run(run + [t])
  {
    var longer := run + [t];
    forall i | 0 < i < |longer| ensures StepAt(longer, i) {
      if i < |run| {
        assert StepAt(run, i) && longer[i] == run[i] && longer[i - 1] == run[i - 1];
      } else {
        assert longer[i - 1] == run[|run| - 1];
      }
    }
  }

  lemma Reach(s: State, step: Step, t: State)
    requires Reachable(s) && Next(s, step, t)
    ensures Reachable(t)
  {
    var run :| Run(run) && run[|run| - 1] == s;
    assert Linked(s, t);
    RunExtends(run, t);
    assert (run + [t])[|run|] == t;
  }

  /** A step, and where the system can go from there. */
  lemma StepThen(s: State, step: Step, t: State, u: State)
    requires Next(s, step, t) && Follows(Linked, t, u)
    ensures Follows(Linked, s, u)
  {
    assert Linked(s, t);
    FollowsAfter(Linked, s, t, u);
  }

  lemma LinkReach(s: State, t: State)
    requires Reachable(s) && Linked(s, t)
    ensures Reachable(t)
  {
    var step :| Next(s, step, t);
    Reach(s, step, t);
  }

  lemma FollowsReachable(s: State, t: State)
    requires Reachable(s) && Follows(Linked, s, t)
    ensures Reachable(t)
  {
    forall a, b | Reachable(a) && Linked(a, b) ensures Reachable(b) {
      LinkReach(a, b);
    }
    Lasts(Linked, Reachable, s, t);
  }

  // ------------------------------------------------------ a rollback can finish

  /** What a rollback still has to do, counted. */
  function Debt(job: Job): nat {
    if job.phase.RollingBack? then |job.asked| + |job.clones| + |job.phase.todo| else 0
  }

  lemma ResumeEnabled(inc: Incumbent, conn: Conn) returns (move: HandlerMove, inc': Incumbent)
    requires Flags(inc.job.phase, inc.job.asked, inc.registry) && inc.job.asked != {}
    requires inc.job.phase.RollingBack? && inc.job.phase.todo != [] && inc.job.phase.todo[0].ResumeReaders?
    ensures CleanupMoves(inc, conn, inc.job.link, move, inc', conn) && Debt(inc'.job) < Debt(inc.job)
    ensures inc'.job.phase == inc.job.phase && inc'.job.link == inc.job.link && inc'.alive == inc.alive
  {
    var p :| p in inc.job.asked;
    move := ResumeOne(p);
    inc' := inc.(registry := Marked(inc.registry, p, false), job := inc.job.(asked := inc.job.asked - {p}));
  }

  lemma CloseEnabled(inc: Incumbent, conn: Conn) returns (move: HandlerMove, inc': Incumbent)
    requires inc.job.clones != {}
    requires inc.job.phase.RollingBack? && inc.job.phase.todo != [] && inc.job.phase.todo[0].CloseClones?
    ensures CleanupMoves(inc, conn, inc.job.link, move, inc', conn) && Debt(inc'.job) < Debt(inc.job)
    ensures inc'.job.phase == inc.job.phase && inc'.job.link == inc.job.link && inc'.alive == inc.alive
  {
    var p :| p in inc.job.clones;
    move := CloseOne(p);
    inc' := inc.(job := inc.job.(clones := inc.job.clones - {p}));
  }

  lemma TaskEnabled(inc: Incumbent, conn: Conn) returns (inc': Incumbent, conn': Conn)
    requires inc.job.phase.RollingBack? && inc.job.phase.todo != []
    requires inc.job.phase.todo[0].ResumeReaders? ==> inc.job.asked == {}
    requires inc.job.phase.todo[0].CloseClones? ==> inc.job.clones == {}
    ensures CleanupMoves(inc, conn, inc.job.link, NextTask, inc', conn') && Debt(inc'.job) < Debt(inc.job)
    ensures inc'.job.phase.RollingBack? || (inc'.job.phase.Idle? && conn'.status.Back?)
    ensures inc'.job.link == inc.job.link && inc'.alive == inc.alive
  {
    var job, fence := inc.job, inc.fence;
    var task := job.phase.todo[0];
    if task.ReleaseLock? {
      inc' := inc.(fence := fence.(writeLocked := false), job := job.(phase := Idle));
      conn' := conn.(status := Back);
    } else {
      inc' := inc.(fence := fence.(sealed := fence.sealed && !task.Unseal?, agentSealed := fence.agentSealed && !task.DropAgentSeal?),
                   job := job.(phase := RollingBack(job.phase.exit, job.phase.todo[1..])));
      conn' := conn;
    }
  }

  lemma CleanupEnabled(inc: Incumbent, conn: Conn) returns (move: HandlerMove, inc': Incumbent, conn': Conn)
    requires Flags(inc.job.phase, inc.job.asked, inc.registry) && inc.job.phase.RollingBack? && inc.job.phase.todo != []
    ensures CleanupMoves(inc, conn, inc.job.link, move, inc', conn') && Debt(inc'.job) < Debt(inc.job)
    ensures inc'.job.phase.RollingBack? || (inc'.job.phase.Idle? && conn'.status.Back?)
    ensures inc'.job.link == inc.job.link && inc'.alive == inc.alive
  {
    conn' := conn;
    var task := inc.job.phase.todo[0];
    if task.ResumeReaders? && inc.job.asked != {} {
      move, inc' := ResumeEnabled(inc, conn);
    } else if task.CloseClones? && inc.job.clones != {} {
      move, inc' := CloseEnabled(inc, conn);
    } else {
      move := NextTask;
      inc', conn' := TaskEnabled(inc, conn);
    }
  }

  lemma ReachByHandler(s: State, move: HandlerMove, inc: Incumbent, conn: Conn) returns (t: State)
    requires Reachable(s) && s.inc.alive && s.inc.job.link in s.links
    requires CleanupMoves(s.inc, s.links[s.inc.job.link], s.inc.job.link, move, inc, conn)
    ensures Reachable(t) && t == State(s.kernel, inc, s.links[s.inc.job.link := conn])
    ensures forall u :: Follows(Linked, t, u) ==> Follows(Linked, s, u)
  {
    t := State(s.kernel, inc, s.links[s.inc.job.link := conn]);
    Reach(s, OnHandler(s.inc.job.link, move), t);
    forall u | Follows(Linked, t, u) ensures Follows(Linked, s, u) {
      StepThen(s, OnHandler(s.inc.job.link, move), t, u);
    }
  }

  /** Only the handler and its connection have moved. */
  ghost predicate HandlerAlone(s: State, t: State) {
    var l := s.inc.job.link;
    && t.kernel == s.kernel && t.inc.registry.Keys == s.inc.registry.Keys && t.inc.alive == s.inc.alive
    && t.inc.job.link == l && l in s.links && l in t.links && t.links == s.links[l := t.links[l]] && t.links[l].heir == s.links[l].heir
  }

  lemma CleanupAlone(inc: Incumbent, conn: Conn, l: Link, move: HandlerMove, inc': Incumbent, conn': Conn)
    requires CleanupMoves(inc, conn, l, move, inc', conn')
    ensures conn'.heir == conn.heir && inc'.registry.Keys == inc.registry.Keys
  {
    CleanupKeepsKeys(inc, conn, l, move, inc', conn');
  }

  /** No exit gets stuck: from every reachable moment of every one of the seven exits,
      the handler can carry its code to the end, where everything is restored. */
  lemma {:induction false} RollbackCanFinish(s: State) returns (t: State)
    requires Reachable(s) && s.inc.alive && s.inc.job.phase.RollingBack?
    ensures Reachable(t) && Follows(Linked, s, t) && HandlerAlone(s, t) && t.inc.job.phase.Idle? && t.links[s.inc.job.link].status.Back?
    decreases Debt(s.inc.job)
  {
    RollbackFacts(s);
    var l := s.inc.job.link;
    var move, inc, conn := CleanupEnabled(s.inc, s.links[l]);
    CleanupAlone(s.inc, s.links[l], l, move, inc, conn);
    var u := ReachByHandler(s, move, inc, conn);
    if inc.job.phase.RollingBack? {
      t := RollbackCanFinish(u);
      assert s.links[l := conn][l := t.links[l]] == s.links[l := t.links[l]];
    } else {
      FollowsItself(Linked, u);
      t := u;
    }
  }

  lemma RollbackFacts(s: State)
    requires Reachable(s) && s.inc.job.phase.RollingBack?
    ensures s.inc.job.link in s.links && s.inc.job.phase.todo != [] && Flags(s.inc.job.phase, s.inc.job.asked, s.inc.registry)
  {
    ReachableInv(s);
  }

  // ------------------------------------------- exactly when a snapshot can go stale

  /** The step to this moment samples the reader's mark for the connection. */
  ghost predicate SamplesAt(run: seq<State>, c: nat, l: Link, p: Pty)
    requires 0 < c < |run|
  {
    Next(run[c - 1], OnHandler(l, Sample(p)), run[c])
  }

  /** When its mark is sampled, a session is unsettled exactly if its reader still bears
      the mark of an earlier attempt, is on its way back to work, and has inputs to
      write. */
  lemma UnsettledExactly(run: seq<State>, c: nat, l: Link, p: Pty)
    requires Run(run) && 0 < c < |run| && SamplesAt(run, c, l, p)
    ensures l in run[c].links && p in run[c - 1].inc.registry
    ensures p in run[c].links[l].unsettled <==>
              run[c - 1].inc.registry[p].pc.Resuming? && run[c - 1].inc.registry[p].inputs > 0
  {
    RunInv(run, c - 1);
    UnsettledHere(run[c - 1].inc, run[c - 1].links, l, run[c].inc, run[c].links[l], p);
  }

  lemma UnsettledHere(inc: Incumbent, links: map<Link, Conn>, l: Link, inc': Incumbent, conn': Conn, p: Pty)
    requires l in links && SetupMoves(inc, links[l], l, Sample(p), inc', conn') && MarksOk(inc.registry)
    requires Frozen(inc.job, inc.registry, links)
    ensures p in conn'.unsettled <==> inc.registry[p].pc.Resuming? && inc.registry[p].inputs > 0
  {
  }

  /** Nothing changes that before the snapshot: a session collected was sampled, and is
      unsettled in the end exactly if it was then. */
  ghost predicate Settling(s: State, l: Link, p: Pty, unsettled: bool) {
    && l in s.links && !s.links[l].status.Fresh? && (p in s.links[l].unsettled <==> unsettled)
    && (s.inc.job.link == l && s.inc.job.phase.Locked? ==> p in s.inc.job.sampled)
  }

  lemma HandlerSettling(inc: Incumbent, conn: Conn, l: Link, move: HandlerMove, inc': Incumbent, conn': Conn, p: Pty)
    requires HandlerMoves(inc, conn, l, move, inc', conn') && !conn.status.Fresh?
    requires inc.job.link == l && inc.job.phase.Locked? ==> p in inc.job.sampled
    ensures (p in conn'.unsettled <==> p in conn.unsettled) && !conn'.status.Fresh?
    ensures inc'.job.link == l && inc'.job.phase.Locked? ==> p in inc'.job.sampled
  {
  }

  lemma NextSettling(s: State, step: Step, t: State, l: Link, p: Pty, unsettled: bool)
    requires Seats(s.inc.job, s.links) && Settling(s, l, p, unsettled) && Next(s, step, t)
    ensures Settling(t, l, p, unsettled)
  {
    if step.OnHandler? {
      if step.link == l {
        HandlerSettling(s.inc, s.links[l], l, step.handler, t.inc, t.links[l], p);
      } else {
        HandlerElsewhere(s.inc, s.links[step.link], step.link, step.handler, t.inc, t.links[step.link]);
      }
    }
  }

  lemma {:induction false} SettlingRun(run: seq<State>, c: nat, i: nat, l: Link, p: Pty, unsettled: bool)
    requires Run(run) && c <= i < |run| && Settling(run[c], l, p, unsettled)
    ensures Settling(run[i], l, p, unsettled)
    decreases i - c
  {
    if c < i {
      SettlingRun(run, c, i - 1, l, p, unsettled);
      RunSeats(run, i - 1);
      assert StepAt(run, i);
      var step :| Next(run[i - 1], step, run[i]);
      NextSettling(run[i - 1], step, run[i], l, p, unsettled);
    }
  }

  /** So the whole transfer is settled or not by what one load of the mark met. */
  lemma SampleDecides(run: seq<State>, c: nat, i: nat, l: Link, p: Pty)
    requires Run(run) && 0 < c <= i < |run| && SamplesAt(run, c, l, p)
    ensures l in run[i].links && p in run[c - 1].inc.registry
    ensures p in run[i].links[l].unsettled <==>
              run[c - 1].inc.registry[p].pc.Resuming? && run[c - 1].inc.registry[p].inputs > 0
  {
    UnsettledExactly(run, c, l, p);
    RunInv(run, c);
    SettlingRun(run, c, i, l, p, p in run[c].links[l].unsettled);
  }

  /** If settled: as long as its snapshot stands, the incumbent takes nothing more, and
      held nothing when it was taken. */
  lemma SettledStaysWhole(run: seq<State>, c: nat, i: nat, l: Link, p: Pty)
    requires Run(run) && 0 < c <= i < |run| && SnapsAt(run, c, l, p) && Standing(run[i], l) && p !in run[c].links[l].unsettled
    ensures p in run[c - 1].inc.registry && Held(run[c - 1].inc.registry[p]) == []
    ensures p in run[c].kernel && p in run[i].kernel && NoDaemonPast(run[i].kernel[p], |run[c].kernel[p].takers|)
  {
    CollectedAt(run, c, l, p);
    SpentRun(run, c, i, l, p);
    SettledHolds(run[c - 1], l, p, run[c]) by { RunInv(run, c - 1); }
    RunInv(run, i);
  }

  lemma SettledHolds(s: State, l: Link, p: Pty, t: State)
    requires Inv(s) && s.inc.alive && l in s.links && l in t.links && p !in t.links[l].unsettled
    requires CollectMoves(s.inc, s.links[l], l, Snap(p, false), t.inc, t.links[l])
    ensures p in s.inc.registry && Held(s.inc.registry[p]) == []
  {
  }

  lemma ReachByReader(s: State, p: Pty, move: ReaderMove, k: Kernel, r: Reader, t: State)
    requires Reachable(s) && s.inc.alive && p in s.inc.registry && p in s.kernel
    requires ReaderMoves(s.kernel[p], s.inc.registry[p], move, k, r)
    requires t == s.(kernel := s.kernel[p := k], inc := s.inc.(registry := s.inc.registry[p := r]))
    ensures Reachable(t)
  {
    Reach(s, OnReader(p, k, r), t);
  }

  lemma ReachesReading(s: State, p: Pty) returns (t: State)
    requires Reachable(s) && s.inc.alive && p in s.inc.registry && p in s.kernel
    requires s.inc.registry[p].pc.Resuming? && s.inc.registry[p].inputs > 0 && !s.inc.registry[p].stop
    ensures Reachable(t)
    ensures t == s.(inc := s.inc.(registry := s.inc.registry[p := s.inc.registry[p].(pc := Reading, marked := false)]))
  {
    var r, k := s.inc.registry[p], s.kernel[p];
    var r1, r2, r3 := r.(pc := Top, marked := false), r.(pc := Selecting, marked := false), r.(pc := Reading, marked := false);
    var s1 := s.(kernel := s.kernel[p := k], inc := s.inc.(registry := s.inc.registry[p := r1]));
    ReachByReader(s, p, MarkResumed, k, r1, s1);
    var s2 := s1.(kernel := s1.kernel[p := k], inc := s1.inc.(registry := s1.inc.registry[p := r2]));
    ReachByReader(s1, p, Pass, k, r2, s2);
    t := s2.(kernel := s2.kernel[p := k], inc := s2.inc.(registry := s2.inc.registry[p := r3]));
    ReachByReader(s2, p, ReaderMove.Ready, k, r3, t);
    assert t.kernel == s.kernel;
    assert t.inc.registry == s.inc.registry[p := r3];
  }

  /** If unsettled: the incumbent can take a byte its snapshot does not have, and the
      transfer goes on unaware. */
  lemma UnsettledCanRead(s: State, p: Pty, b: Byte) returns (t: State)
    requires Reachable(s) && s.inc.alive && p in s.inc.registry && p in s.kernel
    requires s.inc.registry[p].pc.Resuming? && s.inc.registry[p].inputs > 0 && !s.inc.registry[p].stop
    ensures Reachable(t) && t.links == s.links && t.inc.job == s.inc.job && p in t.kernel
    ensures s.kernel[p].takers < t.kernel[p].takers && t.kernel[p].takers[|s.kernel[p].takers|].Daemon?
  {
    var u := ReachesReading(s, p);
    ReachableInv(s);
    var grown := u.(kernel := u.kernel[p := u.kernel[p].(output := u.kernel[p].output + [b])]);
    Reach(u, Child(p, [b]), grown);
    var k := grown.kernel[p];
    var r := grown.inc.registry[p].(pc := Holding(Bytes(k, 1)));
    t := grown.(kernel := grown.kernel[p := Taken(k, Daemon, 1)], inc := grown.inc.(registry := grown.inc.registry[p := r]));
    ReachByReader(grown, p, Read(1), Taken(k, Daemon, 1), r, t);
  }
}
