/**
 A handoff can always still succeed: from every reachable moment before a commit, some
 continuation hands every session to a successor that has yet to connect.
 */
module HandoffProgress {
  import opened Common
  import opened Handoff
  import opened HandoffProof
  import opened HandoffResults
  import opened HandoffRivals
  import opened Paths

  /** One step further. */
  lemma Onward(s: State, step: Step, t: State)
    requires Reachable(s) && Next(s, step, t)
    ensures Reachable(t) && Follows(Linked, s, t)
  {
    Reach(s, step, t);
    assert Linked(s, t);
    FollowsStep(Linked, s, t);
  }

  lemma NoneLeft<T>(all: set<T>, done: set<T>)
    requires done <= all && all - done == {}
    ensures done == all
  {
    forall x | x in all ensures x in done {
      assert x !in all - done;
    }
  }

  // ------------------------------------------------------- readers can be parked

  /** The system with one reader elsewhere. */
  function WithReader(s: State, p: Pty, r: Reader): State {
    s.(inc := s.inc.(registry := s.inc.registry[p := r]))
  }

  lemma SameReader(s: State, p: Pty)
    requires p in s.inc.registry && Reachable(s)
    ensures WithReader(s, p, s.inc.registry[p]) == s && Follows(Linked, s, s)
  {
    assert s.inc.registry[p := s.inc.registry[p]] == s.inc.registry;
    FollowsItself(Linked, s);
  }

  lemma ByReader(s: State, p: Pty, move: ReaderMove, r: Reader) returns (t: State)
    requires Reachable(s) && s.inc.alive && p in s.inc.registry && p in s.kernel
    requires ReaderMoves(s.kernel[p], s.inc.registry[p], move, s.kernel[p], r)
    ensures t == WithReader(s, p, r) && Reachable(t) && Follows(Linked, s, t)
  {
    assert s.kernel[p := s.kernel[p]] == s.kernel;
    t := WithReader(s, p, r);
    Onward(s, OnReader(p, s.kernel[p], r), t);
  }

  /** A reader inside an iteration, or done waiting, gets back to its checks. */
  lemma ReachesTop(s: State, p: Pty) returns (r: Reader, t: State)
    requires Reachable(s) && s.inc.alive && p in s.inc.registry && p in s.kernel && !s.inc.registry[p].stop
    requires var pc := s.inc.registry[p].pc; !pc.Parked? && !pc.Leaving? && !pc.Stopped?
    ensures Reachable(t) && Follows(Linked, s, t) && t == WithReader(s, p, r)
    ensures r.pc.Top? && !r.stop && r.quiesce == s.inc.registry[p].quiesce
  {
    r := s.inc.registry[p];
    match r.pc
    case Holding(chunk) =>
      r := r.(mirror := r.mirror + chunk, pc := Top);
      t := ByReader(s, p, Mirror(0), r);
    case Resuming =>
      r := r.(pc := Top, marked := false);
      t := ByReader(s, p, MarkResumed, r);
    case Top =>
      SameReader(s, p);
      t := s;
    case _ =>
      r := r.(pc := Top);
      t := ByReader(s, p, Turn, r);
  }

  lemma CanPark(s: State, p: Pty) returns (r: Reader, t: State)
    requires Reachable(s) && s.inc.alive && p in s.inc.registry && p in s.kernel
    requires s.inc.registry[p].quiesce && !s.inc.registry[p].stop
    requires var pc := s.inc.registry[p].pc; !pc.Parked? && !pc.Leaving? && !pc.Stopped?
    ensures Reachable(t) && Follows(Linked, s, t) && t == WithReader(s, p, r) && LooksQuiet(r) && Quiet(r)
  {
    var top, u := ReachesTop(s, p);
    r := top.(pc := Parked, marked := true);
    t := ByReader(u, p, Park, r);
    FollowsTwice(Linked, s, u, t);
    assert s.inc.registry[p := top][p := r] == s.inc.registry[p := r];
  }

  /** Whatever it is doing, a reader that is asked to can come to rest. */
  lemma CanBeQuiet(s: State, p: Pty) returns (r: Reader, t: State)
    requires Reachable(s) && s.inc.alive && p in s.inc.registry && p in s.kernel
    requires s.inc.registry[p].quiesce && !s.inc.registry[p].stop
    ensures Reachable(t) && Follows(Linked, s, t) && t == WithReader(s, p, r) && LooksQuiet(r) && Quiet(r)
  {
    MarkMeans(s, p);
    r := s.inc.registry[p];
    if r.pc.Parked? || r.pc.Stopped? {
      SameReader(s, p);
      t := s;
    } else if r.pc.Leaving? {
      r := r.(pc := Stopped, marked := false);
      t := ByReader(s, p, Stop, r);
    } else {
      r, t := CanPark(s, p);
    }
  }

  lemma MarkMeans(s: State, p: Pty)
    requires Reachable(s) && p in s.inc.registry
    ensures s.inc.registry[p].marked <==> s.inc.registry[p].pc.Parked? || s.inc.registry[p].pc.Resuming?
  {
    ReachableInv(s);
  }

  // -------------------------------------------------- the handler can go through

  /** What the handler has still to send. */
  function Unsent(phase: Phase, offered: Infos): seq<ToSuccessor> {
    if phase.FdsSent? then []
    else if phase.ReadySent? then FdMessage(offered)
    else [ToSuccessor.Ready(offered)] + FdMessage(offered)
  }

  ghost predicate AllSnapped(offered: Infos) {
    forall p :: p in offered ==> offered[p].Some?
  }

  /** A connection before and after: more collected for it, some of it sent, and the
      successor has done nothing. */
  ghost predicate Served(conn: Conn, phase: Phase, conn': Conn) {
    && conn'.status == conn.status && conn'.heir == conn.heir
    && conn'.wire == conn.wire.(inbox := conn.wire.inbox + Unsent(phase, conn'.offered))
    && (AllSnapped(conn.offered) ==> AllSnapped(conn'.offered)) && (conn.unsettled == {} ==> conn'.unsettled == {})
    && (SnapshotTaken(phase) ==> conn'.offered == conn.offered)
  }

  /** The transfer has gone all the way to the wait for an acknowledgement, on the
      incumbent's side only. */
  ghost predicate Through(s: State, t: State) {
    var l := s.inc.job.link;
    && Reachable(t) && Follows(Linked, s, t) && t.inc.alive && t.inc.job.phase.FdsSent? && t.inc.job.link == l
    && l in s.links && l in t.links && t.links == s.links[l := t.links[l]] && t.kernel == s.kernel
    && t.inc.registry.Keys == s.inc.registry.Keys && t.inc.job.skipped == s.inc.job.skipped
    && Served(s.links[l], s.inc.job.phase, t.links[l])
  }

  ghost predicate GoesThrough(s: State) {
    exists t :: Through(s, t)
  }

  /** What a step may change on the way. */
  ghost predicate Towards(s: State, u: State) {
    var l := s.inc.job.link;
    && Follows(Linked, s, u) && u.inc.job.link == l && l in s.links && l in u.links && u.links == s.links[l := u.links[l]]
    && u.kernel == s.kernel && u.inc.registry.Keys == s.inc.registry.Keys && u.inc.job.skipped == s.inc.job.skipped
    && u.links[l].status == s.links[l].status && u.links[l].heir == s.links[l].heir
    && (AllSnapped(s.links[l].offered) ==> AllSnapped(u.links[l].offered))
    && (s.links[l].unsettled == {} ==> u.links[l].unsettled == {}) && u.links[l].wire == s.links[l].wire
  }

  lemma ThroughAfter(s: State, u: State)
    requires Towards(s, u) && GoesThrough(u)
    requires !SnapshotTaken(s.inc.job.phase) && Preparing(s.inc.job.phase) && Preparing(u.inc.job.phase)
    ensures GoesThrough(s)
  {
    var t :| Through(u, t);
    FollowsTwice(Linked, s, u, t);
    var l := s.inc.job.link;
    assert s.links[l := u.links[l]][l := t.links[l]] == s.links[l := t.links[l]];
    assert Through(s, t);
  }

  lemma ByHandler(s: State, move: HandlerMove, inc: Incumbent, conn: Conn) returns (t: State)
    requires Reachable(s) && s.inc.alive && s.inc.job.link in s.links
    requires HandlerMoves(s.inc, s.links[s.inc.job.link], s.inc.job.link, move, inc, conn)
    ensures t == State(s.kernel, inc, s.links[s.inc.job.link := conn]) && Reachable(t) && Follows(Linked, s, t)
  {
    t := State(s.kernel, inc, s.links[s.inc.job.link := conn]);
    Onward(s, OnHandler(s.inc.job.link, move), t);
  }

  lemma LinkKnown(s: State)
    requires Reachable(s) && !s.inc.job.phase.Idle?
    ensures s.inc.job.link in s.links
  {
    ReachableInv(s);
  }

  lemma FromFdsSent(s: State)
    requires Reachable(s) && s.inc.alive && s.inc.job.phase.FdsSent?
    ensures Through(s, s)
  {
    LinkKnown(s);
    FollowsItself(Linked, s);
    var conn := s.links[s.inc.job.link];
    assert s.links[s.inc.job.link := conn] == s.links;
    assert conn.wire.inbox + [] == conn.wire.inbox;
  }

  lemma FromReadySent(s: State) returns (t: State)
    requires Reachable(s) && s.inc.alive && s.inc.job.phase.ReadySent?
    ensures Through(s, t)
  {
    LinkKnown(s);
    var conn := s.links[s.inc.job.link];
    var conn' := conn.(wire := conn.wire.(inbox := conn.wire.inbox + FdMessage(conn.offered)));
    t := ByHandler(s, SendFds, s.inc.(job := s.inc.job.(phase := FdsSent)), conn');
  }

  lemma FromCollected(s: State) returns (t: State)
    requires Reachable(s) && s.inc.alive && s.inc.job.phase.Collected?
    ensures Through(s, t)
  {
    LinkKnown(s);
    var conn := s.links[s.inc.job.link];
    var ready := [ToSuccessor.Ready(conn.offered)];
    var conn' := conn.(wire := conn.wire.(inbox := conn.wire.inbox + ready));
    var u := ByHandler(s, SendReady, s.inc.(job := s.inc.job.(phase := ReadySent)), conn');
    t := FromReadySent(u);
    Assoc(conn.wire.inbox, ready, FdMessage(conn.offered));
    FollowsTwice(Linked, s, u, t);
    assert s.links[s.inc.job.link := conn'][s.inc.job.link := t.links[s.inc.job.link]] == s.links[s.inc.job.link := t.links[s.inc.job.link]];
  }

  lemma CollectedFacts(s: State)
    requires Reachable(s) && s.inc.job.phase.Collecting?
    ensures s.inc.job.link in s.links && s.links[s.inc.job.link].offered.Keys + s.inc.job.skipped <= s.inc.registry.Keys
    ensures s.links[s.inc.job.link].offered.Keys !! s.inc.job.skipped
  {
    ReachableInv(s);
  }

  /** The sessions neither collected nor skipped. */
  function Uncollected(s: State): set<Pty> {
    s.inc.registry.Keys - ((if s.inc.job.link in s.links then s.links[s.inc.job.link].offered.Keys else {}) + s.inc.job.skipped)
  }

  lemma SnapMove(s: State, p: Pty) returns (u: State)
    requires Reachable(s) && s.inc.alive && s.inc.job.phase.Collecting? && s.inc.job.link in s.links
    requires p in s.inc.registry && p !in s.links[s.inc.job.link].offered && p !in s.inc.job.skipped
    ensures Reachable(u) && Follows(Linked, s, u) && u.kernel == s.kernel
    ensures u.inc == s.inc.(job := s.inc.job.(clones := s.inc.job.clones + {p}))
    ensures var conn := s.links[s.inc.job.link];
            u.links == s.links[s.inc.job.link := conn.(offered := conn.offered[p := Some(s.inc.registry[p].mirror)])]
  {
    var conn := s.links[s.inc.job.link];
    var conn' := conn.(offered := conn.offered[p := Some(s.inc.registry[p].mirror)]);
    u := ByHandler(s, Snap(p, false), s.inc.(job := s.inc.job.(clones := s.inc.job.clones + {p})), conn');
  }

  lemma OneFewer(all: set<Pty>, done: set<Pty>, skipped: set<Pty>, p: Pty)
    ensures all - ((done + {p}) + skipped) == all - (done + skipped) - {p}
  {
  }

  lemma SnapOneFewer(s: State, u: State, p: Pty)
    requires s.inc.job.link in s.links && s.inc.job.link in u.links && u.inc.job.link == s.inc.job.link
    requires u.inc.registry == s.inc.registry && u.inc.job.skipped == s.inc.job.skipped
    requires u.links[s.inc.job.link].offered.Keys == s.links[s.inc.job.link].offered.Keys + {p}
    ensures Uncollected(u) == Uncollected(s) - {p}
  {
    OneFewer(s.inc.registry.Keys, s.links[s.inc.job.link].offered.Keys, s.inc.job.skipped, p);
  }

  lemma SnapTowards(s: State, p: Pty) returns (u: State)
    requires Reachable(s) && s.inc.alive && s.inc.job.phase.Collecting? && s.inc.job.link in s.links
    requires p in s.inc.registry && p !in s.links[s.inc.job.link].offered && p !in s.inc.job.skipped
    ensures Reachable(u) && (GoesThrough(u) ==> GoesThrough(s)) && u.inc == s.inc.(job := s.inc.job.(clones := s.inc.job.clones + {p}))
    ensures s.inc.job.link in u.links && u.links[s.inc.job.link].offered.Keys == s.links[s.inc.job.link].offered.Keys + {p}
  {
    u := SnapMove(s, p);
    if GoesThrough(u) {
      ThroughAfter(s, u);
    }
  }

  lemma StepSnap(s: State, p: Pty) returns (u: State)
    requires Reachable(s) && s.inc.alive && s.inc.job.phase.Collecting? && p in Uncollected(s)
    ensures Reachable(u) && (GoesThrough(u) ==> GoesThrough(s)) && u.inc.alive && u.inc.job.phase.Collecting?
    ensures Uncollected(u) == Uncollected(s) - {p}
  {
    CollectedFacts(s);
    u := SnapTowards(s, p);
    SnapOneFewer(s, u, p);
  }

  lemma StepSeal(s: State) returns (u: State)
    requires Reachable(s) && s.inc.alive && s.inc.job.phase.Collecting? && Uncollected(s) == {}
    ensures Reachable(u) && (GoesThrough(u) ==> GoesThrough(s)) && u.inc.alive && u.inc.job.phase.Collected?
  {
    CollectedFacts(s);
    var conn := s.links[s.inc.job.link];
    NoneLeft(s.inc.registry.Keys, conn.offered.Keys + s.inc.job.skipped);
    u := ByHandler(s, SealAgents, s.inc.(fence := s.inc.fence.(agentSealed := true), job := s.inc.job.(phase := Collected)), conn);
    if GoesThrough(u) {
      ThroughAfter(s, u);
    }
  }

  lemma CollectedOnward(s: State)
    requires Reachable(s) && s.inc.alive && s.inc.job.phase.Collected?
    ensures GoesThrough(s)
  {
    var t := FromCollected(s);
  }

  lemma {:induction false} FromCollecting(s: State, left: set<Pty>)
    requires Reachable(s) && s.inc.alive && s.inc.job.phase.Collecting? && Uncollected(s) == left
    ensures GoesThrough(s)
    decreases left
  {
    if left == {} {
      var u := StepSeal(s);
      CollectedOnward(u);
    } else {
      var p :| p in left;
      var u := StepSnap(s, p);
      FromCollecting(u, left - {p});
    }
  }

  lemma LockedFacts(s: State)
    requires Reachable(s) && s.inc.job.phase.Locked?
    ensures s.inc.job.link in s.links && s.inc.job.sampled <= s.inc.registry.Keys && s.inc.job.asked <= s.inc.registry.Keys
    ensures s.inc.registry.Keys <= s.kernel.Keys
    ensures forall p :: p in s.inc.registry ==> !s.inc.registry[p].stop && (s.inc.registry[p].quiesce <==> p in s.inc.job.asked)
  {
    ReachableInv(s);
  }

  lemma StepCollect(s: State) returns (u: State)
    requires Reachable(s) && s.inc.alive && s.inc.job.phase.Locked? && s.inc.job.asked == s.inc.registry.Keys == s.inc.job.sampled
    ensures Reachable(u) && (GoesThrough(u) ==> GoesThrough(s)) && u.inc.alive && u.inc.job.phase.Collecting?
  {
    LockedFacts(s);
    u := ByHandler(s, BeginCollect, s.inc.(job := s.inc.job.(phase := Collecting)), s.links[s.inc.job.link]);
    if GoesThrough(u) {
      ThroughAfter(s, u);
    }
  }

  lemma StepSample(s: State, p: Pty) returns (u: State)
    requires Reachable(s) && s.inc.alive && s.inc.job.phase.Locked? && s.inc.job.asked == s.inc.registry.Keys
    requires p in s.inc.registry && p !in s.inc.job.sampled
    ensures Reachable(u) && (GoesThrough(u) ==> GoesThrough(s)) && u.inc.alive && u.inc.job == s.inc.job.(sampled := s.inc.job.sampled + {p})
    ensures u.inc.registry.Keys == s.inc.registry.Keys
  {
    LockedFacts(s);
    var r, quiet := CanBeQuiet(s, p);
    assert quiet.inc.registry.Keys == s.inc.registry.Keys;
    var conn := s.links[s.inc.job.link];
    u := ByHandler(quiet, Sample(p), quiet.inc.(job := s.inc.job.(sampled := s.inc.job.sampled + {p})), conn);
    FollowsTwice(Linked, s, quiet, u);
    if GoesThrough(u) {
      ThroughAfter(s, u);
    }
  }

  /** Every mark can be found set, and every reader at rest. */
  lemma {:induction false} FromAsked(s: State, left: set<Pty>)
    requires Reachable(s) && s.inc.alive && s.inc.job.phase.Locked? && s.inc.job.asked == s.inc.registry.Keys
    requires left == s.inc.registry.Keys - s.inc.job.sampled
    ensures GoesThrough(s)
    decreases left
  {
    LockedFacts(s);
    if left == {} {
      NoneLeft(s.inc.registry.Keys, s.inc.job.sampled);
      var u := StepCollect(s);
      FromCollecting(u, Uncollected(u));
    } else {
      var p :| p in left;
      var u := StepSample(s, p);
      FromAsked(u, left - {p});
    }
  }

  lemma StepAsk(s: State, p: Pty) returns (u: State)
    requires Reachable(s) && s.inc.alive && s.inc.job.phase.Locked? && p in s.inc.registry && p !in s.inc.job.asked
    ensures Reachable(u) && (GoesThrough(u) ==> GoesThrough(s)) && u.inc.alive && u.inc.job == s.inc.job.(asked := s.inc.job.asked + {p})
    ensures u.inc.registry.Keys == s.inc.registry.Keys
  {
    LockedFacts(s);
    var registry := Marked(s.inc.registry, p, true);
    assert registry.Keys == s.inc.registry.Keys;
    u := ByHandler(s, Ask(p), s.inc.(registry := registry, job := s.inc.job.(asked := s.inc.job.asked + {p})), s.links[s.inc.job.link]);
    if GoesThrough(u) {
      ThroughAfter(s, u);
    }
  }

  lemma {:induction false} FromLocked(s: State, left: set<Pty>)
    requires Reachable(s) && s.inc.alive && s.inc.job.phase.Locked? && left == s.inc.registry.Keys - s.inc.job.asked
    ensures GoesThrough(s)
    decreases left
  {
    LockedFacts(s);
    if left == {} {
      NoneLeft(s.inc.registry.Keys, s.inc.job.asked);
      FromAsked(s, s.inc.registry.Keys - s.inc.job.sampled);
    } else {
      var p :| p in left;
      var u := StepAsk(s, p);
      FromLocked(u, left - {p});
    }
  }

  /** From every moment of a transfer the incumbent can take it, by itself, to the point
      at which it waits for the acknowledgement. */
  lemma TransferGoesThrough(s: State) returns (t: State)
    requires Reachable(s) && s.inc.alive && Transferring(s.inc.job.phase)
    ensures Through(s, t)
  {
    match s.inc.job.phase {
      case Locked => FromLocked(s, s.inc.registry.Keys - s.inc.job.asked);
      case Collecting => FromCollecting(s, Uncollected(s));
      case Collected => t := FromCollected(s);
      case ReadySent => t := FromReadySent(s);
      case FdsSent => FromFdsSent(s);
    }
    assert GoesThrough(s);
    t :| Through(s, t);
  }

  // ------------------------------------------------------- the commit can follow

  /** An acknowledgement is on the wire, or the successor has, or still has in its inbox,
      what it takes to send one. */
  ghost predicate MayAck(conn: Conn) {
    || conn.wire.outbox != []
    || match conn.heir.stage
       case AwaitReady =>
         && conn.wire.inbox != [] && conn.wire.inbox[0].Ready?
         && FdMessage(conn.wire.inbox[0].infos) <= conn.wire.inbox[1..]
       case AwaitFds => conn.wire.inbox != [] && conn.wire.inbox[0] == Fds(|conn.heir.received|)
       case GotFds => true
       case _ => false
  }

  /** The same connection but for the successor's own moves. */
  ghost predicate HeirMoved(s: State, t: State, l: Link) {
    && l in s.links && l in t.links && t == s.(links := s.links[l := t.links[l]])
    && t.links[l].status == s.links[l].status && t.links[l].offered == s.links[l].offered && t.links[l].unsettled == s.links[l].unsettled
  }

  lemma ByHeir(s: State, l: Link, move: HeirMove, conn: Conn) returns (t: State)
    requires Reachable(s) && l in s.links && !move.AdoptedRead? && HeirMoves(s.inc.alive, s.kernel, s.links[l], move, conn)
    ensures t == s.(links := s.links[l := conn]) && Reachable(t) && Follows(Linked, s, t)
  {
    t := s.(links := s.links[l := conn]);
    Onward(s, OnHeir(l, move), t);
  }

  lemma AckFromGotFds(s: State, l: Link) returns (t: State)
    requires Reachable(s) && l in s.links && s.links[l].heir.stage.GotFds?
    ensures Reachable(t) && Follows(Linked, s, t) && HeirMoved(s, t, l) && t.links[l].wire.outbox != [] && t.links[l].heir.stage.AckSent?
  {
    var conn := s.links[l];
    t := ByHeir(s, l, Acknowledge, conn.(wire := conn.wire.(outbox := conn.wire.outbox + [VERSION]), heir := conn.heir.(stage := AckSent)));
  }

  lemma AckFromAwaitFds(s: State, l: Link) returns (t: State)
    requires Reachable(s) && l in s.links && s.links[l].heir.stage.AwaitFds?
    requires s.links[l].wire.inbox != [] && s.links[l].wire.inbox[0] == Fds(|s.links[l].heir.received|)
    ensures Reachable(t) && Follows(Linked, s, t) && HeirMoved(s, t, l) && t.links[l].wire.outbox != [] && t.links[l].heir.stage.AckSent?
  {
    var conn := s.links[l];
    var u := ByHeir(s, l, ReceiveFds, conn.(wire := conn.wire.(inbox := conn.wire.inbox[1..]), heir := conn.heir.(stage := GotFds)));
    t := AckFromGotFds(u, l);
    FollowsTwice(Linked, s, u, t);
    assert s.links[l := u.links[l]][l := t.links[l]] == s.links[l := t.links[l]];
  }

  /** A successor told of no session acknowledges at once; any other has its descriptors
      to receive first. */
  lemma AckFromAwaitReady(s: State, l: Link) returns (t: State)
    requires Reachable(s) && l in s.links && s.links[l].heir.stage.AwaitReady?
    requires s.links[l].wire.inbox != [] && s.links[l].wire.inbox[0].Ready?
    requires FdMessage(s.links[l].wire.inbox[0].infos) <= s.links[l].wire.inbox[1..]
    ensures Reachable(t) && Follows(Linked, s, t) && HeirMoved(s, t, l) && t.links[l].wire.outbox != [] && t.links[l].heir.stage.AckSent?
  {
    var conn := s.links[l];
    var infos := conn.wire.inbox[0].infos;
    var stage := if |infos| == 0 then GotFds else AwaitFds;
    var u := ByHeir(s, l, ReceiveReady, conn.(wire := conn.wire.(inbox := conn.wire.inbox[1..]), heir := conn.heir.(received := infos, stage := stage)));
    if |infos| == 0 {
      t := AckFromGotFds(u, l);
    } else {
      assert conn.wire.inbox[1..][0] == Fds(|infos|);
      t := AckFromAwaitFds(u, l);
    }
    FollowsTwice(Linked, s, u, t);
    assert s.links[l := u.links[l]][l := t.links[l]] == s.links[l := t.links[l]];
  }

  lemma CanAcknowledge(s: State, l: Link) returns (t: State)
    requires Reachable(s) && l in s.links && MayAck(s.links[l])
    ensures Reachable(t) && Follows(Linked, s, t) && HeirMoved(s, t, l) && t.links[l].wire.outbox != []
    ensures s.links[l].wire.outbox == [] ==> t.links[l].heir.stage.AckSent?
    ensures s.links[l].wire.outbox != [] ==> t == s
  {
    if s.links[l].wire.outbox != [] {
      FollowsItself(Linked, s);
      assert s.links[l := s.links[l]] == s.links;
      t := s;
    } else {
      match s.links[l].heir.stage
      case AwaitReady => t := AckFromAwaitReady(s, l);
      case AwaitFds => t := AckFromAwaitFds(s, l);
      case GotFds => t := AckFromGotFds(s, l);
    }
  }

  // ------------------------------------------------------------ ... and adoption

  /** The successor has adopted all it was offered and reads it; the incumbent committed
      to it and is dead. */
  ghost predicate Completed(t: State, l: Link, offered: Infos, unsettled: set<Pty>) {
    && Reachable(t) && HasCommitted(t.inc.job.phase) && t.inc.job.link == l && l in t.links && t.links[l].heir.stage.Streaming?
    && t.links[l].heir.received == t.links[l].offered == offered && t.links[l].heir.adopted.Keys == offered.Keys
    && t.links[l].unsettled == unsettled
  }

  /** ... and nothing happened to anyone else. */
  ghost predicate Completes(s: State, l: Link, offered: Infos, unsettled: set<Pty>) {
    exists t :: Follows(Linked, s, t) && Completed(t, l, offered, unsettled) && OthersAlone(s, t, l)
  }

  ghost predicate OthersAlone(s: State, t: State, l: Link) {
    t.kernel == s.kernel && t.links.Keys == s.links.Keys && forall m :: m in s.links && m != l ==> t.links[m] == s.links[m]
  }

  /** A step on the way that leaves the others alone. */
  lemma CompletesAfter(s: State, u: State, l: Link, offered: Infos, unsettled: set<Pty>)
    requires Follows(Linked, s, u) && Completes(u, l, offered, unsettled) && OthersAlone(s, u, l)
    ensures Completes(s, l, offered, unsettled)
  {
    var t :| Follows(Linked, u, t) && Completed(t, l, offered, unsettled) && OthersAlone(u, t, l);
    FollowsTwice(Linked, s, u, t);
  }

  /** The incumbent has committed to a successor that waits or has adopted. */
  ghost predicate CommittedTo(s: State, l: Link, offered: Infos, unsettled: set<Pty>) {
    && Reachable(s) && HasCommitted(s.inc.job.phase) && s.inc.job.link == l && l in s.links
    && s.links[l].offered == offered && s.links[l].unsettled == unsettled
    && (Waiting(s.links[l].heir.stage) || s.links[l].heir.stage.Adopted?)
  }

  lemma HeirFacts(s: State, l: Link)
    requires Reachable(s) && l in s.links && (Waiting(s.links[l].heir.stage) || HasAdopted(s.links[l].heir.stage))
    ensures s.links[l].heir.received == s.links[l].offered && s.links[l].offered.Keys <= s.kernel.Keys
    ensures HasAdopted(s.links[l].heir.stage) ==> s.links[l].heir.adopted.Keys == s.links[l].heir.received.Keys
  {
    ReachableInv(s);
    assert OfferOk(s.kernel, l, s.links[l].offered);
  }

  lemma FromAdopted(s: State, l: Link, offered: Infos, unsettled: set<Pty>)
    requires CommittedTo(s, l, offered, unsettled) && s.links[l].heir.stage.Adopted? && !s.inc.alive
    ensures Completes(s, l, offered, unsettled)
  {
    HeirFacts(s, l);
    var conn := s.links[l];
    var t := ByHeir(s, l, StartReaders, conn.(heir := conn.heir.(stage := Streaming)));
  }

  lemma FromEof(s: State, l: Link, offered: Infos, unsettled: set<Pty>)
    requires CommittedTo(s, l, offered, unsettled) && !s.inc.alive && Waiting(s.links[l].heir.stage) && s.links[l].wire.inbox == []
    ensures Completes(s, l, offered, unsettled)
  {
    HeirFacts(s, l);
    var conn := s.links[l];
    var adopted: map<Pty, seq<Byte>> := map p | p in conn.heir.received && p in s.kernel :: [];
    var u := ByHeir(s, l, SeeEof, conn.(wire := conn.wire.(left := true), heir := Heir(Adopted, conn.heir.received, adopted)));
    FromAdopted(u, l, offered, unsettled);
    CompletesAfter(s, u, l, offered, unsettled);
  }

  lemma StepIgnore(s: State, l: Link, offered: Infos, unsettled: set<Pty>) returns (u: State)
    requires CommittedTo(s, l, offered, unsettled) && Waiting(s.links[l].heir.stage) && s.links[l].wire.inbox != []
    ensures CommittedTo(u, l, offered, unsettled) && u.inc == s.inc && Follows(Linked, s, u) && OthersAlone(s, u, l)
    ensures |u.links[l].wire.inbox| < |s.links[l].wire.inbox|
  {
    var conn := s.links[l];
    u := ByHeir(s, l, Ignore, conn.(wire := conn.wire.(inbox := conn.wire.inbox[1..])));
  }

  /** With the incumbent dead the successor gets to the end of its inbox, to end of file
      and to its readers. */
  lemma {:induction false} FromDead(s: State, l: Link, offered: Infos, unsettled: set<Pty>)
    requires CommittedTo(s, l, offered, unsettled) && !s.inc.alive
    ensures Completes(s, l, offered, unsettled)
    decreases |s.links[l].wire.inbox|
  {
    if s.links[l].heir.stage.Adopted? {
      FromAdopted(s, l, offered, unsettled);
    } else if s.links[l].wire.inbox == [] {
      FromEof(s, l, offered, unsettled);
    } else {
      var u := StepIgnore(s, l, offered, unsettled);
      FromDead(u, l, offered, unsettled);
      CompletesAfter(s, u, l, offered, unsettled);
    }
  }

  lemma FromCommitted(s: State, l: Link, offered: Infos, unsettled: set<Pty>)
    requires CommittedTo(s, l, offered, unsettled)
    ensures Completes(s, l, offered, unsettled)
  {
    if s.inc.alive {
      var u := s.(inc := s.inc.(alive := false));
      Onward(s, Die, u);
      FromDead(u, l, offered, unsettled);
      CompletesAfter(s, u, l, offered, unsettled);
    } else {
      FromDead(s, l, offered, unsettled);
    }
  }

  lemma AckFacts(s: State)
    requires Reachable(s) && s.inc.alive && s.inc.job.phase.FdsSent?
    ensures s.inc.job.link in s.links
    ensures forall i :: 0 <= i < |s.links[s.inc.job.link].wire.outbox| ==> s.links[s.inc.job.link].wire.outbox[i] == VERSION
    ensures var conn := s.links[s.inc.job.link];
            conn.wire.outbox != [] ==> !conn.heir.stage.AwaitReady? && !conn.heir.stage.AwaitFds? && !conn.heir.stage.GotFds?
    ensures !HasAdopted(s.links[s.inc.job.link].heir.stage)
  {
    ReachableInv(s);
  }

  lemma StepCommit(s: State) returns (u: State)
    requires Reachable(s) && s.inc.alive && s.inc.job.phase.FdsSent?
    requires s.inc.job.link in s.links && s.links[s.inc.job.link].wire.outbox != []
    ensures Reachable(u) && Follows(Linked, s, u) && OthersAlone(s, u, s.inc.job.link) && u.inc.job == s.inc.job.(phase := Committed)
    ensures var l := s.inc.job.link;
            l in u.links && u.links[l].heir == s.links[l].heir && u.links[l].offered == s.links[l].offered && u.links[l].unsettled == s.links[l].unsettled
  {
    AckFacts(s);
    var conn := s.links[s.inc.job.link];
    u := ByHandler(s, ReadAck, s.inc.(fence := s.inc.fence.(running := false, writeLocked := false), job := s.inc.job.(phase := Committed)),
                   conn.(status := Kept, wire := conn.wire.(outbox := conn.wire.outbox[1..])));
  }

  /** From every moment at which the incumbent waits for an acknowledgement, if one can
      still come from a successor that is there, some continuation commits to it, and the
      successor adopts and reads exactly what it was offered, be it nothing. */
  lemma TransferCanComplete(s: State)
    requires Reachable(s) && s.inc.alive && s.inc.job.phase.FdsSent?
    requires s.inc.job.link in s.links && MayAck(s.links[s.inc.job.link]) && !s.links[s.inc.job.link].heir.stage.Gone?
    ensures var l := s.inc.job.link; Completes(s, l, s.links[l].offered, s.links[l].unsettled)
  {
    var l := s.inc.job.link;
    AckFacts(s);
    var u := CanAcknowledge(s, l);
    var v := StepCommit(u);
    FollowsTwice(Linked, s, u, v);
    FromCommitted(v, l, s.links[l].offered, s.links[l].unsettled);
    CompletesAfter(s, v, l, s.links[l].offered, s.links[l].unsettled);
  }

  // --------------------------------------------- from any moment before a commit

  /** Every attempt under way can be given up and undone. */
  lemma CanBeIdle(s: State) returns (t: State)
    requires Reachable(s) && s.inc.alive && !HasCommitted(s.inc.job.phase)
    ensures Reachable(t) && Follows(Linked, s, t) && t.inc.alive && t.inc.job.phase.Idle?
    ensures t.inc.registry.Keys == s.inc.registry.Keys && t.links.Keys == s.links.Keys && t.kernel == s.kernel
  {
    if s.inc.job.phase.Idle? {
      FollowsItself(Linked, s);
      t := s;
    } else if s.inc.job.phase.RollingBack? {
      t := RollbackCanFinish(s);
    } else {
      t := CanGiveUp(s);
    }
  }

  lemma CanGiveUp(s: State) returns (t: State)
    requires Reachable(s) && s.inc.alive && Transferring(s.inc.job.phase)
    ensures Reachable(t) && Follows(Linked, s, t) && t.inc.alive && t.inc.job.phase.Idle?
    ensures t.inc.registry.Keys == s.inc.registry.Keys && t.links.Keys == s.links.Keys && t.kernel == s.kernel
  {
    var u := TransferGoesThrough(s);
    var v := StepTimeout(u);
    t := RollbackCanFinish(v);
    FollowsTwice(Linked, s, u, v);
    FollowsTwice(Linked, s, v, t);
  }

  lemma StepTimeout(s: State) returns (u: State)
    requires Reachable(s) && s.inc.alive && s.inc.job.phase.FdsSent? && s.inc.job.link in s.links
    ensures Reachable(u) && Follows(Linked, s, u) && u.inc.alive && u.inc.job.phase.RollingBack?
    ensures u.inc.registry == s.inc.registry && u.links.Keys == s.links.Keys && u.kernel == s.kernel
  {
    var conn := s.links[s.inc.job.link];
    assert conn.wire.inbox + [] == conn.wire.inbox;
    u := ByHandler(s, Fail(AckTimeout, false), s.inc.(job := s.inc.job.(phase := RollingBack(AckTimeout, Cleanup(AckTimeout)))), conn);
  }

  /** Commands that hold the lifecycle lock for reading let it go. */
  lemma {:induction false} CanBeUnguarded(s: State, guards: nat) returns (t: State)
    requires Reachable(s) && s.inc.alive && s.inc.fence.guards == guards
    ensures Reachable(t) && Follows(Linked, s, t) && t == s.(inc := s.inc.(fence := s.inc.fence.(guards := 0)))
    decreases guards
  {
    if guards == 0 {
      FollowsItself(Linked, s);
      t := s;
    } else {
      var u := s.(inc := s.inc.(fence := s.inc.fence.(guards := guards - 1)));
      Onward(s, OnRegistry(DropGuard), u);
      t := CanBeUnguarded(u, guards - 1);
      FollowsTwice(Linked, s, u, t);
    }
  }

  /** A new successor connects and is served. */
  lemma CanBegin(s: State, l: Link) returns (t: State)
    requires Reachable(s) && s.inc.alive && s.inc.job.phase.Idle? && s.inc.fence.guards == 0 && l !in s.links
    ensures Reachable(t) && Follows(Linked, s, t) && t.inc.alive && t.inc.job == Job(Locked, l, {}, {}, {}, {})
    ensures t.kernel == s.kernel && t.inc.registry == s.inc.registry && t.links == s.links[l := NEW_CONN.(status := Serving)]
  {
    IdleFacts(s);
    var u := s.(links := s.links[l := NEW_CONN]);
    Onward(s, Connect(l), u);
    t := State(s.kernel, s.inc.(fence := s.inc.fence.(writeLocked := true, sealed := true), job := Job(Locked, l, {}, {}, {}, {})),
               s.links[l := NEW_CONN.(status := Serving)]);
    assert u.links[l := NEW_CONN.(status := Serving)] == t.links;
    Onward(u, OnHandler(l, Lock), t);
    FollowsTwice(Linked, s, u, t);
  }

  lemma IdleFacts(s: State)
    requires Reachable(s) && s.inc.job.phase.Idle?
    ensures s.inc.fence.running && !s.inc.fence.writeLocked
  {
    ReachableInv(s);
  }

  /** ... which has its part of the transfer in its inbox when the incumbent has done
      its own. */
  lemma Offered(s: State, l: Link) returns (u: State, offered: Infos)
    requires Reachable(s) && s.inc.alive && s.inc.job == Job(Locked, l, {}, {}, {}, {})
    requires l in s.links && s.links[l] == NEW_CONN.(status := Serving)
    ensures Reachable(u) && Follows(Linked, s, u) && OthersAlone(s, u, l) && u.inc.alive && u.inc.job.phase.FdsSent? && u.inc.job.link == l
    ensures l in u.links && u.links[l].offered == offered && u.links[l].unsettled == {} && u.links[l].heir.stage.AwaitReady?
    ensures u.links[l].wire.inbox == [ToSuccessor.Ready(offered)] + FdMessage(offered)
    ensures offered.Keys == s.inc.registry.Keys && AllSnapped(offered)
  {
    u := TransferGoesThrough(s);
    CollectedAll(u);
    offered := u.links[l].offered;
  }

  /** The transfer to a successor just served, all the way. */
  lemma FromBegun(s: State, l: Link) returns (t: State, offered: Infos)
    requires Reachable(s) && s.inc.alive && s.inc.job == Job(Locked, l, {}, {}, {}, {})
    requires l in s.links && s.links[l] == NEW_CONN.(status := Serving)
    ensures Follows(Linked, s, t) && Completed(t, l, offered, {}) && OthersAlone(s, t, l)
    ensures offered.Keys == s.inc.registry.Keys && AllSnapped(offered)
  {
    var u;
    u, offered := Offered(s, l);
    assert u.links[l].wire.inbox[1..] == FdMessage(offered);
    TransferCanComplete(u);
    CompletesAfter(s, u, l, offered, {});
    t :| Follows(Linked, s, t) && Completed(t, l, offered, {}) && OthersAlone(s, t, l);
  }

  lemma CollectedAll(s: State)
    requires Reachable(s) && s.inc.job.phase.FdsSent?
    ensures s.inc.job.link in s.links
    ensures s.links[s.inc.job.link].offered.Keys + s.inc.job.skipped == s.inc.registry.Keys
  {
    ReachableInv(s);
  }

  /** While the incumbent is alive and has not committed, nobody has adopted anything. */
  lemma NobodyAdopted(s: State, m: Link)
    requires Reachable(s) && s.inc.alive && !HasCommitted(s.inc.job.phase) && m in s.links
    ensures s.links[m].heir.adopted == map[]
  {
    ReachableInv(s);
  }

  lemma CompletedIsContinuous(t: State, l: Link, offered: Infos, p: Pty)
    requires Completed(t, l, offered, {}) && p in offered && offered[p].Some?
    requires forall m :: m in t.links && m != l ==> p !in t.links[m].heir.adopted
    ensures SuccessorReads(t, l, p) && p in t.kernel && Continuous(t, l, p, offered[p].value)
  {
    var run :| Run(run) && run[|run| - 1] == t;
    StandingContinuity(run, |run| - 1, l, p, offered[p].value);
  }

  /** All of a successor's own: it reads every one of the sessions, and its snapshot
      followed by what it read is the output, nothing lost and nothing repeated. */
  ghost predicate Inherited(t: State, l: Link, sessions: set<Pty>) {
    && HasCommitted(t.inc.job.phase) && t.inc.job.link == l && l in t.links
    && t.links[l].heir.received.Keys == sessions && AllSnapped(t.links[l].heir.received)
    && (forall p :: p in sessions ==> InheritedOne(t, l, p))
  }

  ghost predicate InheritedOne(t: State, l: Link, p: Pty) {
    && SuccessorReads(t, l, p) && p in t.kernel && p in t.links[l].heir.received
    && t.links[l].heir.received[p].Some? && Continuous(t, l, p, t.links[l].heir.received[p].value)
  }

  lemma CompletedIsInherited(s: State, t: State, l: Link, offered: Infos)
    requires Reachable(s) && s.inc.alive && !HasCommitted(s.inc.job.phase)
    requires Completed(t, l, offered, {}) && OthersAlone(s, t, l) && AllSnapped(offered)
    ensures Inherited(t, l, offered.Keys)
  {
    forall p | p in offered ensures InheritedOne(t, l, p) {
      forall m | m in t.links && m != l ensures p !in t.links[m].heir.adopted {
        NobodyAdopted(s, m);
      }
      CompletedIsContinuous(t, l, offered, p);
    }
  }

  /** From every reachable moment of a live incumbent that has not committed, whatever
      attempts went before or are under way and whatever its readers are doing, some
      continuation hands every session over to any successor that has yet to connect,
      without losing or repeating a byte. */
  lemma HandoffCanSucceed(s: State, l: Link) returns (t: State)
    requires Reachable(s) && s.inc.alive && !HasCommitted(s.inc.job.phase) && l !in s.links
    ensures Follows(Linked, s, t) && Inherited(t, l, s.inc.registry.Keys)
  {
    var idle := CanBeIdle(s);
    var free := CanBeUnguarded(idle, idle.inc.fence.guards);
    var begun := CanBegin(free, l);
    var offered;
    t, offered := FromBegun(begun, l);
    CompletedIsInherited(begun, t, l, offered);
    FollowsTwice(Linked, s, idle, free);
    FollowsTwice(Linked, s, free, begun);
    FollowsTwice(Linked, s, begun, t);
  }

  // ----------------------------------------------- exactly when a commit can come

  /** The attempt on this connection is at its wait, or over. */
  ghost predicate Hopeless(s: State, l: Link) {
    && l in s.links && !s.links[l].status.Fresh?
    && (s.inc.job.link == l ==> s.inc.job.phase.FdsSent? || s.inc.job.phase.RollingBack? || s.inc.job.phase.Idle?)
    && (s.inc.job.link == l && s.inc.job.phase.FdsSent? ==> !MayAck(s.links[l]))
  }

  lemma HeirCannotAck(alive: bool, kernel: map<Pty, Kernel>, conn: Conn, move: HeirMove, conn': Conn)
    requires HeirMoves(alive, kernel, conn, move, conn') && !MayAck(conn)
    ensures !MayAck(conn') && conn'.status == conn.status
  {
  }

  lemma HandlerHopeless(inc: Incumbent, conn: Conn, l: Link, move: HandlerMove, inc': Incumbent, conn': Conn)
    requires HandlerMoves(inc, conn, l, move, inc', conn') && !conn.status.Fresh?
    requires inc.job.link == l ==> inc.job.phase.FdsSent? || inc.job.phase.RollingBack? || inc.job.phase.Idle?
    requires inc.job.link == l && inc.job.phase.FdsSent? ==> !MayAck(conn)
    ensures !conn'.status.Fresh? && inc.job.link == l && inc'.job.link == l
    ensures inc'.job.phase.RollingBack? || inc'.job.phase.Idle?
  {
  }

  lemma HandlerOf(inc: Incumbent, conn: Conn, l: Link, move: HandlerMove, inc': Incumbent, conn': Conn)
    requires HandlerMoves(inc, conn, l, move, inc', conn')
    ensures inc'.job.link == l
  {
  }

  lemma NextHopelessAttempt(s: State, step: Step, t: State, l: Link)
    requires Hopeless(s, l) && Next(s, step, t)
    ensures Hopeless(t, l)
  {
    match step
    case OnHandler(h, move) =>
      if h == l {
        HandlerHopeless(s.inc, s.links[l], l, move, t.inc, t.links[l]);
      } else {
        HandlerOf(s.inc, s.links[h], h, move, t.inc, t.links[h]);
      }
    case OnHeir(h, move) =>
      if h == l && !move.AdoptedRead? {
        if !MayAck(s.links[l]) {
          HeirCannotAck(s.inc.alive, s.kernel, s.links[l], move, t.links[l]);
        }
      }
    case _ =>
  }

  lemma LinkHopelessAttempt(s: State, t: State, l: Link)
    requires Hopeless(s, l) && Linked(s, t)
    ensures Hopeless(t, l)
  {
    var step :| Next(s, step, t);
    NextHopelessAttempt(s, step, t, l);
  }

  /** The incumbent commits to this connection in the end. */
  ghost predicate CanCommit(s: State, l: Link) {
    exists t :: Follows(Linked, s, t) && HasCommitted(t.inc.job.phase) && t.inc.job.link == l
  }

  /** From every moment at which a live incumbent waits for an acknowledgement, it can
      still commit to that connection if and only if an acknowledgement is on the wire or
      the successor has, or has in its inbox, all it takes to send one. */
  lemma CommitPossibleIff(s: State)
    requires Reachable(s) && s.inc.alive && s.inc.job.phase.FdsSent? && s.inc.job.link in s.links
    ensures CanCommit(s, s.inc.job.link) <==> MayAck(s.links[s.inc.job.link])
  {
    if MayAck(s.links[s.inc.job.link]) {
      CommitPossible(s);
    } else {
      CommitImpossible(s);
    }
  }

  lemma CommitPossible(s: State)
    requires Reachable(s) && s.inc.alive && s.inc.job.phase.FdsSent? && s.inc.job.link in s.links && MayAck(s.links[s.inc.job.link])
    ensures CanCommit(s, s.inc.job.link)
  {
    var u := CanAcknowledge(s, s.inc.job.link);
    var v := StepCommit(u);
    FollowsTwice(Linked, s, u, v);
  }

  lemma CommitImpossible(s: State)
    requires Reachable(s) && s.inc.job.phase.FdsSent? && s.inc.job.link in s.links && !MayAck(s.links[s.inc.job.link])
    ensures !CanCommit(s, s.inc.job.link)
  {
    var l := s.inc.job.link;
    ServingNow(s);
    forall a, b | Hopeless(a, l) && Linked(a, b) ensures Hopeless(b, l) {
      LinkHopelessAttempt(a, b, l);
    }
    forall t | Follows(Linked, s, t) ensures !(HasCommitted(t.inc.job.phase) && t.inc.job.link == l) {
      Lasts(Linked, u => Hopeless(u, l), s, t);
    }
  }

  lemma ServingNow(s: State)
    requires Reachable(s) && s.inc.job.phase.FdsSent? && s.inc.job.link in s.links
    ensures s.links[s.inc.job.link].status.Serving?
  {
    ReachableInv(s);
  }

  // ------------------------------------------------------ readers after a commit

  /** Past its commit the incumbent has asked every reader to stop. */
  ghost predicate AskedToStop(inc: Incumbent) {
    inc.job.phase.Stopping? || inc.job.phase.Released? ==> forall p :: p in inc.registry ==> inc.registry[p].stop
  }

  lemma ReaderKeepsStop(k: Kernel, r: Reader, move: ReaderMove, k': Kernel, r': Reader)
    requires ReaderMoves(k, r, move, k', r')
    ensures r'.stop == r.stop
  {
  }

  lemma HandlerAsksStop(inc: Incumbent, conn: Conn, l: Link, move: HandlerMove, inc': Incumbent, conn': Conn)
    requires HandlerMoves(inc, conn, l, move, inc', conn') && AskedToStop(inc)
    ensures AskedToStop(inc')
  {
    if !EndingMoves(inc, conn, l, move, inc', conn') {
      BeforeTheEnd(inc, conn, l, move, inc', conn');
    }
  }

  lemma BeforeTheEnd(inc: Incumbent, conn: Conn, l: Link, move: HandlerMove, inc': Incumbent, conn': Conn)
    requires HandlerMoves(inc, conn, l, move, inc', conn') && !EndingMoves(inc, conn, l, move, inc', conn')
    ensures !inc'.job.phase.Stopping? && !inc'.job.phase.Released?
  {
  }

  lemma CommittedNotRunning(s: State)
    requires Reachable(s) && HasCommitted(s.inc.job.phase)
    ensures !s.inc.fence.running
  {
    ReachableInv(s);
  }

  lemma NextAsksStop(s: State, step: Step, t: State)
    requires Reachable(s) && Next(s, step, t) && AskedToStop(s.inc)
    ensures AskedToStop(t.inc)
  {
    match step
    case OnReader(p, k, r) =>
      var move :| ReaderMoves(s.kernel[p], s.inc.registry[p], move, k, r);
      ReaderKeepsStop(s.kernel[p], s.inc.registry[p], move, k, r);
    case OnRegistry(command) =>
      if HasCommitted(s.inc.job.phase) {
        CommittedNotRunning(s);
      }
    case OnHandler(l, move) => HandlerAsksStop(s.inc, s.links[l], l, move, t.inc, t.links[l]);
    case _ =>
  }

  /** In every run, from the moment the incumbent lets its successor go on, each of its
      readers is asked to stop, for ever. */
  lemma {:induction false} ReleasedReadersAsked(run: seq<State>, i: nat)
    requires Run(run) && i < |run|
    ensures AskedToStop(run[i].inc)
  {
    if i > 0 {
      ReleasedReadersAsked(run, i - 1);
      RunReaches(run, i - 1);
      assert StepAt(run, i);
      var step :| Next(run[i - 1], step, run[i]);
      NextAsksStop(run[i - 1], step, run[i]);
    }
  }

  lemma RunReaches(run: seq<State>, i: nat)
    requires Run(run) && i < |run|
    ensures Reachable(run[i])
  {
    var prefix := run[..i + 1];
    forall k | 0 < k < |prefix| ensures StepAt(prefix, k) {
      assert StepAt(run, k);
    }
    assert Run(prefix) && prefix[|prefix| - 1] == run[i];
  }

  lemma ReleasedFacts(s: State, p: Pty)
    requires Reachable(s) && (s.inc.job.phase.Stopping? || s.inc.job.phase.Released?) && p in s.inc.registry
    ensures s.inc.registry[p].stop && p in s.kernel
  {
    ReachableAsked(s);
    ReachableBooks(s);
  }

  lemma ReachableAsked(s: State)
    requires Reachable(s)
    ensures AskedToStop(s.inc)
  {
    var run :| Run(run) && run[|run| - 1] == s;
    ReleasedReadersAsked(run, |run| - 1);
  }

  lemma ReachableBooks(s: State)
    requires Reachable(s)
    ensures Books(s.kernel, s.inc.registry)
  {
    ReachableInv(s);
  }

  /** ... and can stop, wherever it is, without taking another byte. */
  lemma ReleasedReaderCanStop(s: State, p: Pty) returns (r: Reader, t: State)
    requires Reachable(s) && s.inc.alive && (s.inc.job.phase.Stopping? || s.inc.job.phase.Released?)
    requires p in s.inc.registry
    ensures Reachable(t) && Follows(Linked, s, t) && t == WithReader(s, p, r) && r.pc.Stopped?
  {
    ReleasedFacts(s, p);
    r := s.inc.registry[p];
    match r.pc
    case Stopped =>
      SameReader(s, p);
      t := s;
    case Resuming =>
      var top := r.(pc := Top, marked := false);
      var u := ByReader(s, p, MarkResumed, top);
      r := top.(pc := Stopped);
      t := ByReader(u, p, Stop, r);
      FollowsTwice(Linked, s, u, t);
      assert s.inc.registry[p := top][p := r] == s.inc.registry[p := r];
    case Holding(_) =>
      r := r.(pc := Stopped, marked := false);
      t := ByReader(s, p, Mirror(0), r);
    case _ =>
      r := r.(pc := Stopped, marked := false);
      t := ByReader(s, p, Stop, r);
  }
}
