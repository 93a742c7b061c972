/**
 Two successors for one PTY: exactly when a second one can still come to adopt what a
 first one has adopted.
 */
module HandoffRivals {
  import opened Common
  import opened Handoff
  import opened HandoffProof
  import opened HandoffResults
  import opened Paths

  /** What the successor still needs of its inbox is there. */
  ghost predicate MayAdopt(conn: Conn, p: Pty) {
    var inbox := conn.wire.inbox;
    match conn.heir.stage
    case AwaitReady =>
      inbox != [] && inbox[0].Ready? && p in inbox[0].infos && |inbox| > 1 && inbox[1] == Fds(|inbox[0].infos|)
    case AwaitFds => p in conn.heir.received && inbox != [] && inbox[0] == Fds(|conn.heir.received|)
    case Gone => false
    case _ => p in conn.heir.received
  }

  // --------------------------------------------------------------- it can happen

  /** How far the successor is from streaming. */
  function Distance(conn: Conn): nat {
    var n := |conn.wire.inbox|;
    match conn.heir.stage
    case AwaitReady => 6 + n
    case AwaitFds => 5 + n
    case GotFds => 4 + n
    case AckSent => 3 + n
    case KillSent => 3 + n
    case Adopted => 1
    case Streaming => 0
    case Gone => 0
  }

  /** With the incumbent dead, a successor that may adopt takes one step nearer. */
  lemma OneNearer(kernel: map<Pty, Kernel>, conn: Conn, p: Pty) returns (move: HeirMove, conn': Conn)
    requires MayAdopt(conn, p) && !conn.heir.stage.Streaming? && p in kernel
    requires HasAdopted(conn.heir.stage) ==> p in conn.heir.adopted
    ensures HeirMoves(false, kernel, conn, move, conn') && MayAdopt(conn', p) && Distance(conn') < Distance(conn)
    ensures HasAdopted(conn'.heir.stage) ==> p in conn'.heir.adopted
  {
    var wire, heir := conn.wire, conn.heir;
    match heir.stage
    case AwaitReady =>
      var infos := wire.inbox[0].infos;
      assert infos != map[];
      move := ReceiveReady;
      conn' := conn.(wire := wire.(inbox := wire.inbox[1..]), heir := heir.(received := infos, stage := AwaitFds));
    case AwaitFds =>
      move := ReceiveFds;
      conn' := conn.(wire := wire.(inbox := wire.inbox[1..]), heir := heir.(stage := GotFds));
    case GotFds =>
      move := Acknowledge;
      conn' := conn.(wire := wire.(outbox := wire.outbox + [VERSION]), heir := heir.(stage := AckSent));
    case Adopted =>
      move := StartReaders;
      conn' := conn.(heir := heir.(stage := Streaming));
    case AckSent | KillSent =>
      if wire.inbox != [] {
        move, conn' := Ignore, conn.(wire := wire.(inbox := wire.inbox[1..]));
      } else {
        move := SeeEof;
        conn' := conn.(wire := wire.(left := true),
                       heir := Heir(Adopted, heir.received, map q | q in heir.received && q in kernel :: []));
      }
  }

  /** Once the incumbent is dead, a successor that may adopt can get to read, whatever
      the others do meanwhile. */
  lemma {:induction false} CanRead(s: State, l: Link, p: Pty) returns (t: State)
    requires !s.inc.alive && l in s.links && MayAdopt(s.links[l], p) && p in s.kernel
    requires HasAdopted(s.links[l].heir.stage) ==> p in s.links[l].heir.adopted
    ensures Follows(Linked, s, t) && SuccessorReads(t, l, p) && t == s.(links := s.links[l := t.links[l]])
    decreases Distance(s.links[l])
  {
    if s.links[l].heir.stage.Streaming? {
      FollowsItself(Linked, s);
      assert s.links[l := s.links[l]] == s.links;
      t := s;
    } else {
      var move, conn := OneNearer(s.kernel, s.links[l], p);
      var u := s.(links := s.links[l := conn]);
      t := CanRead(u, l, p);
      StepThen(s, OnHeir(l, move), u, t);
      assert t.links == s.links[l := t.links[l]];
    }
  }

  /** Both read in the end: the incumbent dies, the rival catches up, and whoever has
      not started its readers does. */
  lemma RivalsCanRead(s: State, l: Link, m: Link, p: Pty) returns (t: State)
    requires Inv(s) && Adopts(s, m, p) && l in s.links && l != m && MayAdopt(s.links[l], p)
    ensures Follows(Linked, s, t) && SuccessorReads(t, l, p) && SuccessorReads(t, m, p)
  {
    AdoptedIsKnown(s, m, p);
    RivalIsKnown(s, l, p);
    var dead := s.(inc := s.inc.(alive := false));
    var u := CanRead(dead, l, p);
    t := CanRead(u, m, p);
    FollowsTwice(Linked, dead, u, t);
    if s.inc.alive {
      StepThen(s, Die, dead, t);
    } else {
      assert dead == s;
    }
  }

  lemma AdoptedIsKnown(s: State, m: Link, p: Pty)
    requires Inv(s) && Adopts(s, m, p)
    ensures p in s.kernel && MayAdopt(s.links[m], p)
  {
    AdopterWasTold(s, m, p);
    assert OfferOk(s.kernel, m, s.links[m].offered);
  }

  lemma RivalIsKnown(s: State, l: Link, p: Pty)
    requires Inv(s) && l in s.links && MayAdopt(s.links[l], p)
    ensures HasAdopted(s.links[l].heir.stage) ==> p in s.links[l].heir.adopted
  {
  }

  // ----------------------------------------------------------- and only then

  /** Nobody will send anything on this connection but noise. */
  ghost predicate Shut(s: State, l: Link, m: Link) {
    s.inc.alive ==> HasCommitted(s.inc.job.phase) && s.inc.job.link == m && l != m
  }

  lemma AdoptionShuts(s: State, l: Link, m: Link, p: Pty)
    requires Inv(s) && Adopts(s, m, p) && l != m
    ensures Shut(s, l, m)
  {
  }

  lemma LoopHopeless(conn: Conn, move: LoopMove, conn': Conn, p: Pty)
    requires LoopMoves(conn, move, conn') && !MayAdopt(conn, p)
    ensures !MayAdopt(conn', p)
  {
  }

  lemma HeirHopeless(alive: bool, kernel: map<Pty, Kernel>, conn: Conn, move: HeirMove, conn': Conn, p: Pty)
    requires HeirMoves(alive, kernel, conn, move, conn') && !MayAdopt(conn, p)
    ensures !MayAdopt(conn', p)
  {
  }

  lemma HandlerStaysShut(inc: Incumbent, conn: Conn, l: Link, move: HandlerMove, inc': Incumbent, conn': Conn)
    requires HandlerMoves(inc, conn, l, move, inc', conn') && HasCommitted(inc.job.phase)
    ensures l == inc.job.link && HasCommitted(inc'.job.phase) && inc'.job.link == l && inc'.alive == inc.alive
  {
  }

  lemma NextHopeless(s: State, step: Step, t: State, l: Link, m: Link, p: Pty)
    requires Shut(s, l, m) && Next(s, step, t) && !(l in s.links && MayAdopt(s.links[l], p))
    ensures Shut(t, l, m) && !(l in t.links && MayAdopt(t.links[l], p))
  {
    match step
    case OnHandler(h, move) => HandlerStaysShut(s.inc, s.links[h], h, move, t.inc, t.links[h]);
    case OnLoop(h, move) =>
      if h == l {
        LoopHopeless(s.links[l], move, t.links[l], p);
      }
    case OnHeir(h, move) =>
      if h == l && !move.AdoptedRead? {
        HeirHopeless(s.inc.alive, s.kernel, s.links[l], move, t.links[l], p);
      }
    case _ =>
  }

  /** A rival that can no longer adopt. */
  ghost predicate HopelessRival(s: State, l: Link, m: Link, p: Pty) {
    Shut(s, l, m) && !(l in s.links && MayAdopt(s.links[l], p))
  }

  lemma LinkHopeless(s: State, t: State, l: Link, m: Link, p: Pty)
    requires HopelessRival(s, l, m, p) && Linked(s, t)
    ensures HopelessRival(t, l, m, p)
  {
    var step :| Next(s, step, t);
    NextHopeless(s, step, t, l, m, p);
  }

  lemma FollowsHopeless(s: State, t: State, l: Link, m: Link, p: Pty)
    requires Follows(Linked, s, t) && Shut(s, l, m) && l in t.links && MayAdopt(t.links[l], p)
    ensures l in s.links && MayAdopt(s.links[l], p)
  {
    if HopelessRival(s, l, m, p) {
      forall a, b | HopelessRival(a, l, m, p) && Linked(a, b) ensures HopelessRival(b, l, m, p) {
        LinkHopeless(a, b, l, m, p);
      }
      Lasts(Linked, u => HopelessRival(u, l, m, p), s, t);
    }
  }

  lemma ReachableAdopter(t: State, l: Link, p: Pty)
    requires Reachable(t) && Adopts(t, l, p)
    ensures l in t.links && MayAdopt(t.links[l], p)
  {
    ReachableInv(t);
    AdoptedIsKnown(t, l, p);
  }

  lemma ReachableShut(s: State, l: Link, m: Link, p: Pty)
    requires Reachable(s) && Adopts(s, m, p) && l != m
    ensures Shut(s, l, m)
  {
    ReachableInv(s);
    AdoptionShuts(s, l, m, p);
  }

  lemma RivalsMayAdopt(s: State, t: State, l: Link, m: Link, p: Pty)
    requires Reachable(s) && Adopts(s, m, p) && l != m && Follows(Linked, s, t) && Adopts(t, l, p)
    ensures l in s.links && MayAdopt(s.links[l], p)
  {
    ReachableShut(s, l, m, p);
    FollowsReachable(s, t);
    ReachableAdopter(t, l, p);
    FollowsHopeless(s, t, l, m, p);
  }

  /** From any reachable moment at which a successor has adopted a PTY, another one can
      come to read it too if and only if it has, or still has in its inbox, the metadata
      and the descriptors, and has not given up: no acknowledgement in time, no
      commit and no rollback enters into it. Then one of the two was rolled back. */
  lemma RivalsExactly(s: State, l: Link, m: Link, p: Pty)
    requires Reachable(s) && Adopts(s, m, p) && l != m
    ensures (exists t :: Follows(Linked, s, t) && SuccessorReads(t, l, p) && SuccessorReads(t, m, p)) <==>
              l in s.links && MayAdopt(s.links[l], p)
    ensures l in s.links && MayAdopt(s.links[l], p) ==> s.links[l].status.Back? || s.links[m].status.Back?
  {
    if l in s.links && MayAdopt(s.links[l], p) {
      var t := RivalsCanMeet(s, l, m, p);
    }
    forall t | Follows(Linked, s, t) && SuccessorReads(t, l, p) ensures l in s.links && MayAdopt(s.links[l], p) {
      RivalsMayAdopt(s, t, l, m, p);
    }
  }

  lemma RivalsCanMeet(s: State, l: Link, m: Link, p: Pty) returns (t: State)
    requires Reachable(s) && Adopts(s, m, p) && l != m && l in s.links && MayAdopt(s.links[l], p)
    ensures Follows(Linked, s, t) && SuccessorReads(t, l, p) && SuccessorReads(t, m, p)
    ensures s.links[l].status.Back? || s.links[m].status.Back?
  {
    ReachableInv(s);
    t := RivalsCanRead(s, l, m, p);
    OneRolledBack(s, l, m, p);
  }

  lemma OneRolledBack(s: State, l: Link, m: Link, p: Pty)
    requires Inv(s) && Adopts(s, m, p) && l != m && l in s.links && MayAdopt(s.links[l], p)
    ensures s.links[l].status.Back? || s.links[m].status.Back?
  {
  }
}
