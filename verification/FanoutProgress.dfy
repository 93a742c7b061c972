/**
 When a subscriber falls behind, and that it can always catch up again.
 */
module FanoutProgress {
  import opened Common
  import opened Fanout
  import opened FanoutNet
  import opened Paths

  // ----------------------------------------------------------- exactly when lagged

  /** The bytes of the line a move offers to every subscriber, if it offers one. */
  function Offers(n: Net, move: Move): Option<nat> {
    match move
    case Chunk(_, len) => if n.retired then None else Some(len)
    case Status(line) => Some(line.len)
    case Resize(len) => Some(len)
    case _ => None
  }

  /** The move offers an open, listed subscriber a line beyond its budget. */
  predicate Overflows(n: Net, budget: nat, move: Move, r: Reg) {
    && r in n.fan.subs && Current(n.fan, r) && !n.fan.subs[r].closed
    && Offers(n, move).Some? && n.fan.subs[r].pending + Offers(n, move).value > budget
  }

  /** The move resynchronises it. */
  predicate Resyncs(n: Net, move: Move, r: Reg) {
    && r in n.fan.subs && Current(n.fan, r) && !n.fan.subs[r].closed && n.fan.subs[r].lagged
    && move.Resync? && n.fan.subs[r].pending == 0
  }

  lemma WriterKeepsLag(sub: Subscriber, move: Move, sub': Subscriber)
    requires WriterMoves(sub, move, sub')
    ensures sub'.lagged == sub.lagged
  {
  }

  lemma LineLag(n: Net, budget: nat, line: EventLine, r: Reg)
    requires WellFormed(n.fan) && r in n.fan.subs
    ensures var after := AfterEnqueue(n.fan, line, budget);
            && r in after.subs
            && (!n.fan.subs[r].lagged ==>
                  (after.subs[r].lagged <==> Current(n.fan, r) && !n.fan.subs[r].closed && n.fan.subs[r].pending + line.len > budget))
            && (n.fan.subs[r].lagged ==> after.subs[r].lagged)
  {
    EnqueueMet(n.fan, line, budget, r);
  }

  lemma RegistryLag(n: Net, budget: nat, move: Move, n': Net, r: Reg)
    requires WellFormed(n.fan) && Next(n, budget, move, n') && r in n.fan.subs && !IsWriterMove(move)
    ensures r in n'.fan.subs
    ensures !n.fan.subs[r].lagged ==> (n'.fan.subs[r].lagged <==> Overflows(n, budget, move, r))
    ensures n.fan.subs[r].lagged ==> (!n'.fan.subs[r].lagged <==> Resyncs(n, move, r))
  {
    match move
    case Chunk(data, len) =>
      if !n.retired {
        LineLag(n, budget, Line(Output(data), len), r);
      }
    case Status(line) => LineLag(n, budget, line, r);
    case Resize(len) => LineLag(n, budget, Line(Snapshot(n.screen), len), r);
    case Attach(reg, conn, kind, lines) => RegisterMet(n.fan, reg, conn, kind, lines, r);
    case Resync(lines) => ResyncMet(n.fan, lines, r);
    case Detach(kind, conn) => RemoveMet(n.fan, kind, conn, r);
    case Final(line) => FinalMet(n.fan, line, r);
    case Retire =>
  }

  /** A subscriber becomes lagged by a step if and only if the step offers it a line that
      does not fit its budget, and stops being lagged if and only if the step is a resync
      that finds its mailbox drained. */
  lemma LagChangesIff(n: Net, budget: nat, move: Move, n': Net, r: Reg)
    requires WellFormed(n.fan) && Next(n, budget, move, n') && r in n.fan.subs
    ensures r in n'.fan.subs
    ensures !n.fan.subs[r].lagged ==> (n'.fan.subs[r].lagged <==> Overflows(n, budget, move, r))
    ensures n.fan.subs[r].lagged ==> (!n'.fan.subs[r].lagged <==> Resyncs(n, move, r))
  {
    if IsWriterMove(move) {
      if move.reg == r {
        WriterKeepsLag(n.fan.subs[r], move, n'.fan.subs[r]);
      }
    } else {
      RegistryLag(n, budget, move, n', r);
    }
  }

  ghost predicate OverflowStep(n: Net, budget: nat, move: Move, n': Net, r: Reg) {
    Next(n, budget, move, n') && Overflows(n, budget, move, r)
  }

  ghost predicate Overflowed(n: Net, budget: nat, n': Net, r: Reg) {
    exists move :: OverflowStep(n, budget, move, n', r)
  }

  ghost predicate OverflowedAt(run: seq<Net>, budget: nat, k: nat, r: Reg)
    requires 0 < k < |run|
  {
    Overflowed(run[k - 1], budget, run[k], r)
  }

  ghost predicate LaggedFrom(run: seq<Net>, k: nat, j: nat, r: Reg)
    requires k <= j < |run|
  {
    forall m :: k <= m <= j ==> r in run[m].fan.subs && run[m].fan.subs[r].lagged
  }

  /** In every run, a subscriber that was not lagged and now is became so at a line that
      did not fit its budget, and has been ever since. */
  lemma {:induction false} LaggedByOverflow(run: seq<Net>, budget: nat, i: nat, j: nat, r: Reg) returns (k: nat)
    requires Run(run, budget) && i <= j < |run| && r in run[i].fan.subs && !run[i].fan.subs[r].lagged
    requires r in run[j].fan.subs && run[j].fan.subs[r].lagged
    ensures i < k <= j && OverflowedAt(run, budget, k, r) && LaggedFrom(run, k, j, r)
    decreases j - i
  {
    Registered(run, budget, i, j - 1, r);
    if run[j - 1].fan.subs[r].lagged {
      k := LaggedByOverflow(run, budget, i, j - 1, r);
      assert LaggedFrom(run, k, j, r);
    } else {
      k := j;
      LaggedHere(run, budget, j, r);
    }
  }

  lemma LaggedHere(run: seq<Net>, budget: nat, j: nat, r: Reg)
    requires Run(run, budget) && 0 < j < |run| && r in run[j - 1].fan.subs && !run[j - 1].fan.subs[r].lagged
    requires r in run[j].fan.subs && run[j].fan.subs[r].lagged
    ensures OverflowedAt(run, budget, j, r)
  {
    assert WellFormed(run[j - 1].fan) by { RunInv(run, budget, j - 1); }
    assert StepAt(run, budget, j);
    var move :| Next(run[j - 1], budget, move, run[j]);
    LagChangesIff(run[j - 1], budget, move, run[j], r);
    assert OverflowStep(run[j - 1], budget, move, run[j], r);
  }

  /** A registration is never forgotten. */
  lemma {:induction false} Registered(run: seq<Net>, budget: nat, i: nat, j: nat, r: Reg)
    requires Run(run, budget) && i <= j < |run| && r in run[i].fan.subs
    ensures r in run[j].fan.subs
    decreases j - i
  {
    if i < j {
      Registered(run, budget, i, j - 1, r);
      assert StepAt(run, budget, j);
      var move :| Next(run[j - 1], budget, move, run[j]);
      NextGrows(run[j - 1], budget, move, run[j], r);
    }
  }

  // ------------------------------------------------------- where the system can go

  ghost predicate Reachable(n: Net, budget: nat) {
    exists run :: Run(run, budget) && run[|run| - 1] == n
  }

  /** One move, under a budget. */
  ghost function Moves(budget: nat): (Net, Net) -> bool {
    (n, n') => Linked(n, budget, n')
  }

  lemma MoveThen(n: Net, budget: nat, move: Move, m: Net, n': Net)
    requires Next(n, budget, move, m) && Follows(Moves(budget), m, n')
    ensures Follows(Moves(budget), n, n')
  {
    assert Linked(n, budget, m);
    FollowsAfter(Moves(budget), n, m, n');
  }

  lemma Reach(n: Net, budget: nat, move: Move, n': Net)
    requires Reachable(n, budget) && Next(n, budget, move, n')
    ensures Reachable(n', budget)
  {
    var run :| Run(run, budget) && run[|run| - 1] == n;
    var more := run + [n'];
    assert Linked(n, budget, n');
    forall i | 0 < i < |more| ensures StepAt(more, budget, i) {
      if i < |run| {
        assert StepAt(run, budget, i) && more[i] == run[i] && more[i - 1] == run[i - 1];
      } else {
        assert more[i - 1] == run[|run| - 1];
      }
    }
    assert Run(more, budget) && more[|more| - 1] == n';
  }

  lemma ReachableInv(n: Net, budget: nat)
    requires Reachable(n, budget)
    ensures Inv(n, budget)
  {
    var run :| Run(run, budget) && run[|run| - 1] == n;
    RunInv(run, budget, |run| - 1);
  }

  // ------------------------------------------- a listed subscriber is not cancelled

  ghost predicate ListedStands(fan: Fan) {
    forall r :: r in fan.subs && Current(fan, r) ==> !fan.subs[r].cancelled
  }

  lemma LineStands(fan: Fan, line: EventLine, budget: nat)
    requires WellFormed(fan) && ListedStands(fan)
    ensures ListedStands(AfterEnqueue(fan, line, budget))
  {
    forall r | r in fan.subs
      ensures Current(AfterEnqueue(fan, line, budget), r) ==> !AfterEnqueue(fan, line, budget).subs[r].cancelled
    {
      EnqueueMet(fan, line, budget, r);
    }
  }

  lemma RegisterStands(fan: Fan, reg: Reg, conn: Conn, kind: Kind, lines: seq<EventLine>)
    requires WellFormed(fan) && ListedStands(fan) && reg !in fan.subs
    ensures ListedStands(AfterRegister(fan, reg, conn, kind, lines))
  {
    var after := AfterRegister(fan, reg, conn, kind, lines);
    forall r | r in fan.subs ensures Current(after, r) ==> !after.subs[r].cancelled {
      RegisterMet(fan, reg, conn, kind, lines, r);
    }
  }

  lemma RemoveStands(fan: Fan, kind: Kind, conn: Conn)
    requires WellFormed(fan) && ListedStands(fan)
    ensures ListedStands(AfterRemove(fan, kind, conn))
  {
    var after := AfterRemove(fan, kind, conn);
    forall r | r in fan.subs ensures Current(after, r) ==> !after.subs[r].cancelled {
      RemoveMet(fan, kind, conn, r);
    }
  }

  lemma NextStands(n: Net, budget: nat, move: Move, n': Net)
    requires WellFormed(n.fan) && ListedStands(n.fan) && Next(n, budget, move, n')
    ensures ListedStands(n'.fan)
  {
    match move
    case Chunk(data, len) =>
      if !n.retired {
        LineStands(n.fan, Line(Output(data), len), budget);
      }
    case Status(line) => LineStands(n.fan, line, budget);
    case Resize(len) => LineStands(n.fan, Line(Snapshot(n.screen), len), budget);
    case Attach(reg, conn, kind, lines) => RegisterStands(n.fan, reg, conn, kind, lines);
    case Detach(kind, conn) => RemoveStands(n.fan, kind, conn);
    case _ =>
  }

  lemma {:induction false} RunStands(run: seq<Net>, budget: nat, i: nat)
    requires Run(run, budget) && i < |run|
    ensures ListedStands(run[i].fan)
  {
    if i > 0 {
      RunStands(run, budget, i - 1);
      RunInv(run, budget, i - 1);
      assert StepAt(run, budget, i);
      var move :| Next(run[i - 1], budget, move, run[i]);
      NextStands(run[i - 1], budget, move, run[i]);
    }
  }

  // -------------------------------------------------------- a mailbox can be drained

  /** The subscriber is listed and its socket intact. */
  ghost predicate Served(n: Net, budget: nat, r: Reg) {
    Reachable(n, budget) && r in n.fan.subs && Current(n.fan, r) && !Broken(n.fan.subs[r]) && !n.retired
  }

  lemma ServedFacts(n: Net, budget: nat, r: Reg)
    requires Served(n, budget, r)
    ensures Bounded(n.fan.subs[r], budget) && !n.fan.subs[r].cancelled && WellFormed(n.fan) && LockOwned(n.fan.subs, n.holder)
  {
    ReachableInv(n, budget);
    ReachableStands(n, budget);
  }

  lemma ReachableStands(n: Net, budget: nat)
    requires Reachable(n, budget)
    ensures ListedStands(n.fan)
  {
    var run :| Run(run, budget) && run[|run| - 1] == n;
    RunStands(run, budget, |run| - 1);
  }

  /** What the writer task has left to do. */
  function Work(sub: Subscriber): nat {
    4 * |sub.queue| + match sub.hand case Empty => 0 case Wrote(_, _) => 1 case Writing(_) => 2 case Has(_) => 3
  }

  /** Nothing but writer tasks have moved. */
  ghost predicate OnlyWriters(n: Net, n': Net, r: Reg) {
    && n'.screen == n.screen && n'.fan.attached == n.fan.attached && n'.fan.observers == n.fan.observers
    && r in n.fan.subs && r in n'.fan.subs && n'.fan.subs[r].lagged == n.fan.subs[r].lagged
    && Stream(n'.fan.subs[r]) == Stream(n.fan.subs[r])
  }

  /** One step of a writer task. */
  lemma WriterStepped(n: Net, budget: nat, move: Move, sub: Subscriber) returns (n': Net)
    requires Reachable(n, budget) && IsWriterMove(move) && move.reg in n.fan.subs
    requires (move.Lock? ==> n.fan.subs[move.reg].conn !in n.holder) && WriterMoves(n.fan.subs[move.reg], move, sub)
    ensures Reachable(n', budget) && Next(n, budget, move, n')
    ensures n'.fan == n.fan.(subs := n.fan.subs[move.reg := sub]) && n'.screen == n.screen && n'.retired == n.retired
    ensures n'.holder == Locks(n, move.reg, n.fan.subs[move.reg], move)
  {
    var r := move.reg;
    n' := n.(fan := n.fan.(subs := n.fan.subs[r := sub]), log := Logged(n, r, n.fan.subs[r], move), holder := Locks(n, r, n.fan.subs[r], move));
    Reach(n, budget, move, n');
  }

  /** The subscriber's own task takes a step that needs no lock. */
  lemma OwnStep(n: Net, budget: nat, r: Reg, move: Move, sub: Subscriber) returns (n': Net)
    requires Served(n, budget, r) && IsWriterMove(move) && move.reg == r && (move.Lock? ==> n.fan.subs[r].conn !in n.holder)
    requires WriterMoves(n.fan.subs[r], move, sub) && !Broken(sub) && Work(sub) < Work(n.fan.subs[r])
    requires Stream(sub) == Stream(n.fan.subs[r]) && sub.lagged == n.fan.subs[r].lagged
    ensures Served(n', budget, r) && Next(n, budget, move, n') && OnlyWriters(n, n', r) && Work(n'.fan.subs[r]) < Work(n.fan.subs[r])
  {
    n' := WriterStepped(n, budget, move, sub);
  }

  /** Whoever holds the subscriber's socket lock finishes its write. */
  lemma FreesSocket(n: Net, budget: nat, r: Reg) returns (n': Net, move: Move)
    requires Served(n, budget, r) && !n.fan.subs[r].hand.Writing? && n.fan.subs[r].conn in n.holder
    ensures Served(n', budget, r) && Next(n, budget, move, n') && OnlyWriters(n, n', r)
    ensures n'.fan.subs[r] == n.fan.subs[r] && n'.fan.subs[r].conn !in n'.holder
  {
    ServedFacts(n, budget, r);
    var h := n.holder[n.fan.subs[r].conn];
    var other := n.fan.subs[h];
    move := Write(h, true);
    n' := WriterStepped(n, budget, move, other.(hand := Wrote(other.hand.line, true), sent := other.sent + [other.hand.line]));
  }

  /** What can come of the mailbox: drained, with nobody the worse. */
  ghost predicate DrainedIn(n: Net, budget: nat, r: Reg, n': Net) {
    Served(n', budget, r) && Follows(Moves(budget), n, n') && OnlyWriters(n, n', r) && Work(n'.fan.subs[r]) == 0
  }

  ghost predicate CanDrain(n: Net, budget: nat, r: Reg) {
    exists n' :: DrainedIn(n, budget, r, n')
  }

  lemma DrainAfter(n: Net, budget: nat, r: Reg, move: Move, m: Net)
    requires Next(n, budget, move, m) && OnlyWriters(n, m, r) && CanDrain(m, budget, r)
    ensures CanDrain(n, budget, r)
  {
    var n' :| DrainedIn(m, budget, r, n');
    MoveThen(n, budget, move, m, n');
    assert DrainedIn(n, budget, r, n');
  }

  lemma HandStream(sub: Subscriber)
    ensures sub.hand.Empty? && sub.queue != [] ==>
              sub.sent + [sub.queue[0]] + sub.queue[1..] == sub.sent + [] + sub.queue
    ensures sub.hand.Writing? ==> sub.sent + [sub.hand.line] + [] + sub.queue == sub.sent + [sub.hand.line] + sub.queue
  {
    if sub.queue != [] {
      assert sub.queue == [sub.queue[0]] + sub.queue[1..];
    }
  }

  /** Its own task can take a step, once the socket is free. */
  lemma CanStep(n: Net, budget: nat, r: Reg) returns (move: Move, n': Net)
    requires Served(n, budget, r) && Work(n.fan.subs[r]) > 0 && (n.fan.subs[r].hand.Has? ==> n.fan.subs[r].conn !in n.holder)
    ensures Served(n', budget, r) && Next(n, budget, move, n') && OnlyWriters(n, n', r) && Work(n'.fan.subs[r]) < Work(n.fan.subs[r])
  {
    ServedFacts(n, budget, r);
    var sub := n.fan.subs[r];
    HandStream(sub);
    match sub.hand
    case Empty =>
      move := Receive(r);
      n' := OwnStep(n, budget, r, move, sub.(hand := Has(sub.queue[0]), queue := sub.queue[1..]));
    case Has(line) =>
      move := Lock(r);
      n' := OwnStep(n, budget, r, move, sub.(hand := Writing(line)));
    case Writing(line) =>
      move := Write(r, true);
      n' := OwnStep(n, budget, r, move, sub.(hand := Wrote(line, true), sent := sub.sent + [line]));
    case Wrote(line, ok) =>
      move := Account(r);
      n' := OwnStep(n, budget, r, move, sub.(hand := Empty, pending := sub.pending - line.len, closed := false));
  }

  lemma {:induction false} MailboxDrains(n: Net, budget: nat, r: Reg, work: nat)
    requires Served(n, budget, r) && work == Work(n.fan.subs[r])
    ensures CanDrain(n, budget, r)
    decreases work, r in n.fan.subs && n.fan.subs[r].conn in n.holder
  {
    if work == 0 {
      FollowsItself(Moves(budget), n);
      assert DrainedIn(n, budget, r, n);
    } else if n.fan.subs[r].hand.Has? && n.fan.subs[r].conn in n.holder {
      var m, move := FreesSocket(n, budget, r);
      MailboxDrains(m, budget, r, work);
      DrainAfter(n, budget, r, move, m);
    } else {
      var move, m := CanStep(n, budget, r);
      MailboxDrains(m, budget, r, Work(m.fan.subs[r]));
      DrainAfter(n, budget, r, move, m);
    }
  }

  // ----------------------------------------------------- ... and a lag made good

  lemma DrainedHolds(n: Net, budget: nat, r: Reg)
    requires Served(n, budget, r) && Work(n.fan.subs[r]) == 0
    ensures n.fan.subs[r].queue == [] && n.fan.subs[r].hand.Empty? && n.fan.subs[r].pending == 0
    ensures Stream(n.fan.subs[r]) == n.fan.subs[r].sent
  {
    ServedFacts(n, budget, r);
  }

  /** A drained lagged subscriber is resynchronised from a snapshot of any length. */
  lemma CanResync(n: Net, budget: nat, r: Reg, len: nat) returns (move: Move, n': Net)
    requires Served(n, budget, r) && Work(n.fan.subs[r]) == 0 && n.fan.subs[r].lagged && len > 0
    ensures Served(n', budget, r) && Next(n, budget, move, n') && n'.screen == n.screen
    ensures !n'.fan.subs[r].lagged && Replay(Stream(n'.fan.subs[r])) == Some(n.screen)
  {
    ServedFacts(n, budget, r);
    DrainedHolds(n, budget, r);
    var line := Line(Snapshot(n.screen), len);
    var sub := n.fan.subs[r];
    ResyncMet(n.fan, [line], r);
    move, n' := Resync([line]), n.(fan := AfterResync(n.fan, [line]));
    Reach(n, budget, move, n');
    assert Stream(n'.fan.subs[r]) == sub.sent + [line];
    ReplaySnoc(sub.sent, line);
  }

  /** The subscriber has put on its socket exactly the mirrored terminal. */
  ghost predicate Shows(n: Net, budget: nat, r: Reg, screen: seq<Byte>) {
    Served(n, budget, r) && CaughtUp(n.fan.subs[r]) && n.screen == screen && Replay(n.fan.subs[r].sent) == Some(screen)
  }

  lemma DrainedShows(n: Net, budget: nat, r: Reg)
    requires Served(n, budget, r) && Work(n.fan.subs[r]) == 0 && !n.fan.subs[r].lagged && Replay(Stream(n.fan.subs[r])).Some?
    ensures Shows(n, budget, r, n.screen)
  {
    DrainedHolds(n, budget, r);
    var run :| Run(run, budget) && run[|run| - 1] == n;
    CaughtUpIsExact(run, budget, |run| - 1, r);
  }

  ghost predicate CanShow(n: Net, budget: nat, r: Reg, screen: seq<Byte>) {
    exists n' :: Follows(Moves(budget), n, n') && Shows(n', budget, r, screen)
  }

  lemma ShowAfter(n: Net, budget: nat, move: Move, m: Net, r: Reg, screen: seq<Byte>)
    requires Next(n, budget, move, m) && CanShow(m, budget, r, screen)
    ensures CanShow(n, budget, r, screen)
  {
    var n' :| Follows(Moves(budget), m, n') && Shows(n', budget, r, screen);
    MoveThen(n, budget, move, m, n');
  }

  lemma ShowAfterFollows(n: Net, budget: nat, m: Net, r: Reg, screen: seq<Byte>)
    requires Follows(Moves(budget), n, m) && CanShow(m, budget, r, screen)
    ensures CanShow(n, budget, r, screen)
  {
    var n' :| Follows(Moves(budget), m, n') && Shows(n', budget, r, screen);
    FollowsTwice(Moves(budget), n, m, n');
  }

  /** One that is not lagged and has a snapshot in its stream. */
  lemma CurrentCanShow(n: Net, budget: nat, r: Reg)
    requires Served(n, budget, r) && !n.fan.subs[r].lagged && Replay(Stream(n.fan.subs[r])).Some?
    ensures CanShow(n, budget, r, n.screen)
  {
    MailboxDrains(n, budget, r, Work(n.fan.subs[r]));
    var m :| DrainedIn(n, budget, r, m);
    DrainedShows(m, budget, r);
  }

  lemma LaggedCanShow(n: Net, budget: nat, r: Reg)
    requires Served(n, budget, r) && n.fan.subs[r].lagged
    ensures CanShow(n, budget, r, n.screen)
  {
    MailboxDrains(n, budget, r, Work(n.fan.subs[r]));
    var m :| DrainedIn(n, budget, r, m);
    var move, u := CanResync(m, budget, r, 1);
    CurrentCanShow(u, budget, r);
    ShowAfter(m, budget, move, u, r, n.screen);
    ShowAfterFollows(n, budget, m, r, n.screen);
  }

  /** From every reachable moment of a session that is not retired, a listed subscriber
      whose socket is intact, lagged or not, however much it still owes and whoever holds
      its socket, can come to show exactly the mirrored terminal; without a lag it needs a
      snapshot in its stream for that, and there is no other condition. */
  lemma CanCatchUp(n: Net, budget: nat, r: Reg)
    requires Served(n, budget, r)
    ensures n.fan.subs[r].lagged || Replay(Stream(n.fan.subs[r])).Some? ==> CanShow(n, budget, r, n.screen)
  {
    if n.fan.subs[r].lagged {
      LaggedCanShow(n, budget, r);
    } else if Replay(Stream(n.fan.subs[r])).Some? {
      CurrentCanShow(n, budget, r);
    }
  }
}
