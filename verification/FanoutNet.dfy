/**
 One session's fanout with its writer tasks and client sockets, step by step.

 The ingestion loop, the attach commands and the resync path are atomic: each
 runs under the fanout lock across (mirror, enqueue), (snapshot, register) or
 (snapshot, resync). Writer tasks interleave freely with them and with each
 other, one socket lock per connection.
 */
module FanoutNet {
  import opened Common
  import opened Fanout

  /** One line on a socket, with the registration that wrote it. */
  datatype Entry = Entry(reg: Reg, kind: Kind, line: EventLine)

  datatype Net = Net(
    fan: Fan,
    screen: seq<Byte>,            // everything mirrored into the headless terminal
    retired: bool,                // the session handle was retired
    finished: bool,               // the final event was delivered
    log: map<Conn, seq<Entry>>,   // lines on each client's socket
    holder: map<Conn, Reg>)       // who holds each socket's writer lock

  datatype Move =
    | Chunk(data: seq<Byte>, len: nat)
    | Status(line: EventLine)
    | Resize(len: nat)
    | Attach(reg: Reg, conn: Conn, kind: Kind, lines: seq<EventLine>)
    | Resync(lines: seq<EventLine>)
    | Detach(kind: Kind, conn: Conn)
    | Final(line: EventLine)
    | Retire
    | Receive(reg: Reg)
    | Lock(reg: Reg)
    | Write(reg: Reg, ok: bool)
    | Account(reg: Reg)

  /** Initial and recovery events: the snapshot of this very moment and statuses. */
  ghost predicate FreshLines(lines: seq<EventLine>, screen: seq<Byte>) {
    forall i :: 0 <= i < |lines| ==> lines[i].body == Snapshot(screen) || lines[i].body.Other?
  }

  // --------------------------------------------------------------- writers

  /** The writer task of one registration, before and after a move. A cancelled
      task that takes the lock drops its line and ends. */
  ghost predicate WriterMoves(sub: Subscriber, move: Move, sub': Subscriber) {
    && !sub.closed
    && match move
       case Receive(_) =>
         && sub.hand.Empty? && sub.queue != []
         && sub' == sub.(hand := Has(sub.queue[0]), queue := sub.queue[1..])
       case Lock(_) =>
         && sub.hand.Has?
         && (sub.cancelled ==> sub' == sub.(hand := Empty, closed := true))
         && (!sub.cancelled ==> sub' == sub.(hand := Writing(sub.hand.line)))
       case Write(_, ok) =>
         && sub.hand.Writing?
         && sub' == sub.(hand := Wrote(sub.hand.line, ok), sent := sub.sent + if ok then [sub.hand.line] else [])
       case Account(_) =>
         && sub.hand.Wrote? && sub.pending >= sub.hand.line.len
         && sub' == sub.(hand := Empty, pending := sub.pending - sub.hand.line.len, closed := !sub.hand.ok)
       case _ => false
  }

  function Locks(n: Net, r: Reg, sub: Subscriber, move: Move): map<Conn, Reg> {
    match move
    case Lock(_) => if sub.cancelled then n.holder else n.holder[sub.conn := r]
    case Write(_, _) => n.holder - {sub.conn}
    case _ => n.holder
  }

  function LogOf(log: map<Conn, seq<Entry>>, conn: Conn): seq<Entry> {
    if conn in log then log[conn] else []
  }

  function Logged(n: Net, r: Reg, sub: Subscriber, move: Move): map<Conn, seq<Entry>> {
    if move.Write? && move.ok && sub.hand.Writing?
    then n.log[sub.conn := LogOf(n.log, sub.conn) + [Entry(r, sub.kind, sub.hand.line)]]
    else n.log
  }

  predicate IsWriterMove(move: Move) {
    move.Receive? || move.Lock? || move.Write? || move.Account?
  }

  /** Disconnecting a subscriber that holds a socket lock lets the lock go. */
  function Released(holder: map<Conn, Reg>, subs: map<Reg, Subscriber>): map<Conn, Reg> {
    map c | c in holder && holder[c] in subs && subs[holder[c]].hand.Writing? :: holder[c]
  }

  // ---------------------------------------------------------------- system

  /** One writer task moves; it waits while another holds its socket's lock. */
  ghost predicate WriterStep(n: Net, move: Move, n': Net) {
    && IsWriterMove(move)
    && var r := move.reg;
    && r in n.fan.subs && r in n'.fan.subs
    && (move.Lock? ==> n.fan.subs[r].conn !in n.holder)
    && WriterMoves(n.fan.subs[r], move, n'.fan.subs[r])
    && n' == n.(fan := n.fan.(subs := n.fan.subs[r := n'.fan.subs[r]]),
                log := Logged(n, r, n.fan.subs[r], move), holder := Locks(n, r, n.fan.subs[r], move))
  }

  ghost predicate Next(n: Net, budget: nat, move: Move, n': Net) {
    match move
    case Chunk(data, len) =>
      // A handle retired while it mirrors publishes nothing.
      && len > 0 && n'.screen == n.screen + data
      && n' == n.(screen := n'.screen, fan := n'.fan)
      && (n.retired ==> n'.fan == n.fan)
      && (!n.retired ==> n'.fan == AfterEnqueue(n.fan, Line(Output(data), len), budget))
    case Status(line) => line.body.Other? && n' == n.(fan := AfterEnqueue(n.fan, line, budget))
    case Resize(len) => len > 0 && n' == n.(fan := AfterEnqueue(n.fan, Line(Snapshot(n.screen), len), budget))
    case Attach(reg, conn, kind, lines) =>
      && !n.retired && !n.finished && FreshLines(lines, n.screen)
      && (forall q :: q in n.fan.subs ==> q < reg)
      && n' == n.(fan := AfterRegister(n.fan, reg, conn, kind, lines))
    case Resync(lines) =>
      && !n.retired && FreshLines(lines, n.screen) && lines != [] && lines[0].body.Snapshot?
      && n' == n.(fan := AfterResync(n.fan, lines))
    case Detach(kind, conn) => n' == n.(fan := AfterRemove(n.fan, kind, conn))
    case Final(line) =>
      && line.body.Other?
      && n' == n.(fan := AfterFinal(n.fan, line), finished := true,
                  holder := Released(n.holder, AfterFinal(n.fan, line).subs))
    case Retire => n' == n.(retired := true)
    case _ => WriterStep(n, move, n')
  }

  ghost predicate Initial(n: Net) {
    n.fan == Fan(map[], [], []) && !n.retired && !n.finished && n.log == map[] && n.holder == map[]
  }

  ghost predicate Linked(n: Net, budget: nat, n': Net) {
    exists move :: Next(n, budget, move, n')
  }

  ghost predicate StepAt(run: seq<Net>, budget: nat, i: nat)
    requires 0 < i < |run|
  {
    Linked(run[i - 1], budget, run[i])
  }

  ghost predicate Run(run: seq<Net>, budget: nat) {
    run != [] && Initial(run[0]) && forall i :: 0 < i < |run| ==> StepAt(run, budget, i)
  }

  // ---------------------------------------------------------------- replay

  /** A client's terminal after one more line. */
  function Feed(screen: Option<seq<Byte>>, line: EventLine): Option<seq<Byte>> {
    match line.body
    case Snapshot(s) => Some(s)
    case Output(d) => if screen.Some? then Some(screen.value + d) else None
    case Other => screen
  }

  /** A client's terminal after a stream of lines; none until a first snapshot. */
  function Replay(lines: seq<EventLine>): Option<seq<Byte>> {
    if lines == [] then None else Feed(Replay(lines[..|lines| - 1]), lines[|lines| - 1])
  }

  lemma ReplaySnoc(lines: seq<EventLine>, line: EventLine)
    ensures Replay(lines + [line]) == Feed(Replay(lines), line)
  {
    assert (lines + [line])[..|lines + [line]| - 1] == lines;
  }

  ghost predicate HasSnapshot(lines: seq<EventLine>) {
    exists i :: 0 <= i < |lines| && lines[i].body.Snapshot?
  }

  lemma HasSnapshotSnoc(lines: seq<EventLine>, n: nat)
    requires n + 1 == |lines|
    ensures HasSnapshot(lines) <==> HasSnapshot(lines[..n]) || lines[n].body.Snapshot?
  {
    if HasSnapshot(lines[..n]) {
      var i :| 0 <= i < n && lines[..n][i].body.Snapshot?;
      assert lines[i].body.Snapshot?;
    }
    if HasSnapshot(lines) {
      var i :| 0 <= i < |lines| && lines[i].body.Snapshot?;
      assert i < n ==> lines[..n][i].body.Snapshot?;
    }
  }

  lemma {:induction false} ReplayFresh(lines: seq<EventLine>, more: seq<EventLine>, screen: seq<Byte>)
    requires FreshLines(more, screen)
    ensures Replay(lines + more) == if HasSnapshot(more) then Some(screen) else Replay(lines)
  {
    if more == [] {
      assert lines + more == lines;
    } else {
      var n := |more| - 1;
      ReplayFresh(lines, more[..n], screen);
      assert lines + more == (lines + more[..n]) + [more[n]];
      ReplaySnoc(lines + more[..n], more[n]);
      HasSnapshotSnoc(more, n);
    }
  }

  /** Whatever came before, a stream that has a screen of its own shows that. */
  lemma {:induction false} ReplayCutover(before: seq<EventLine>, lines: seq<EventLine>)
    requires Replay(lines).Some?
    ensures Replay(before + lines) == Replay(lines)
  {
    var n := |lines| - 1;
    assert before + lines == (before + lines[..n]) + [lines[n]];
    ReplaySnoc(before + lines[..n], lines[n]);
    if !lines[n].body.Snapshot? {
      ReplayCutover(before, lines[..n]);
    }
  }

  // --------------------------------------------------------- one subscriber

  function InHand(hand: Hand): seq<EventLine> {
    if hand.Has? || hand.Writing? then [hand.line] else []
  }

  function HandSize(hand: Hand): nat {
    if hand.Empty? then 0 else hand.line.len
  }

  /** Everything this registration has put, or will put, on its socket. */
  function Stream(sub: Subscriber): seq<EventLine> {
    sub.sent + InHand(sub.hand) + sub.queue
  }

  predicate Broken(sub: Subscriber) {
    sub.closed || (sub.hand.Wrote? && !sub.hand.ok)
  }

  function Max(a: nat, b: nat): nat {
    if a < b then b else a
  }

  /** The mailbox account is exact and within the documented bound. */
  ghost predicate Bounded(sub: Subscriber, budget: nat) {
    && sub.pending == Size(sub.queue) + HandSize(sub.hand)
    && sub.pending <= Max(budget, sub.batch)
  }

  /** The stream reconstructs the mirrored terminal: exactly while not lagged,
      an earlier moment of it while lagged. */
  ghost predicate Faithful(sub: Subscriber, screen: seq<Byte>) {
    Replay(Stream(sub)).Some? ==>
      if sub.lagged then Replay(Stream(sub)).value <= screen else Replay(Stream(sub)).value == screen
  }

  /** A line that takes a terminal from one screen to the next. */
  ghost predicate Carries(line: EventLine, before: seq<Byte>, after: seq<Byte>) {
    match line.body
    case Snapshot(s) => s == before == after
    case Output(d) => after == before + d
    case Other => after == before
  }

  lemma OfferFaithful(sub: Subscriber, line: EventLine, budget: nat, before: seq<Byte>, after: seq<Byte>)
    requires Carries(line, before, after) && before <= after && !sub.closed && Faithful(sub, before)
    ensures Faithful(Offer(sub, line, budget), after)
  {
    var next := Offer(sub, line, budget);
    if !sub.lagged && !next.lagged {
      assert Stream(next) == Stream(sub) + [line];
      ReplaySnoc(Stream(sub), line);
    } else {
      assert Stream(next) == Stream(sub);
    }
  }

  lemma OfferBounded(sub: Subscriber, line: EventLine, budget: nat)
    requires Bounded(sub, budget) && !sub.closed
    ensures Bounded(Offer(sub, line, budget), budget)
  {
    SizeAppend(sub.queue, [line]);
  }

  /** A resync batch enters only an empty mailbox. */
  lemma DrainedIsEmpty(sub: Subscriber, budget: nat)
    requires Bounded(sub, budget) && Drained(sub)
    ensures sub.queue == [] && sub.hand.Empty?
  {
    EmptyHasNoSize(sub.queue);
  }

  lemma RefilledGood(sub: Subscriber, next: Subscriber, lines: seq<EventLine>, budget: nat, screen: seq<Byte>)
    requires sub.queue == [] && sub.hand.Empty? && sub.pending == 0
    requires FreshLines(lines, screen) && lines != [] && lines[0].body.Snapshot?
    requires next == sub.(queue := lines, pending := Size(lines), lagged := false, batch := Size(lines))
    ensures Bounded(next, budget) && Faithful(next, screen)
  {
    var before := Stream(sub);
    assert Stream(next) == before + lines;
    ReplayFresh(before, lines, screen);
  }

  lemma RefillGood(sub: Subscriber, lines: seq<EventLine>, budget: nat, screen: seq<Byte>)
    requires Bounded(sub, budget) && (!Broken(sub) ==> Faithful(sub, screen)) && !sub.closed
    requires FreshLines(lines, screen) && lines != [] && lines[0].body.Snapshot?
    ensures Bounded(Refill(sub, lines), budget) && (!Broken(sub) ==> Faithful(Refill(sub, lines), screen))
  {
    if Drained(sub) {
      DrainedIsEmpty(sub, budget);
      assert sub.queue + lines == lines;
      RefilledGood(sub, Refill(sub, lines), lines, budget, screen);
    } else {
      assert Refill(sub, lines) == sub;
    }
  }

  lemma FreshGood(conn: Conn, kind: Kind, lines: seq<EventLine>, budget: nat, screen: seq<Byte>)
    requires FreshLines(lines, screen)
    ensures Bounded(Fresh(conn, kind, lines), budget) && Faithful(Fresh(conn, kind, lines), screen)
  {
    assert Stream(Fresh(conn, kind, lines)) == [] + lines;
    ReplayFresh([], lines, screen);
  }

  lemma WriterBounded(sub: Subscriber, move: Move, sub': Subscriber, budget: nat)
    requires WriterMoves(sub, move, sub') && Bounded(sub, budget)
    ensures !sub'.closed ==> Bounded(sub', budget)
    ensures sub'.conn == sub.conn && sub'.kind == sub.kind && sub'.cancelled == sub.cancelled
  {
    if move.Receive? {
      assert sub.queue == [sub.queue[0]] + sub.queue[1..];
      SizeAppend([sub.queue[0]], sub.queue[1..]);
    }
  }

  lemma WriterGood(sub: Subscriber, move: Move, sub': Subscriber, budget: nat, screen: seq<Byte>)
    requires WriterMoves(sub, move, sub') && Bounded(sub, budget) && (!Broken(sub) ==> Faithful(sub, screen))
    ensures !sub'.closed ==> Bounded(sub', budget)
    ensures !Broken(sub') ==> Faithful(sub', screen)
  {
    WriterBounded(sub, move, sub', budget);
    if !Broken(sub') {
      assert Stream(sub') == Stream(sub);
    }
  }

  // ------------------------------------------------------- all subscribers

  /** Every listed subscriber is bounded and, unless its socket broke, faithful. */
  ghost predicate Good(fan: Fan, screen: seq<Byte>, retired: bool, budget: nat) {
    forall r :: r in fan.subs && Current(fan, r) && !fan.subs[r].closed ==>
      Bounded(fan.subs[r], budget) && (!retired && !Broken(fan.subs[r]) ==> Faithful(fan.subs[r], screen))
  }

  lemma EnqueueGood(fan: Fan, line: EventLine, retired: bool, budget: nat, before: seq<Byte>, after: seq<Byte>)
    requires WellFormed(fan) && Good(fan, before, retired, budget) && Carries(line, before, after) && before <= after
    ensures Good(AfterEnqueue(fan, line, budget), after, retired, budget)
  {
    var next := AfterEnqueue(fan, line, budget);
    WithoutMembers(fan.attached, ClosedIn(fan.subs, fan.attached));
    WithoutMembers(fan.observers, ClosedIn(fan.subs, fan.observers));
    forall r | r in next.subs && Current(next, r) && !next.subs[r].closed
      ensures Bounded(next.subs[r], budget) && (!retired && !Broken(next.subs[r]) ==> Faithful(next.subs[r], after))
    {
      assert next.subs[r] == Offer(fan.subs[r], line, budget);
      OfferBounded(fan.subs[r], line, budget);
      if !retired && !Broken(fan.subs[r]) {
        OfferFaithful(fan.subs[r], line, budget, before, after);
      }
    }
  }

  lemma ResyncGood(fan: Fan, lines: seq<EventLine>, budget: nat, screen: seq<Byte>)
    requires WellFormed(fan) && Good(fan, screen, false, budget)
    requires FreshLines(lines, screen) && lines != [] && lines[0].body.Snapshot?
    ensures Good(AfterResync(fan, lines), screen, false, budget)
  {
    var next := AfterResync(fan, lines);
    forall r | r in next.subs && Current(next, r) && !next.subs[r].closed
      ensures Bounded(next.subs[r], budget) && (!Broken(next.subs[r]) ==> Faithful(next.subs[r], screen))
    {
      assert next.subs[r] == Refill(fan.subs[r], lines);
      RefillGood(fan.subs[r], lines, budget, screen);
    }
  }

  lemma RegisterGood(fan: Fan, reg: Reg, conn: Conn, kind: Kind, lines: seq<EventLine>, budget: nat, screen: seq<Byte>)
    requires WellFormed(fan) && reg !in fan.subs && Good(fan, screen, false, budget) && FreshLines(lines, screen)
    ensures Good(AfterRegister(fan, reg, conn, kind, lines), screen, false, budget)
  {
    var next := AfterRegister(fan, reg, conn, kind, lines);
    var gone := Of(fan.subs, ListOf(fan, kind), conn);
    WithoutMembers(ListOf(fan, kind), gone);
    FreshGood(conn, kind, lines, budget, screen);
    forall r | r in next.subs && Current(next, r) && r != reg
      ensures r in fan.subs && Current(fan, r) && next.subs[r] == fan.subs[r]
    {
    }
  }

  lemma RemoveGood(fan: Fan, kind: Kind, conn: Conn, retired: bool, budget: nat, screen: seq<Byte>)
    requires WellFormed(fan) && Good(fan, screen, retired, budget)
    ensures Good(AfterRemove(fan, kind, conn), screen, retired, budget)
  {
    var next := AfterRemove(fan, kind, conn);
    WithoutMembers(ListOf(fan, kind), Of(fan.subs, ListOf(fan, kind), conn));
    forall r | r in next.subs && Current(next, r)
      ensures r in fan.subs && Current(fan, r) && next.subs[r] == fan.subs[r]
    {
    }
  }

  lemma WriterKeepsGood(fan: Fan, r: Reg, move: Move, sub: Subscriber, screen: seq<Byte>, retired: bool, budget: nat)
    requires Good(fan, screen, retired, budget) && r in fan.subs && WriterMoves(fan.subs[r], move, sub)
    ensures Good(fan.(subs := fan.subs[r := sub]), screen, retired, budget)
  {
    if Current(fan, r) {
      if retired {
        WriterBounded(fan.subs[r], move, sub, budget);
      } else {
        WriterGood(fan.subs[r], move, sub, budget, screen);
      }
    }
  }

  // ------------------------------------------------------ order on sockets

  /** The lines one registration put on a socket. */
  function LinesOf(log: seq<Entry>, r: Reg): seq<EventLine> {
    if log == [] then []
    else
      var last := log[|log| - 1];
      LinesOf(log[..|log| - 1], r) + if last.reg == r then [last.line] else []
  }

  predicate Same(a: Subscriber, b: Subscriber) {
    a.conn == b.conn && a.kind == b.kind
  }

  /** An older registration of the same connection and kind is cancelled or over. */
  ghost predicate Superseded(subs: map<Reg, Subscriber>) {
    forall q, r :: q in subs && r in subs && q < r && Same(subs[q], subs[r]) ==> subs[q].cancelled || subs[q].closed
  }

  /** Whoever writes holds its socket's lock, and whoever holds it writes. */
  ghost predicate LockOwned(subs: map<Reg, Subscriber>, holder: map<Conn, Reg>) {
    && (forall r :: r in subs && subs[r].hand.Writing? ==> subs[r].conn in holder && holder[subs[r].conn] == r)
    && (forall c :: c in holder ==> holder[c] in subs && subs[holder[c]].conn == c && subs[holder[c]].hand.Writing?)
    && (forall r :: r in subs && subs[r].closed ==> subs[r].hand.Empty?)
  }

  /** Once a newer registration has begun to write, an older one is not writing. */
  ghost predicate Cutover(subs: map<Reg, Subscriber>) {
    forall q, r :: q in subs && r in subs && q < r && Same(subs[q], subs[r]) ==>
      (subs[r].sent != [] || subs[r].hand.Writing? ==> !subs[q].hand.Writing?)
  }

  ghost predicate Sorted(log: seq<Entry>) {
    forall i, j :: 0 <= i < j < |log| && log[i].kind == log[j].kind ==> log[i].reg <= log[j].reg
  }

  ghost predicate LogMatches(subs: map<Reg, Subscriber>, log: map<Conn, seq<Entry>>) {
    && (forall c :: c in log ==> Sorted(log[c]) && EntriesOf(subs, c, log[c]))
    && (forall r :: r in subs ==> subs[r].sent == LinesOf(LogOf(log, subs[r].conn), r))
  }

  /** Every entry on a socket belongs to a registration of that connection. */
  ghost predicate EntriesOf(subs: map<Reg, Subscriber>, c: Conn, log: seq<Entry>) {
    forall i :: 0 <= i < |log| ==>
      && log[i].reg in subs && subs[log[i].reg].conn == c && subs[log[i].reg].kind == log[i].kind
      && subs[log[i].reg].sent != []
  }

  /** A registration leaves its list only cancelled, closed or at the end. */
  ghost predicate Accounted(fan: Fan, finished: bool) {
    forall r :: r in fan.subs && !Current(fan, r) ==> fan.subs[r].cancelled || fan.subs[r].closed || finished
  }

  ghost predicate Inv(n: Net, budget: nat) {
    && WellFormed(n.fan)
    && Good(n.fan, n.screen, n.retired, budget)
    && Accounted(n.fan, n.finished)
    && Superseded(n.fan.subs)
    && LockOwned(n.fan.subs, n.holder)
    && Cutover(n.fan.subs)
    && LogMatches(n.fan.subs, n.log)
  }

  /** What registry operations may do to a registration already made. */
  ghost predicate Onward(sub: Subscriber, sub': Subscriber) {
    && Same(sub, sub') && sub'.sent == sub.sent
    && (sub.cancelled ==> sub'.cancelled) && (sub.closed ==> sub'.closed)
    && (sub'.hand == sub.hand || (sub'.closed && sub'.hand.Empty?))
    && (sub'.closed && !sub.closed ==> sub'.hand.Empty?)
  }

  ghost predicate AllOnward(subs: map<Reg, Subscriber>, subs': map<Reg, Subscriber>) {
    forall r :: r in subs ==> r in subs' && Onward(subs[r], subs'[r])
  }

  lemma OnwardOrder(subs: map<Reg, Subscriber>, subs': map<Reg, Subscriber>, log: map<Conn, seq<Entry>>)
    requires AllOnward(subs, subs') && subs'.Keys == subs.Keys
    requires Superseded(subs) && Cutover(subs) && LogMatches(subs, log)
    ensures Superseded(subs') && Cutover(subs') && LogMatches(subs', log)
  {
  }

  lemma OnwardLocks(subs: map<Reg, Subscriber>, subs': map<Reg, Subscriber>, holder: map<Conn, Reg>)
    requires AllOnward(subs, subs') && subs'.Keys == subs.Keys && LockOwned(subs, holder)
    requires forall r :: r in subs ==> subs'[r].hand == subs[r].hand && subs'[r].closed == subs[r].closed
    ensures LockOwned(subs', holder)
  {
  }

  lemma FinalLocks(subs: map<Reg, Subscriber>, subs': map<Reg, Subscriber>, holder: map<Conn, Reg>)
    requires AllOnward(subs, subs') && subs'.Keys == subs.Keys && LockOwned(subs, holder)
    ensures LockOwned(subs', Released(holder, subs'))
  {
  }

  lemma {:induction false} NoLines(log: seq<Entry>, r: Reg)
    requires forall i :: 0 <= i < |log| ==> log[i].reg != r
    ensures LinesOf(log, r) == []
  {
    if log != [] {
      NoLines(log[..|log| - 1], r);
    }
  }

  lemma LinesSnoc(log: seq<Entry>, e: Entry, r: Reg)
    ensures LinesOf(log + [e], r) == LinesOf(log, r) + if e.reg == r then [e.line] else []
  {
    assert (log + [e])[..|log + [e]| - 1] == log;
  }

  // ------------------------------------------------- the invariant is kept

  /** Registry operations other than attaching keep every ordering fact. */
  lemma OnwardInv(n: Net, budget: nat, n': Net)
    requires Inv(n, budget) && n'.log == n.log
    requires AllOnward(n.fan.subs, n'.fan.subs) && n'.fan.subs.Keys == n.fan.subs.Keys
    requires WellFormed(n'.fan) && Good(n'.fan, n'.screen, n'.retired, budget) && Accounted(n'.fan, n'.finished)
    requires LockOwned(n'.fan.subs, n'.holder)
    ensures Inv(n', budget)
  {
    OnwardOrder(n.fan.subs, n'.fan.subs, n.log);
  }

  lemma EnqueueOnward(fan: Fan, line: EventLine, budget: nat)
    ensures var subs' := AfterEnqueue(fan, line, budget).subs;
            && AllOnward(fan.subs, subs') && subs'.Keys == fan.subs.Keys
            && forall r :: r in fan.subs ==> subs'[r].hand == fan.subs[r].hand && subs'[r].closed == fan.subs[r].closed
  {
  }

  lemma EnqueueAccounted(fan: Fan, line: EventLine, budget: nat, finished: bool)
    requires WellFormed(fan) && Accounted(fan, finished)
    ensures Accounted(AfterEnqueue(fan, line, budget), finished)
  {
    EnqueueOnward(fan, line, budget);
    WithoutMembers(fan.attached, ClosedIn(fan.subs, fan.attached));
    WithoutMembers(fan.observers, ClosedIn(fan.subs, fan.observers));
  }

  lemma EnqueueInv(n: Net, budget: nat, line: EventLine, screen: seq<Byte>, n': Net)
    requires Inv(n, budget) && Carries(line, n.screen, screen) && n.screen <= screen
    requires n' == n.(screen := screen, fan := AfterEnqueue(n.fan, line, budget))
    ensures Inv(n', budget)
  {
    EnqueueWellFormed(n.fan, line, budget);
    EnqueueGood(n.fan, line, n.retired, budget, n.screen, screen);
    EnqueueOnward(n.fan, line, budget);
    EnqueueAccounted(n.fan, line, budget, n.finished);
    OnwardLocks(n.fan.subs, n'.fan.subs, n.holder);
    OnwardInv(n, budget, n');
  }

  lemma ResyncInv(n: Net, budget: nat, lines: seq<EventLine>, n': Net)
    requires Inv(n, budget) && Next(n, budget, Resync(lines), n')
    ensures Inv(n', budget)
  {
    ResyncGood(n.fan, lines, budget, n.screen);
    ResyncOnward(n.fan, lines, n.holder);
    OnwardInv(n, budget, n');
  }

  lemma ResyncOnward(fan: Fan, lines: seq<EventLine>, holder: map<Conn, Reg>)
    requires WellFormed(fan) && LockOwned(fan.subs, holder)
    ensures var fan' := AfterResync(fan, lines);
            AllOnward(fan.subs, fan'.subs) && fan'.subs.Keys == fan.subs.Keys && LockOwned(fan'.subs, holder) && WellFormed(fan')
  {
    OnwardLocks(fan.subs, AfterResync(fan, lines).subs, holder);
  }

  lemma RemoveOnward(fan: Fan, kind: Kind, conn: Conn, holder: map<Conn, Reg>, finished: bool)
    requires WellFormed(fan) && LockOwned(fan.subs, holder) && Accounted(fan, finished)
    ensures var fan' := AfterRemove(fan, kind, conn);
            AllOnward(fan.subs, fan'.subs) && fan'.subs.Keys == fan.subs.Keys && LockOwned(fan'.subs, holder) && Accounted(fan', finished)
  {
    WithoutMembers(ListOf(fan, kind), Of(fan.subs, ListOf(fan, kind), conn));
    OnwardLocks(fan.subs, AfterRemove(fan, kind, conn).subs, holder);
  }

  lemma DetachInv(n: Net, budget: nat, kind: Kind, conn: Conn, n': Net)
    requires Inv(n, budget) && Next(n, budget, Detach(kind, conn), n')
    ensures Inv(n', budget)
  {
    RemoveWellFormed(n.fan, kind, conn);
    RemoveGood(n.fan, kind, conn, n.retired, budget, n.screen);
    RemoveOnward(n.fan, kind, conn, n.holder, n.finished);
    OnwardInv(n, budget, n');
  }

  lemma FinalOnward(fan: Fan, line: EventLine, holder: map<Conn, Reg>)
    requires WellFormed(fan) && LockOwned(fan.subs, holder)
    ensures var fan' := AfterFinal(fan, line);
            AllOnward(fan.subs, fan'.subs) && fan'.subs.Keys == fan.subs.Keys && LockOwned(fan'.subs, Released(holder, fan'.subs))
  {
    FinalLocks(fan.subs, AfterFinal(fan, line).subs, holder);
  }

  lemma FinalInv(n: Net, budget: nat, line: EventLine, n': Net)
    requires Inv(n, budget) && Next(n, budget, Final(line), n')
    ensures Inv(n', budget)
  {
    FinalOnward(n.fan, line, n.holder);
    OnwardInv(n, budget, n');
  }

  /** A new registration supersedes its connection's older ones of that kind. */
  lemma AddOrder(subs: map<Reg, Subscriber>, reg: Reg, sub: Subscriber, holder: map<Conn, Reg>)
    requires Superseded(subs) && Cutover(subs) && LockOwned(subs, holder) && forall q :: q in subs ==> q < reg
    requires forall q :: q in subs && Same(subs[q], sub) ==> subs[q].cancelled || subs[q].closed
    requires sub.sent == [] && sub.hand.Empty?
    ensures Superseded(subs[reg := sub]) && Cutover(subs[reg := sub]) && LockOwned(subs[reg := sub], holder)
  {
  }

  lemma CancelOrder(subs: map<Reg, Subscriber>, gone: set<Reg>, holder: map<Conn, Reg>)
    requires Superseded(subs) && Cutover(subs) && LockOwned(subs, holder)
    ensures var subs' := Cancelled(subs, gone); Superseded(subs') && Cutover(subs') && LockOwned(subs', holder)
  {
    OnwardLocks(subs, Cancelled(subs, gone), holder);
  }

  lemma AttachLog(subs: map<Reg, Subscriber>, gone: set<Reg>, reg: Reg, sub: Subscriber, log: map<Conn, seq<Entry>>, subs': map<Reg, Subscriber>)
    requires LogMatches(subs, log) && reg !in subs && sub.sent == []
    requires subs' == Cancelled(subs, gone)[reg := sub]
    ensures LogMatches(subs', log)
  {
    if sub.conn in log {
      assert EntriesOf(subs, sub.conn, log[sub.conn]);
    }
    NoLines(LogOf(log, sub.conn), reg);
    forall c | c in log ensures EntriesOf(subs', c, log[c]) {
      assert EntriesOf(subs, c, log[c]);
    }
  }

  lemma AttachAccounted(fan: Fan, reg: Reg, conn: Conn, kind: Kind, lines: seq<EventLine>)
    requires WellFormed(fan) && Accounted(fan, false)
    ensures Accounted(AfterRegister(fan, reg, conn, kind, lines), false)
    ensures var gone := Of(fan.subs, ListOf(fan, kind), conn);
            forall q :: q in fan.subs && fan.subs[q].conn == conn && fan.subs[q].kind == kind ==>
              q in gone || fan.subs[q].cancelled || fan.subs[q].closed
  {
    WithoutMembers(ListOf(fan, kind), Of(fan.subs, ListOf(fan, kind), conn));
  }

  lemma AttachInv(n: Net, budget: nat, reg: Reg, conn: Conn, kind: Kind, lines: seq<EventLine>, n': Net)
    requires Inv(n, budget) && Next(n, budget, Attach(reg, conn, kind, lines), n')
    ensures Inv(n', budget)
  {
    var gone := Of(n.fan.subs, ListOf(n.fan, kind), conn);
    var sub := Fresh(conn, kind, lines);
    RegisterWellFormed(n.fan, reg, conn, kind, lines);
    RegisterGood(n.fan, reg, conn, kind, lines, budget, n.screen);
    AttachAccounted(n.fan, reg, conn, kind, lines);
    CancelOrder(n.fan.subs, gone, n.holder);
    AddOrder(Cancelled(n.fan.subs, gone), reg, sub, n.holder);
    AttachLog(n.fan.subs, gone, reg, sub, n.log, n'.fan.subs);
  }

  /** A writer that takes the lock, writes, or moves on keeps the cutover. */
  lemma WriterOrder(subs: map<Reg, Subscriber>, holder: map<Conn, Reg>, r: Reg, move: Move, sub: Subscriber)
    requires Superseded(subs) && LockOwned(subs, holder) && Cutover(subs)
    requires r in subs && WriterMoves(subs[r], move, sub) && (move.Lock? ==> subs[r].conn !in holder)
    ensures Superseded(subs[r := sub]) && Cutover(subs[r := sub])
  {
  }

  lemma WriterLocks(n: Net, r: Reg, move: Move, sub: Subscriber)
    requires LockOwned(n.fan.subs, n.holder)
    requires r in n.fan.subs && WriterMoves(n.fan.subs[r], move, sub) && (move.Lock? ==> n.fan.subs[r].conn !in n.holder)
    ensures LockOwned(n.fan.subs[r := sub], Locks(n, r, n.fan.subs[r], move))
  {
  }

  lemma QuietLog(subs: map<Reg, Subscriber>, log: map<Conn, seq<Entry>>, r: Reg, sub: Subscriber)
    requires LogMatches(subs, log) && r in subs && Same(subs[r], sub) && sub.sent == subs[r].sent
    ensures LogMatches(subs[r := sub], log)
  {
    forall c | c in log ensures EntriesOf(subs[r := sub], c, log[c]) {
      assert EntriesOf(subs, c, log[c]);
    }
  }

  /** The line written last belongs to the newest registration that ever wrote. */
  lemma WriteSorted(subs: map<Reg, Subscriber>, log: seq<Entry>, r: Reg)
    requires r in subs && subs[r].hand.Writing? && Cutover(subs) && Sorted(log) && EntriesOf(subs, subs[r].conn, log)
    ensures Sorted(log + [Entry(r, subs[r].kind, subs[r].hand.line)])
  {
  }

  lemma WriteEntries(subs: map<Reg, Subscriber>, log: seq<Entry>, c: Conn, r: Reg, sub: Subscriber)
    requires r in subs && Same(subs[r], sub) && sub.sent != [] && EntriesOf(subs, c, log)
    ensures EntriesOf(subs[r := sub], c, log)
    ensures subs[r].conn == c ==> forall line :: EntriesOf(subs[r := sub], c, log + [Entry(r, sub.kind, line)])
  {
  }

  lemma WriteLines(subs: map<Reg, Subscriber>, log: map<Conn, seq<Entry>>, r: Reg, sub: Subscriber, line: EventLine, log': map<Conn, seq<Entry>>)
    requires r in subs && Same(subs[r], sub) && sub.sent == subs[r].sent + [line]
    requires forall q :: q in subs ==> subs[q].sent == LinesOf(LogOf(log, subs[q].conn), q)
    requires log' == log[sub.conn := LogOf(log, sub.conn) + [Entry(r, sub.kind, line)]]
    ensures forall q :: q in subs ==> subs[r := sub][q].sent == LinesOf(LogOf(log', subs[q].conn), q)
  {
    forall q | q in subs ensures subs[r := sub][q].sent == LinesOf(LogOf(log', subs[q].conn), q) {
      LinesSnoc(LogOf(log, sub.conn), Entry(r, sub.kind, line), q);
    }
  }

  lemma WriteConn(subs: map<Reg, Subscriber>, log: seq<Entry>, c: Conn, r: Reg, sub: Subscriber)
    requires r in subs && subs[r].hand.Writing? && subs[r].conn == c && Same(subs[r], sub) && sub.sent != []
    requires Cutover(subs) && Sorted(log) && EntriesOf(subs, c, log)
    ensures var more := log + [Entry(r, sub.kind, subs[r].hand.line)]; Sorted(more) && EntriesOf(subs[r := sub], c, more)
  {
    WriteEntries(subs, log, c, r, sub);
    WriteSorted(subs, log, r);
  }

  lemma WriteSockets(subs: map<Reg, Subscriber>, log: map<Conn, seq<Entry>>, r: Reg, sub: Subscriber, log': map<Conn, seq<Entry>>)
    requires r in subs && subs[r].hand.Writing? && Same(subs[r], sub) && sub.sent != [] && Cutover(subs)
    requires forall c :: c in log ==> Sorted(log[c]) && EntriesOf(subs, c, log[c])
    requires log' == log[sub.conn := LogOf(log, sub.conn) + [Entry(r, sub.kind, subs[r].hand.line)]]
    ensures forall c :: c in log' ==> Sorted(log'[c]) && EntriesOf(subs[r := sub], c, log'[c])
  {
    forall c | c in log' ensures Sorted(log'[c]) && EntriesOf(subs[r := sub], c, log'[c]) {
      if c == sub.conn {
        WriteConn(subs, LogOf(log, c), c, r, sub);
      } else {
        WriteEntries(subs, log[c], c, r, sub);
      }
    }
  }

  lemma WriteLog(n: Net, r: Reg, sub: Subscriber)
    requires Cutover(n.fan.subs) && LogMatches(n.fan.subs, n.log) && r in n.fan.subs
    requires WriterMoves(n.fan.subs[r], Write(r, true), sub)
    ensures LogMatches(n.fan.subs[r := sub], Logged(n, r, n.fan.subs[r], Write(r, true)))
  {
    var log' := Logged(n, r, n.fan.subs[r], Write(r, true));
    WriteLines(n.fan.subs, n.log, r, sub, n.fan.subs[r].hand.line, log');
    WriteSockets(n.fan.subs, n.log, r, sub, log');
  }

  lemma WriterLog(n: Net, r: Reg, move: Move, sub: Subscriber)
    requires Cutover(n.fan.subs) && LogMatches(n.fan.subs, n.log) && r in n.fan.subs
    requires IsWriterMove(move) && move.reg == r && WriterMoves(n.fan.subs[r], move, sub)
    ensures LogMatches(n.fan.subs[r := sub], Logged(n, r, n.fan.subs[r], move))
  {
    if move.Write? && move.ok {
      WriteLog(n, r, sub);
    } else {
      QuietLog(n.fan.subs, n.log, r, sub);
    }
  }

  lemma WriterLists(fan: Fan, r: Reg, move: Move, sub: Subscriber, finished: bool)
    requires WellFormed(fan) && Accounted(fan, finished) && r in fan.subs && WriterMoves(fan.subs[r], move, sub)
    ensures var fan' := fan.(subs := fan.subs[r := sub]); WellFormed(fan') && Accounted(fan', finished)
  {
  }

  lemma WriterInv(n: Net, budget: nat, move: Move, n': Net)
    requires Inv(n, budget) && WriterStep(n, move, n')
    ensures Inv(n', budget)
  {
    var r := move.reg;
    var sub := n'.fan.subs[r];
    WriterLists(n.fan, r, move, sub, n.finished);
    WriterKeepsGood(n.fan, r, move, sub, n.screen, n.retired, budget);
    WriterOrder(n.fan.subs, n.holder, r, move, sub);
    WriterLocks(n, r, move, sub);
    WriterLog(n, r, move, sub);
  }

  lemma NextInv(n: Net, budget: nat, move: Move, n': Net)
    requires Inv(n, budget) && Next(n, budget, move, n')
    ensures Inv(n', budget)
  {
    match move
    case Chunk(data, len) =>
      if !n.retired {
        EnqueueInv(n, budget, Line(Output(data), len), n.screen + data, n');
      }
    case Status(line) => EnqueueInv(n, budget, line, n.screen, n');
    case Resize(len) => EnqueueInv(n, budget, Line(Snapshot(n.screen), len), n.screen, n');
    case Attach(reg, conn, kind, lines) => AttachInv(n, budget, reg, conn, kind, lines, n');
    case Resync(lines) => ResyncInv(n, budget, lines, n');
    case Detach(kind, conn) => DetachInv(n, budget, kind, conn, n');
    case Final(line) => FinalInv(n, budget, line, n');
    case Retire =>
    case _ => WriterInv(n, budget, move, n');
  }

  lemma {:induction false} RunInv(run: seq<Net>, budget: nat, i: nat)
    requires Run(run, budget) && i < |run|
    ensures Inv(run[i], budget)
  {
    if i > 0 {
      RunInv(run, budget, i - 1);
      assert StepAt(run, budget, i);
      var move :| Next(run[i - 1], budget, move, run[i]);
      NextInv(run[i - 1], budget, move, run[i]);
    }
  }

  // ------------------------------------------------------------- theorems

  /** Has its writer delivered everything it was given? */
  predicate CaughtUp(sub: Subscriber) {
    !sub.lagged && !Broken(sub) && sub.queue == [] && InHand(sub.hand) == []
  }

  /** In every run, what a caught-up subscriber wrote to its socket replays to
      exactly the mirrored terminal, and what a lagging one wrote and still owes
      replays to an earlier moment of it. */
  lemma CaughtUpIsExact(run: seq<Net>, budget: nat, i: nat, r: Reg)
    requires Run(run, budget) && i < |run| && !run[i].retired
    requires r in run[i].fan.subs && Current(run[i].fan, r) && !Broken(run[i].fan.subs[r])
    ensures var n := run[i]; var sub := n.fan.subs[r];
            && (CaughtUp(sub) && Replay(sub.sent).Some? ==> Replay(sub.sent) == Some(n.screen))
            && (!sub.lagged && Replay(Stream(sub)).Some? ==> Replay(Stream(sub)) == Some(n.screen))
            && (Replay(Stream(sub)).Some? ==> Replay(Stream(sub)).value <= n.screen)
  {
    RunInv(run, budget, i);
    var sub := run[i].fan.subs[r];
    assert Faithful(sub, run[i].screen);
    if CaughtUp(sub) {
      assert Stream(sub) == sub.sent;
    }
  }

  /** In every run a listed mailbox accounts for its bytes exactly and holds no
      more than the budget or its last snapshot batch, whichever is larger. */
  lemma MailboxBounded(run: seq<Net>, budget: nat, i: nat, r: Reg)
    requires Run(run, budget) && i < |run|
    requires r in run[i].fan.subs && Current(run[i].fan, r) && !run[i].fan.subs[r].closed
    ensures var sub := run[i].fan.subs[r];
            sub.pending == Size(sub.queue) + HandSize(sub.hand) && Size(sub.queue) <= sub.pending <= Max(budget, sub.batch)
  {
    RunInv(run, budget, i);
  }

  /** In every run no line of a superseded registration follows a line of the one
      that replaced it on the same connection and kind. */
  lemma NoStaleLines(run: seq<Net>, budget: nat, n: nat, c: Conn, i: nat, j: nat)
    requires Run(run, budget) && n < |run| && c in run[n].log && i < j < |run[n].log[c]|
    requires run[n].log[c][i].kind == run[n].log[c][j].kind
    ensures run[n].log[c][i].reg <= run[n].log[c][j].reg
  {
    RunInv(run, budget, n);
  }

  /** All lines of one kind on a socket, whoever wrote them. */
  function KindLines(log: seq<Entry>, kind: Kind): seq<EventLine> {
    if log == [] then []
    else
      var last := log[|log| - 1];
      KindLines(log[..|log| - 1], kind) + if last.kind == kind then [last.line] else []
  }

  /** The newest registration's lines are the tail of their kind's lines. */
  lemma {:induction false} NewestIsTail(log: seq<Entry>, kind: Kind, r: Reg) returns (before: seq<EventLine>)
    requires Sorted(log)
    requires forall i :: 0 <= i < |log| ==> (log[i].kind == kind ==> log[i].reg <= r) && (log[i].reg == r ==> log[i].kind == kind)
    ensures KindLines(log, kind) == before + LinesOf(log, r)
  {
    if log == [] {
      before := [];
    } else {
      var n := |log| - 1;
      before := NewestIsTail(log[..n], kind, r);
      if log[n].kind == kind && log[n].reg != r {
        NoLines(log[..n], r);
        before := KindLines(log, kind);
      }
    }
  }

  /** What the client sees: in every run, the socket lines of a connection and
      kind, across all its registrations, replay to the mirrored terminal as soon
      as the newest registration has caught up and sent a snapshot. */
  lemma ClientSeesScreen(run: seq<Net>, budget: nat, i: nat, r: Reg)
    requires Run(run, budget) && i < |run| && !run[i].retired
    requires r in run[i].fan.subs && Current(run[i].fan, r)
    requires forall q :: q in run[i].fan.subs && Same(run[i].fan.subs[q], run[i].fan.subs[r]) ==> q <= r
    requires CaughtUp(run[i].fan.subs[r]) && Replay(run[i].fan.subs[r].sent).Some?
    ensures var sub := run[i].fan.subs[r];
            Replay(KindLines(LogOf(run[i].log, sub.conn), sub.kind)) == Some(run[i].screen)
  {
    RunInv(run, budget, i);
    CaughtUpIsExact(run, budget, i, r);
    var sub := run[i].fan.subs[r];
    var log := LogOf(run[i].log, sub.conn);
    if sub.conn in run[i].log {
      assert EntriesOf(run[i].fan.subs, sub.conn, log);
    }
    var before := NewestIsTail(log, sub.kind, r);
    ReplayCutover(before, sub.sent);
  }

  /** A registration whose socket is intact only ever adds to its stream. */
  ghost predicate Grows(sub: Subscriber, sub': Subscriber) {
    && (Broken(sub) ==> Broken(sub'))
    && (Broken(sub') || Stream(sub) <= Stream(sub'))
  }

  lemma EnqueueGrows(fan: Fan, line: EventLine, budget: nat, r: Reg)
    requires r in fan.subs
    ensures var fan' := AfterEnqueue(fan, line, budget); r in fan'.subs && Grows(fan.subs[r], fan'.subs[r])
  {
  }

  lemma ResyncGrows(fan: Fan, lines: seq<EventLine>, r: Reg)
    requires r in fan.subs
    ensures var fan' := AfterResync(fan, lines); r in fan'.subs && Grows(fan.subs[r], fan'.subs[r])
  {
  }

  lemma FinalGrows(fan: Fan, line: EventLine, r: Reg)
    requires r in fan.subs
    ensures var fan' := AfterFinal(fan, line); r in fan'.subs && Grows(fan.subs[r], fan'.subs[r])
  {
  }

  lemma RegistryGrows(n: Net, budget: nat, move: Move, n': Net, r: Reg)
    requires Next(n, budget, move, n') && !IsWriterMove(move) && r in n.fan.subs && (move.Attach? ==> move.reg != r)
    ensures r in n'.fan.subs && Grows(n.fan.subs[r], n'.fan.subs[r])
  {
    match move
    case Chunk(data, len) => EnqueueGrows(n.fan, Line(Output(data), len), budget, r);
    case Status(line) => EnqueueGrows(n.fan, line, budget, r);
    case Resize(len) => EnqueueGrows(n.fan, Line(Snapshot(n.screen), len), budget, r);
    case Resync(lines) => ResyncGrows(n.fan, lines, r);
    case Final(line) => FinalGrows(n.fan, line, r);
    case _ =>
  }

  lemma WriterGrows(sub: Subscriber, move: Move, sub': Subscriber)
    requires WriterMoves(sub, move, sub')
    ensures Grows(sub, sub')
  {
    if !Broken(sub') {
      assert Stream(sub') == Stream(sub);
    }
  }

  lemma {:induction false} ReplayKeeps(lines: seq<EventLine>, more: seq<EventLine>)
    requires Replay(lines).Some?
    ensures Replay(lines + more).Some?
  {
    if more == [] {
      assert lines + more == lines;
    } else {
      var n := |more| - 1;
      ReplayKeeps(lines, more[..n]);
      assert lines + more == (lines + more[..n]) + [more[n]];
      ReplaySnoc(lines + more[..n], more[n]);
    }
  }

  /** The registration carries a snapshot, unless its socket broke. */
  ghost predicate Seeded(n: Net, r: Reg) {
    r in n.fan.subs && (Broken(n.fan.subs[r]) || Replay(Stream(n.fan.subs[r])).Some?)
  }

  lemma GrowsSeeded(sub: Subscriber, sub': Subscriber)
    requires Grows(sub, sub') && (Broken(sub) || Replay(Stream(sub)).Some?)
    ensures Broken(sub') || Replay(Stream(sub')).Some?
  {
    if !Broken(sub') {
      assert Stream(sub') == Stream(sub) + Stream(sub')[|Stream(sub)|..];
      ReplayKeeps(Stream(sub), Stream(sub')[|Stream(sub)|..]);
    }
  }

  lemma NextGrows(n: Net, budget: nat, move: Move, n': Net, r: Reg)
    requires Next(n, budget, move, n') && r in n.fan.subs
    ensures r in n'.fan.subs && Grows(n.fan.subs[r], n'.fan.subs[r])
  {
    if IsWriterMove(move) {
      if move.reg == r {
        WriterGrows(n.fan.subs[r], move, n'.fan.subs[r]);
      }
    } else {
      RegistryGrows(n, budget, move, n', r);
    }
  }

  lemma SeededStays(n: Net, budget: nat, move: Move, n': Net, r: Reg)
    requires Next(n, budget, move, n') && Seeded(n, r)
    ensures Seeded(n', r)
  {
    NextGrows(n, budget, move, n', r);
    GrowsSeeded(n.fan.subs[r], n'.fan.subs[r]);
  }

  lemma {:induction false} SeededRun(run: seq<Net>, budget: nat, k: nat, i: nat, r: Reg)
    requires Run(run, budget) && k <= i < |run| && Seeded(run[k], r)
    ensures Seeded(run[i], r)
    decreases i - k
  {
    if k < i {
      SeededRun(run, budget, k, i - 1, r);
      assert StepAt(run, budget, i);
      var move :| Next(run[i - 1], budget, move, run[i]);
      SeededStays(run[i - 1], budget, move, run[i], r);
    }
  }

  /** A subscriber registered with a snapshot: at every later moment of every run
      at which it is listed, intact and caught up, its socket shows exactly the
      mirrored terminal. */
  lemma SnapshotSubscriberExact(run: seq<Net>, budget: nat, k: nat, i: nat, reg: Reg, conn: Conn, kind: Kind, lines: seq<EventLine>, s: nat)
    requires Run(run, budget) && 0 < k <= i < |run| && Next(run[k - 1], budget, Attach(reg, conn, kind, lines), run[k])
    requires s < |lines| && lines[s].body.Snapshot?
    requires !run[i].retired && Current(run[i].fan, reg)
    ensures Seeded(run[i], reg)
    ensures CaughtUp(run[i].fan.subs[reg]) ==> Replay(run[i].fan.subs[reg].sent) == Some(run[i].screen)
  {
    var sub := run[k].fan.subs[reg];
    assert Stream(sub) == [] + lines;
    ReplayFresh([], lines, run[k - 1].screen);
    SeededRun(run, budget, k, i, reg);
    if CaughtUp(run[i].fan.subs[reg]) {
      assert Stream(run[i].fan.subs[reg]) == run[i].fan.subs[reg].sent;
      CaughtUpIsExact(run, budget, i, reg);
    }
  }
}
