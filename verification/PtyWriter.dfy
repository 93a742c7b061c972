/**
 The input half of a session's reader loop: queued inputs, partial writes,
 acknowledgements, the pause after a submitted message, and quiescing.

 Everything outside the loop (other tasks sending inputs, the control flags, the
 clock, what the kernel accepts of a write) is a schedule of turns, and every
 result holds for all schedules.
 */
module PtyWriter {
  import opened Common

  const SUBMIT_DELAY_MS: nat := 150
  const PASTE_FRAMING_MIN_LEN: nat := 256
  const PASTE_BEGIN: seq<Byte> := [0x1b, 0x5b, 0x32, 0x30, 0x30, 0x7e]
  const PASTE_END: seq<Byte> := [0x1b, 0x5b, 0x32, 0x30, 0x31, 0x7e]
  const CR: Byte := 0x0d
  const LF: Byte := 0x0a

  datatype Kind = Raw | Logical

  /** A queued input. Only a raw one can be empty: a logical message always carries
      its Enter, see `LogicalNeverEmpty`. */
  datatype PendingInput = Input(kind: Kind, data: seq<Byte>, draft: bool)

  /** One message and its submission boundary, as a single write: long or
      multi-line text is framed as a paste when the terminal supports it. */
  function LogicalBytes(data: seq<Byte>, bracketedPaste: bool): seq<Byte> {
    if data == [] || !bracketedPaste || (CR !in data && LF !in data && |data| < PASTE_FRAMING_MIN_LEN)
    then data + [CR]
    else PASTE_BEGIN + data + PASTE_END + [CR]
  }

  lemma LogicalNeverEmpty(data: seq<Byte>, bracketedPaste: bool)
    ensures var r := LogicalBytes(data, bracketedPaste); r != [] && r[|r| - 1] == CR
  {
  }

  // ------------------------------------------------------- lists of inputs

  function Bytes(inputs: seq<PendingInput>): seq<Byte> {
    if inputs == [] then [] else Bytes(inputs[..|inputs| - 1]) + inputs[|inputs| - 1].data
  }

  /** The inputs that have bytes to write. */
  function Solid(inputs: seq<PendingInput>): seq<PendingInput> {
    if inputs == [] then []
    else
      var last := inputs[|inputs| - 1];
      Solid(inputs[..|inputs| - 1]) + if last.data == [] then [] else [last]
  }

  lemma {:induction false} BytesAppend(xs: seq<PendingInput>, ys: seq<PendingInput>)
    ensures Bytes(xs + ys) == Bytes(xs) + Bytes(ys)
  {
    if ys == [] {
      assert xs + ys == xs;
    } else {
      var n := |ys| - 1;
      BytesAppend(xs, ys[..n]);
      assert (xs + ys)[..|xs + ys| - 1] == xs + ys[..n];
      Assoc(Bytes(xs), Bytes(ys[..n]), ys[n].data);
    }
  }

  lemma {:induction false} SolidAppend(xs: seq<PendingInput>, ys: seq<PendingInput>)
    ensures Solid(xs + ys) == Solid(xs) + Solid(ys)
  {
    if ys == [] {
      assert xs + ys == xs;
    } else {
      var n := |ys| - 1;
      SolidAppend(xs, ys[..n]);
      assert (xs + ys)[..|xs + ys| - 1] == xs + ys[..n];
      Assoc(Solid(xs), Solid(ys[..n]), if ys[n].data == [] then [] else [ys[n]]);
    }
  }

  lemma {:induction false} SolidBytes(inputs: seq<PendingInput>)
    ensures Bytes(Solid(inputs)) == Bytes(inputs)
  {
    if inputs != [] {
      var n := |inputs| - 1;
      SolidBytes(inputs[..n]);
      BytesAppend(Solid(inputs[..n]), if inputs[n].data == [] then [] else [inputs[n]]);
    }
  }

  lemma One(input: PendingInput)
    ensures Bytes([input]) == input.data
    ensures Solid([input]) == if input.data == [] then [] else [input]
  {
    assert [input][..0] == [];
  }

  // -------------------------------------------------------------- invariant

  /** One successful write: when, which bytes, and whether it completed a logical
      message. */
  datatype Write = Write(at: nat, data: seq<Byte>, submits: bool)

  function Traffic(log: seq<Write>): seq<Byte> {
    if log == [] then [] else Traffic(log[..|log| - 1]) + log[|log| - 1].data
  }

  function Submissions(log: seq<Write>): nat {
    if log == [] then 0 else Submissions(log[..|log| - 1]) + if log[|log| - 1].submits then 1 else 0
  }

  function Logicals(inputs: seq<PendingInput>): nat {
    if inputs == [] then 0 else Logicals(inputs[..|inputs| - 1]) + if inputs[|inputs| - 1].kind.Logical? then 1 else 0
  }

  lemma OneMore(log: seq<Write>, w: Write, done: seq<PendingInput>, input: PendingInput)
    ensures Submissions(log + [w]) == Submissions(log) + if w.submits then 1 else 0
    ensures Logicals(done + [input]) == Logicals(done) + if input.kind.Logical? then 1 else 0
  {
    assert (log + [w])[..|log + [w]| - 1] == log;
    assert (done + [input])[..|done + [input]| - 1] == done;
  }

  /** The part of the front input already written. */
  function Started(pending: seq<PendingInput>, offset: nat): seq<Byte>
    requires pending == [] ==> offset == 0
    requires pending != [] ==> offset < |pending[0].data|
  {
    if pending == [] then [] else pending[0].data[..offset]
  }

  ghost predicate Cursor(pending: seq<PendingInput>, offset: nat) {
    && (pending == [] ==> offset == 0)
    && (pending != [] ==> offset < |pending[0].data|)
    && (forall i :: 0 <= i < |pending| ==> pending[i].data != [])
  }

  /** Accepted inputs are completed, pending or still in the channel, in order. */
  ghost predicate Fifo(accepted: seq<PendingInput>, done: seq<PendingInput>, pending: seq<PendingInput>, channel: seq<PendingInput>) {
    Solid(accepted) == done + pending + Solid(channel)
  }

  /** No write within the pause after a write that completed a logical message. */
  ghost predicate Paced(log: seq<Write>) {
    forall i, j :: 0 <= i < j < |log| && log[i].submits ==> log[j].at >= log[i].at + SUBMIT_DELAY_MS
  }

  /** The pause in force covers every submission that is not yet old enough. */
  ghost predicate Held(log: seq<Write>, pause: Option<nat>, clock: nat) {
    && (forall i :: 0 <= i < |log| ==> log[i].at <= clock)
    && (forall i :: 0 <= i < |log| && log[i].submits ==>
          (pause.Some? && pause.value >= log[i].at + SUBMIT_DELAY_MS) || clock >= log[i].at + SUBMIT_DELAY_MS)
  }

  /** Where the written bytes stand in the queue. */
  ghost predicate Position(done: seq<PendingInput>, pending: seq<PendingInput>, offset: nat, written: seq<Byte>) {
    Cursor(pending, offset) && written == Bytes(done) + Started(pending, offset)
  }

  ghost predicate Timed(log: seq<Write>, written: seq<Byte>, pause: Option<nat>, clock: nat) {
    Traffic(log) == written && Paced(log) && Held(log, pause, clock)
  }

  /** Everything acknowledged is complete, in order; at most the last completed
      input is not acknowledged. */
  ghost predicate Acks(acked: seq<PendingInput>, done: seq<PendingInput>) {
    acked <= done && |done| <= |acked| + 1
  }

  lemma Rearranged<T>(a: seq<T>, b: seq<T>, c: seq<T>, d: seq<T>)
    ensures a + b + (c + d) == a + (b + c) + d == (a + b + c) + d
  {
  }

  lemma AcceptFifo(accepted: seq<PendingInput>, done: seq<PendingInput>, pending: seq<PendingInput>, channel: seq<PendingInput>, inputs: seq<PendingInput>)
    requires Fifo(accepted, done, pending, channel)
    ensures Fifo(accepted + inputs, done, pending, channel + inputs)
  {
    SolidAppend(accepted, inputs);
    SolidAppend(channel, inputs);
    Rearranged(done, pending, Solid(channel), Solid(inputs));
  }

  lemma TakeFifo(accepted: seq<PendingInput>, done: seq<PendingInput>, pending: seq<PendingInput>, channel: seq<PendingInput>)
    requires Fifo(accepted, done, pending, channel) && channel != []
    ensures Fifo(accepted, done, pending + Solid(channel[..1]), channel[1..])
  {
    assert channel == channel[..1] + channel[1..];
    SolidAppend(channel[..1], channel[1..]);
    Rearranged(done, pending, Solid(channel[..1]), Solid(channel[1..]));
  }

  lemma TakePosition(done: seq<PendingInput>, pending: seq<PendingInput>, offset: nat, written: seq<Byte>, input: PendingInput)
    requires Position(done, pending, offset, written)
    ensures Position(done, pending + Solid([input]), offset, written)
  {
    One(input);
    if pending != [] {
      assert (pending + Solid([input]))[0] == pending[0];
    } else {
      assert pending + Solid([input]) == Solid([input]);
    }
  }

  lemma CompleteFifo(accepted: seq<PendingInput>, done: seq<PendingInput>, pending: seq<PendingInput>, channel: seq<PendingInput>)
    requires Fifo(accepted, done, pending, channel) && pending != []
    ensures Fifo(accepted, done + [pending[0]], pending[1..], channel)
  {
    assert pending == [pending[0]] + pending[1..];
    assert done + pending == done + [pending[0]] + pending[1..];
  }

  /** Writing part of the front input moves the cursor within it. */
  lemma AdvancePosition(done: seq<PendingInput>, pending: seq<PendingInput>, offset: nat, written: seq<Byte>, n: nat)
    requires Position(done, pending, offset, written) && pending != [] && offset + n < |pending[0].data|
    ensures Position(done, pending, offset + n, written + pending[0].data[offset..offset + n])
  {
    var data := pending[0].data;
    assert data[..offset] + data[offset..offset + n] == data[..offset + n];
    assert Bytes(done) + data[..offset] + data[offset..offset + n] == Bytes(done) + (data[..offset] + data[offset..offset + n]);
  }

  lemma TailCursor(pending: seq<PendingInput>, offset: nat)
    requires Cursor(pending, offset) && pending != []
    ensures Cursor(pending[1..], 0) && Started(pending[1..], 0) == []
  {
  }

  lemma Rejoined(a: seq<Byte>, data: seq<Byte>, offset: nat)
    requires offset <= |data|
    ensures a + data[..offset] + data[offset..] == a + data
  {
    assert data[..offset] + data[offset..] == data;
  }

  /** Writing the rest of it completes it. */
  lemma CompletePosition(done: seq<PendingInput>, pending: seq<PendingInput>, offset: nat, written: seq<Byte>)
    requires Position(done, pending, offset, written) && pending != []
    ensures Position(done + [pending[0]], pending[1..], 0, written + pending[0].data[offset..])
    ensures written + pending[0].data[offset..] == Bytes(done + [pending[0]])
  {
    BytesAppend(done, [pending[0]]);
    One(pending[0]);
    Rejoined(Bytes(done), pending[0].data, offset);
    TailCursor(pending, offset);
  }

  /** A write while no pause is in force extends the paced log. */
  lemma WriteTimed(log: seq<Write>, written: seq<Byte>, clock: nat, now: nat, piece: seq<Byte>, submits: bool)
    requires Timed(log, written, None, clock) && now >= clock
    ensures Timed(log + [Write(now, piece, submits)], written + piece, if submits then Some(now + SUBMIT_DELAY_MS) else None, now)
  {
    var more := log + [Write(now, piece, submits)];
    assert more[..|more| - 1] == log;
  }

  // ------------------------------------------------------- the loop's state

  /** What was accepted and where it is now. */
  datatype Queue = Queue(
    accepted: seq<PendingInput>,  // everything ever sent to this session
    done: seq<PendingInput>,      // inputs wholly written
    acked: seq<PendingInput>,     // acknowledged inputs that had bytes
    pending: seq<PendingInput>,
    channel: seq<PendingInput>,
    offset: nat,
    written: seq<Byte>)

  /** The pause after a submission, and every write so far. */
  datatype Pace = Pace(pause: Option<nat>, clock: nat, log: seq<Write>)

  ghost predicate QueueOk(q: Queue) {
    && Fifo(q.accepted, q.done, q.pending, q.channel)
    && Position(q.done, q.pending, q.offset, q.written)
    && Acks(q.acked, q.done)
  }

  /** The writes so far are the written bytes, are paced, and mark as many submissions
      as logical messages have been completed. */
  ghost predicate PaceOk(q: Queue, p: Pace) {
    Timed(p.log, q.written, p.pause, p.clock) && Submissions(p.log) == Logicals(q.done)
  }

  const IDLE: Queue := Queue([], [], [], [], [], 0, [])

  /** What holds at every iteration: order, acknowledgements, pacing. */
  ghost predicate Steady(q: Queue, p: Pace) {
    QueueOk(q) && PaceOk(q, p)
  }

  lemma IdleQueue(q: Queue)
    requires q == IDLE
    ensures QueueOk(q)
  {
    assert Solid(q.accepted) == [] == Solid(q.channel);
  }

  lemma IdlePace(q: Queue, p: Pace)
    requires q == IDLE && p == Pace(None, 0, [])
    ensures PaceOk(q, p)
  {
  }

  lemma IdleSteady(q: Queue, p: Pace)
    requires q == IDLE && p == Pace(None, 0, [])
    ensures Steady(q, p)
  {
    IdleQueue(q);
    IdlePace(q, p);
  }

  /** At every step: bytes written, then the unwritten rest of the front input,
      then the other pending inputs, then the channel, are the accepted inputs. */
  lemma NothingLostOrReordered(q: Queue)
    requires QueueOk(q)
    ensures q.pending == [] ==> Bytes(q.accepted) == q.written + Bytes(q.channel)
    ensures q.pending != [] ==>
              Bytes(q.accepted) == q.written + q.pending[0].data[q.offset..] + Bytes(q.pending[1..]) + Bytes(q.channel)
  {
    if q.pending == [] {
      FifoBytes(q.accepted, q.done, q.pending, q.channel);
    } else {
      CompleteFifo(q.accepted, q.done, q.pending, q.channel);
      CompletePosition(q.done, q.pending, q.offset, q.written);
      FifoBytes(q.accepted, q.done + [q.pending[0]], q.pending[1..], q.channel);
    }
  }

  lemma FifoBytes(accepted: seq<PendingInput>, done: seq<PendingInput>, pending: seq<PendingInput>, channel: seq<PendingInput>)
    requires Fifo(accepted, done, pending, channel)
    ensures Bytes(accepted) == Bytes(done) + Bytes(pending) + Bytes(channel)
  {
    SolidBytes(accepted);
    SolidBytes(channel);
    BytesAppend(done + pending, Solid(channel));
    BytesAppend(done, pending);
  }

  /** An acknowledgement speaks for its input and everything accepted before it:
      the acknowledged inputs are the first ones with bytes that were accepted, and
      all their bytes are written. */
  lemma AcknowledgedIsWritten(q: Queue)
    requires QueueOk(q)
    ensures q.acked <= Solid(q.accepted) && Bytes(q.acked) <= q.written <= Bytes(q.accepted)
  {
    NothingLostOrReordered(q);
    assert q.done == q.acked + q.done[|q.acked|..];
    BytesAppend(q.acked, q.done[|q.acked|..]);
  }

  // --------------------------------------------------------------- the loop

  datatype Arm =
    | Receive
    | PauseTimer
    | Writable(accepts: nat, draftOk: bool)  // bytes the kernel takes, draft accounting result
    | WriteFails                             // would block: nothing happens
    | Hangup                                 // the loop ends
    | Elsewhere                              // reading, notifications, ticks

  /** What the outside does around one iteration. Each control flag is sampled
      where the loop samples it. */
  datatype Turn = Turn(
    now: nat,
    early: seq<PendingInput>,   // sent before the drain
    stop: bool,
    asked: bool,                // quiesce requested, as the drain sees it
    late: seq<PendingInput>,    // sent between the drain and the quiesced mark
    askedAgain: bool,           // quiesce requested, as the mark sees it
    stopHeld: bool,             // stopped while quiesced
    askedLast: bool,            // quiesce requested, as the receive arm sees it
    arm: Arm)

  /** The moment a reader marked itself quiesced. */
  datatype Mark = Mark(asked: bool, queued: seq<PendingInput>, late: seq<PendingInput>, accepted: seq<PendingInput>, written: seq<Byte>)

  /** Exactly when a quiesced reader has written everything accepted: nothing came
      late, and the drain had seen the request or had nothing to drain. */
  ghost predicate MarkExact(m: Mark) {
    && m.written <= Bytes(m.accepted)
    && (m.written == Bytes(m.accepted) <==> Bytes(m.late) == [] && (m.asked || Bytes(m.queued) == []))
  }

  /** Other tasks queue inputs for this session. */
  function Accept(q: Queue, inputs: seq<PendingInput>): (r: Queue)
    requires QueueOk(q)
    ensures QueueOk(r)
  {
    AcceptFifo(q.accepted, q.done, q.pending, q.channel, inputs);
    q.(accepted := q.accepted + inputs, channel := q.channel + inputs)
  }

  /** The queue after one input has left the channel. */
  function Taken(q: Queue): (r: Queue)
    requires QueueOk(q) && q.channel != []
    ensures QueueOk(r)
  {
    assert q.channel[..1] == [q.channel[0]];
    TakeFifo(q.accepted, q.done, q.pending, q.channel);
    TakePosition(q.done, q.pending, q.offset, q.written, q.channel[0]);
    q.(channel := q.channel[1..], pending := q.pending + Solid(q.channel[..1]))
  }

  /** Take one input from the channel; one without bytes is acknowledged and
      forgotten at once. */
  method Take(q: Queue) returns (r: Queue)
    requires QueueOk(q) && q.channel != []
    ensures r == Taken(q)
  {
    var input := q.channel[0];
    assert q.channel[..1] == [input];
    One(input);
    r := q.(channel := q.channel[1..]);
    if input.data != [] {
      r := r.(pending := r.pending + [input]);
    } else {
      assert q.pending + [] == q.pending;
    }
  }

  method Drain(q: Queue) returns (r: Queue)
    requires QueueOk(q)
    ensures QueueOk(r) && r == q.(channel := [], pending := q.pending + Solid(q.channel))
  {
    r := q;
    ghost var k := 0;
    while r.channel != []
      invariant QueueOk(r) && 0 <= k <= |q.channel|
      invariant r == q.(channel := q.channel[k..], pending := q.pending + Solid(q.channel[..k]))
      decreases |r.channel|
    {
      assert q.channel[..k + 1] == q.channel[..k] + q.channel[k..][..1];
      SolidAppend(q.channel[..k], q.channel[k..][..1]);
      Assoc(q.pending, Solid(q.channel[..k]), Solid(q.channel[k..][..1]));
      r := Take(r);
      k := k + 1;
    }
    assert q.channel[..|q.channel|] == q.channel;
  }

  /** The pause ends only once its time has come. */
  method ExpirePause(ghost q: Queue, p: Pace, now: nat) returns (r: Pace)
    requires PaceOk(q, p) && now >= p.clock
    ensures PaceOk(q, r) && r.clock == now && r.log == p.log
    ensures r.pause == if p.pause.Some? && now >= p.pause.value then None else p.pause
  {
    r := p.(clock := now);
    if r.pause.Some? && now >= r.pause.value {
      r := r.(pause := None);
    }
  }

  /** The front input is wholly written and leaves the queue. */
  function Completed(q: Queue, acknowledge: bool): (r: Queue)
    requires QueueOk(q) && q.pending != [] && q.acked == q.done
    ensures QueueOk(r)
  {
    var front := q.pending[0];
    CompletePosition(q.done, q.pending, q.offset, q.written);
    CompleteFifo(q.accepted, q.done, q.pending, q.channel);
    q.(written := q.written + front.data[q.offset..], offset := 0, pending := q.pending[1..],
       done := q.done + [front], acked := if acknowledge then q.done + [front] else q.acked)
  }

  /** Part of the front input is written. */
  function Advanced(q: Queue, n: nat): (r: Queue)
    requires QueueOk(q) && q.pending != [] && q.offset + n < |q.pending[0].data|
    ensures QueueOk(r)
  {
    AdvancePosition(q.done, q.pending, q.offset, q.written, n);
    q.(written := q.written + q.pending[0].data[q.offset..q.offset + n], offset := q.offset + n)
  }

  /** One more write; completing a logical message starts the pause. */
  function Wrote(p: Pace, now: nat, piece: seq<Byte>, submits: bool): Pace {
    Pace(if submits then Some(now + SUBMIT_DELAY_MS) else None, now, p.log + [Write(now, piece, submits)])
  }

  lemma PartPace(q: Queue, p: Pace, now: nat, n: nat)
    requires QueueOk(q) && PaceOk(q, p) && q.pending != [] && p.pause.None? && now >= p.clock
    requires q.offset + n < |q.pending[0].data|
    ensures PaceOk(Advanced(q, n), Wrote(p, now, q.pending[0].data[q.offset..q.offset + n], false))
  {
    var piece := q.pending[0].data[q.offset..q.offset + n];
    WriteTimed(p.log, q.written, p.clock, now, piece, false);
    OneMore(p.log, Write(now, piece, false), q.done, q.pending[0]);
  }

  lemma WholePace(q: Queue, p: Pace, now: nat, acknowledge: bool)
    requires QueueOk(q) && PaceOk(q, p) && q.pending != [] && p.pause.None? && now >= p.clock && q.acked == q.done
    ensures PaceOk(Completed(q, acknowledge), Wrote(p, now, q.pending[0].data[q.offset..], q.pending[0].kind.Logical?))
  {
    var piece := q.pending[0].data[q.offset..];
    WriteTimed(p.log, q.written, p.clock, now, piece, q.pending[0].kind.Logical?);
    OneMore(p.log, Write(now, piece, q.pending[0].kind.Logical?), q.done, q.pending[0]);
  }

  /** The kernel takes all that is left of the front input. */
  predicate Completes(q: Queue, accepts: nat) {
    q.pending != [] && accepts >= |q.pending[0].data| - q.offset
  }

  /** The kernel takes the rest of the front input: it leaves the queue, a logical
      message starts the pause, and it is acknowledged unless its draft accounting
      failed, which ends the loop. */
  method WriteRest(q: Queue, p: Pace, now: nat, draftOk: bool) returns (r: Queue, t: Pace, ended: bool)
    requires QueueOk(q) && PaceOk(q, p) && q.pending != [] && p.pause.None? && now >= p.clock && q.acked == q.done
    ensures QueueOk(r) && PaceOk(r, t) && t.clock == now && r.accepted == q.accepted && r.channel == q.channel
    ensures r.written == q.written + q.pending[0].data[q.offset..] && r.done == q.done + [q.pending[0]]
    ensures ended <==> q.pending[0].draft && !draftOk
    ensures r.acked == if ended then q.acked else q.acked + [q.pending[0]]
    ensures t.pause == if q.pending[0].kind.Logical? then Some(now + SUBMIT_DELAY_MS) else None
    ensures t.log == p.log + [Write(now, q.pending[0].data[q.offset..], q.pending[0].kind.Logical?)]
  {
    ended := q.pending[0].draft && !draftOk;
    WholePace(q, p, now, !ended);
    t := Wrote(p, now, q.pending[0].data[q.offset..], q.pending[0].kind.Logical?);
    r := Completed(q, !ended);
  }

  /** The kernel takes less than that, or nothing. */
  method WritePart(q: Queue, p: Pace, now: nat, accepts: nat) returns (r: Queue, t: Pace)
    requires QueueOk(q) && PaceOk(q, p) && q.pending != [] && p.pause.None? && now >= p.clock
    requires q.offset + accepts < |q.pending[0].data|
    ensures QueueOk(r) && PaceOk(r, t) && t.clock == now && r.accepted == q.accepted && r.channel == q.channel
    ensures r.written == q.written + q.pending[0].data[q.offset..q.offset + accepts]
    ensures r.done == q.done && r.acked == q.acked && t.pause.None?
    ensures t.log == p.log + if accepts == 0 then [] else [Write(now, q.pending[0].data[q.offset..q.offset + accepts], false)]
  {
    if accepts > 0 {
      PartPace(q, p, now, accepts);
      t := Wrote(p, now, q.pending[0].data[q.offset..q.offset + accepts], false);
      r := Advanced(q, accepts);
    } else {
      assert q.pending[0].data[q.offset..q.offset] == [];
      r, t := q, p.(clock := now);
    }
  }

  /** Drain if quiesce was requested, then mark the reader quiesced if it still is
      and nothing is pending. */
  method QuiesceCheck(q: Queue, turn: Turn) returns (r: Queue, marked: bool, mark: Mark)
    requires QueueOk(q) && q.acked == q.done
    ensures QueueOk(r) && r.acked == r.done == q.done && r.written == q.written && r.accepted == q.accepted + turn.late
    ensures r.pending == q.pending + if turn.asked then Solid(q.channel) else []
    ensures r.channel == (if turn.asked then [] else q.channel) + turn.late
    ensures marked <==> turn.askedAgain && r.pending == []
    ensures mark == Mark(turn.asked, q.channel, turn.late, r.accepted, r.written)
    ensures marked ==> MarkExact(mark)
  {
    r := q;
    if turn.asked {
      r := Drain(r);
    }
    ghost var kept := r.channel;
    r := Accept(r, turn.late);
    marked := turn.askedAgain && r.pending == [];
    mark := Mark(turn.asked, q.channel, turn.late, r.accepted, r.written);
    if marked {
      NothingLostOrReordered(r);
      BytesAppend(kept, turn.late);
      if turn.asked {
        assert Solid(q.channel) == [];
      }
    }
  }

  // ------------------------------------------------- what one turn comes to

  /** The queue when the select is reached: what was sent has arrived, drained if the
      drain saw a request. */
  function Checked(q: Queue, turn: Turn): Queue {
    q.(accepted := q.accepted + turn.early + turn.late,
       channel := (if turn.asked then [] else q.channel + turn.early) + turn.late,
       pending := q.pending + if turn.asked then Solid(q.channel + turn.early) else [])
  }

  /** The turn ends with a quiesced mark. */
  predicate LeavesMark(q: Queue, turn: Turn) {
    !turn.stop && turn.askedAgain && Checked(q, turn).pending == []
  }

  /** The write arm is open. */
  predicate MayWrite(c: Queue, p: Pace, turn: Turn) {
    turn.arm.Writable? && c.pending != [] && p.pause.None?
  }

  /** The bytes the turn writes. */
  function Piece(c: Queue, p: Pace, turn: Turn): seq<Byte> {
    if MayWrite(c, p, turn) && c.offset <= |c.pending[0].data| then
      c.pending[0].data[c.offset..if Completes(c, turn.arm.accepts) then |c.pending[0].data| else c.offset + turn.arm.accepts]
    else []
  }

  /** The turn takes an input off the channel. */
  predicate MayTake(c: Queue, turn: Turn) {
    turn.arm.Receive? && !turn.askedLast && c.channel != []
  }

  /** The turn completes the front input. */
  predicate Finishes(c: Queue, p: Pace, turn: Turn) {
    MayWrite(c, p, turn) && Completes(c, turn.arm.accepts)
  }

  /** The write the turn makes, if it makes one: when, what, and whether it submits. */
  function WriteOf(c: Queue, p: Pace, turn: Turn): seq<Write> {
    var piece := Piece(c, p, turn);
    if piece == [] then [] else [Write(turn.now, piece, Finishes(c, p, turn) && c.pending[0].kind.Logical?)]
  }

  /** The pause in force after the turn. */
  function PauseAfter(c: Queue, p: Pace, turn: Turn): Option<nat> {
    if Finishes(c, p, turn) then
      if c.pending[0].kind.Logical? then Some(turn.now + SUBMIT_DELAY_MS) else None
    else if turn.arm.PauseTimer? && p.pause.Some? && turn.now >= p.pause.value then None
    else p.pause
  }

  /** The turn ends the loop at the select. */
  predicate Ends(c: Queue, p: Pace, turn: Turn) {
    turn.arm.Hangup? || (Finishes(c, p, turn) && c.pending[0].draft && !turn.arm.draftOk)
  }

  /** What a turn that reaches the select does there. */
  ghost predicate ArmOk(c: Queue, p: Pace, turn: Turn, r: Queue, t: Pace, ended: bool) {
    && Steady(r, t) && p.clock <= t.clock <= turn.now && r.accepted == c.accepted
    && r.written == c.written + Piece(c, p, turn)
    && r.channel == (if MayTake(c, turn) then c.channel[1..] else c.channel)
    && r.done == (if Finishes(c, p, turn) then c.done + [c.pending[0]] else c.done)
    && r.acked == (if Finishes(c, p, turn) && !ended then c.acked + [c.pending[0]] else c.acked)
    && t.log == p.log + WriteOf(c, p, turn)
    && t.pause == PauseAfter(c, p, turn) && (ended <==> Ends(c, p, turn))
  }

  /** What one turn of the schedule does, all told. */
  ghost predicate TurnOk(q: Queue, p: Pace, turn: Turn, r: Queue, t: Pace, mark: Option<Mark>, ended: bool) {
    && Steady(r, t) && p.clock <= t.clock <= turn.now && (!ended ==> r.acked == r.done)
    && (turn.stop || mark.Some? ==> r.done == q.done && t == p)
    && r.accepted == q.accepted + Inputs(turn)
    && (mark.Some? <==> LeavesMark(q, turn))
    && (turn.stop ==> ended && r.written == q.written)
    && (mark.Some? ==>
          && (ended <==> turn.stopHeld) && r.written == q.written
          && mark.value == Mark(turn.asked, q.channel + turn.early, turn.late, r.accepted, r.written) && MarkExact(mark.value))
    && (!turn.stop && mark.None? ==> ArmOk(Checked(q, turn), p, turn, r, t, ended))
  }

  /** What a turn makes the session accept. */
  function Inputs(turn: Turn): seq<PendingInput> {
    turn.early + if turn.stop then [] else turn.late
  }

  lemma WholePiece(q: Queue, p: Pace, turn: Turn)
    requires MayWrite(q, p, turn) && q.offset < |q.pending[0].data| && turn.arm.accepts >= |q.pending[0].data| - q.offset
    ensures Finishes(q, p, turn) && Piece(q, p, turn) == q.pending[0].data[q.offset..]
    ensures WriteOf(q, p, turn) == [Write(turn.now, q.pending[0].data[q.offset..], q.pending[0].kind.Logical?)]
    ensures Ends(q, p, turn) <==> q.pending[0].draft && !turn.arm.draftOk
    ensures PauseAfter(q, p, turn) == if q.pending[0].kind.Logical? then Some(turn.now + SUBMIT_DELAY_MS) else None
  {
  }

  lemma PartPiece(q: Queue, p: Pace, turn: Turn)
    requires MayWrite(q, p, turn) && q.offset < |q.pending[0].data| && turn.arm.accepts < |q.pending[0].data| - q.offset
    ensures !Finishes(q, p, turn) && Piece(q, p, turn) == q.pending[0].data[q.offset..q.offset + turn.arm.accepts]
    ensures WriteOf(q, p, turn) == if turn.arm.accepts == 0 then [] else [Write(turn.now, Piece(q, p, turn), false)]
    ensures !Ends(q, p, turn) && PauseAfter(q, p, turn).None?
  {
  }

  /** A write arm that did all this did what the turn says. */
  lemma WriteArm(q: Queue, p: Pace, turn: Turn, r: Queue, t: Pace, ended: bool)
    requires Steady(r, t) && MayWrite(q, p, turn) && t.clock == turn.now >= p.clock
    requires r.accepted == q.accepted && r.channel == q.channel && r.written == q.written + Piece(q, p, turn)
    requires r.done == if Finishes(q, p, turn) then q.done + [q.pending[0]] else q.done
    requires r.acked == if Finishes(q, p, turn) && !ended then q.acked + [q.pending[0]] else q.acked
    requires t.log == p.log + WriteOf(q, p, turn) && t.pause == PauseAfter(q, p, turn) && (ended <==> Ends(q, p, turn))
    ensures ArmOk(q, p, turn, r, t, ended)
  {
  }

  /** The write arm when the kernel takes all there is left. */
  method FireRest(q: Queue, p: Pace, turn: Turn) returns (r: Queue, t: Pace, ended: bool)
    requires Steady(q, p) && q.acked == q.done && turn.now >= p.clock && MayWrite(q, p, turn)
    requires turn.arm.accepts >= |q.pending[0].data| - q.offset
    ensures ArmOk(q, p, turn, r, t, ended)
  {
    r, t, ended := WriteRest(q, p, turn.now, turn.arm.draftOk);
    WholePiece(q, p, turn);
    WriteArm(q, p, turn, r, t, ended);
  }

  /** ... and when it takes less. */
  method FirePart(q: Queue, p: Pace, turn: Turn) returns (r: Queue, t: Pace)
    requires Steady(q, p) && q.acked == q.done && turn.now >= p.clock && MayWrite(q, p, turn)
    requires turn.arm.accepts < |q.pending[0].data| - q.offset
    ensures ArmOk(q, p, turn, r, t, false)
  {
    r, t := WritePart(q, p, turn.now, turn.arm.accepts);
    PartPiece(q, p, turn);
    WriteArm(q, p, turn, r, t, false);
  }

  /** The write arm. */
  method FireWrite(q: Queue, p: Pace, turn: Turn) returns (r: Queue, t: Pace, ended: bool)
    requires Steady(q, p) && q.acked == q.done && turn.now >= p.clock && MayWrite(q, p, turn)
    ensures ArmOk(q, p, turn, r, t, ended)
  {
    if turn.arm.accepts >= |q.pending[0].data| - q.offset {
      r, t, ended := FireRest(q, p, turn);
    } else {
      r, t := FirePart(q, p, turn);
      ended := false;
    }
  }

  /** Nothing is written by the other arms. */
  lemma NoPiece(q: Queue, p: Pace, turn: Turn)
    requires !MayWrite(q, p, turn)
    ensures !Finishes(q, p, turn) && q.written + Piece(q, p, turn) == q.written && p.log + WriteOf(q, p, turn) == p.log
  {
  }

  /** One select arm; an arm whose guard is off cannot fire. */
  method Fire(q: Queue, p: Pace, turn: Turn) returns (r: Queue, t: Pace, ended: bool)
    requires Steady(q, p) && q.acked == q.done && turn.now >= p.clock
    ensures ArmOk(q, p, turn, r, t, ended)
  {
    if MayWrite(q, p, turn) {
      r, t, ended := FireWrite(q, p, turn);
      return;
    }
    NoPiece(q, p, turn);
    r, t, ended := q, p.(clock := turn.now), turn.arm.Hangup?;
    if turn.arm.PauseTimer? {
      t := ExpirePause(q, p, turn.now);
    } else if turn.arm.Receive? && !turn.askedLast && q.channel != [] {
      r := Take(q);
    }
  }

  /** The part of an iteration before the select. */
  method Enter(q: Queue, turn: Turn) returns (r: Queue, marked: bool, mark: Mark)
    requires QueueOk(q) && q.acked == q.done
    ensures QueueOk(r) && r.acked == r.done == q.done && r == Checked(q, turn)
    ensures marked <==> turn.askedAgain && r.pending == []
    ensures mark == Mark(turn.asked, q.channel + turn.early, turn.late, r.accepted, r.written)
    ensures marked ==> MarkExact(mark)
  {
    r, marked, mark := QuiesceCheck(Accept(q, turn.early), turn);
    assert r == Checked(q, turn);
  }

  lemma StopTurn(q: Queue, p: Pace, turn: Turn, r: Queue)
    requires Steady(q, p) && q.acked == q.done && turn.now >= p.clock && turn.stop && r == Accept(q, turn.early)
    ensures TurnOk(q, p, turn, r, p, None, true)
  {
    assert turn.early + [] == turn.early;
  }

  lemma MarkTurn(q: Queue, p: Pace, turn: Turn, r: Queue, mark: Mark)
    requires Steady(q, p) && q.acked == q.done && turn.now >= p.clock && !turn.stop
    requires QueueOk(r) && r == Checked(q, turn) && turn.askedAgain && r.pending == [] && MarkExact(mark)
    requires mark == Mark(turn.asked, q.channel + turn.early, turn.late, r.accepted, r.written)
    ensures TurnOk(q, p, turn, r, p, Some(mark), turn.stopHeld)
  {
    Assoc(q.accepted, turn.early, turn.late);
  }

  lemma SelectTurn(q: Queue, p: Pace, turn: Turn, c: Queue, r: Queue, t: Pace, ended: bool)
    requires q.acked == q.done && !turn.stop && c == Checked(q, turn) && !(turn.askedAgain && c.pending == []) && ArmOk(c, p, turn, r, t, ended)
    ensures TurnOk(q, p, turn, r, t, None, ended)
  {
    Assoc(q.accepted, turn.early, turn.late);
  }

  /** One iteration. */
  method Iterate(q: Queue, p: Pace, turn: Turn) returns (r: Queue, t: Pace, mark: Option<Mark>, ended: bool)
    requires Steady(q, p) && q.acked == q.done && turn.now >= p.clock
    ensures TurnOk(q, p, turn, r, t, mark, ended)
  {
    t, mark, ended := p, None, turn.stop;
    if turn.stop {
      r := Accept(q, turn.early);
      StopTurn(q, p, turn, r);
      return;
    }
    var marked, m;
    r, marked, m := Enter(q, turn);
    if marked {
      MarkTurn(q, p, turn, r, m);
      mark, ended := Some(m), turn.stopHeld;
    } else {
      ghost var c := r;
      r, t, ended := Fire(r, t, turn);
      SelectTurn(q, p, turn, c, r, t, ended);
    }
  }

  /** Everything the turns make the session accept. */
  function Sent(turns: seq<Turn>): seq<PendingInput> {
    if turns == [] then [] else Sent(turns[..|turns| - 1]) + Inputs(turns[|turns| - 1])
  }

  /** The loop's state between two turns, and how a turn ended. */
  datatype Moment = Moment(q: Queue, p: Pace)
  datatype Outcome = Outcome(mark: Option<Mark>, ended: bool)

  const BEGIN: Moment := Moment(IDLE, Pace(None, 0, []))

  ghost predicate TurnAt(before: Moment, turn: Turn, after: Moment, outcome: Outcome) {
    TurnOk(before.q, before.p, turn, after.q, after.p, outcome.mark, outcome.ended)
  }

  /** The moments before and after each turn executed, and how it ended: turns are
      executed in order until one ends the loop. */
  ghost predicate Trace(turns: seq<Turn>, moments: seq<Moment>, outcomes: seq<Outcome>) {
    && Chain(TurnAt, turns, moments, outcomes) && moments[0] == BEGIN
    && (forall i :: 0 <= i < |outcomes| - 1 ==> !outcomes[i].ended)
  }

  /** What one turn adds. */
  lemma TurnAdds(before: Moment, turn: Turn, after: Moment, outcome: Outcome)
    requires TurnAt(before, turn, after, outcome)
    ensures Steady(after.q, after.p) && after.q.accepted == before.q.accepted + Inputs(turn)
    ensures before.q.written <= after.q.written
  {
  }

  /** Up to a moment, exactly what was sent is accepted and every byte written stays. */
  ghost predicate Sound(turns: seq<Turn>, moments: seq<Moment>, n: nat) {
    && n < |moments| && n <= |turns|
    && moments[n].q.accepted == Sent(turns[..n]) && (forall j :: 0 <= j <= n ==> moments[j].q.written <= moments[n].q.written)
  }

  lemma TraceAdds(turns: seq<Turn>, moments: seq<Moment>, outcomes: seq<Outcome>, n: nat)
    requires Trace(turns, moments, outcomes) && n < |outcomes|
    ensures moments[n + 1].q.accepted == moments[n].q.accepted + Inputs(turns[n])
    ensures moments[n].q.written <= moments[n + 1].q.written
    ensures Steady(moments[n + 1].q, moments[n + 1].p)
  {
    ChainAt(TurnAt, turns, moments, outcomes, n);
    TurnAdds(moments[n], turns[n], moments[n + 1], outcomes[n]);
  }

  lemma SoundNext(turns: seq<Turn>, moments: seq<Moment>, n: nat)
    requires Sound(turns, moments, n) && n + 1 < |moments| && n < |turns|
    requires moments[n + 1].q.accepted == moments[n].q.accepted + Inputs(turns[n])
    requires moments[n].q.written <= moments[n + 1].q.written
    ensures Sound(turns, moments, n + 1)
  {
    assert turns[..n + 1][..n] == turns[..n];
  }

  /** Every moment of a trace, over every schedule: exactly what the turns so far sent
      is accepted, and no written byte is taken back. */
  lemma {:induction false} TraceSound(turns: seq<Turn>, moments: seq<Moment>, outcomes: seq<Outcome>, n: nat)
    requires Trace(turns, moments, outcomes) && n <= |outcomes|
    ensures Sound(turns, moments, n)
  {
    if n > 0 {
      TraceSound(turns, moments, outcomes, n - 1);
      TraceAdds(turns, moments, outcomes, n - 1);
      SoundNext(turns, moments, n - 1);
    }
  }

  /** ... and order, acknowledgements and pacing are kept. */
  lemma TraceSteady(turns: seq<Turn>, moments: seq<Moment>, outcomes: seq<Outcome>)
    requires Trace(turns, moments, outcomes)
    ensures forall n :: 0 <= n < |moments| ==> Steady(moments[n].q, moments[n].p)
  {
    forall n | 0 <= n < |moments| ensures Steady(moments[n].q, moments[n].p) {
      if n == 0 {
        IdleSteady(moments[n].q, moments[n].p);
      } else {
        var k := n - 1;
        TraceAdds(turns, moments, outcomes, k);
        assert k + 1 == n;
      }
    }
  }

  predicate Over(outcomes: seq<Outcome>) {
    outcomes != [] && outcomes[|outcomes| - 1].ended
  }

  predicate Chronological(turns: seq<Turn>) {
    forall i, j :: 0 <= i < j < |turns| ==> turns[i].now <= turns[j].now
  }

  /** A trace that is not over can take its next turn. */
  lemma TraceReady(turns: seq<Turn>, moments: seq<Moment>, outcomes: seq<Outcome>)
    requires Trace(turns, moments, outcomes) && |outcomes| < |turns| && !Over(outcomes) && Chronological(turns)
    ensures var m := moments[|outcomes|];
            Steady(m.q, m.p) && m.q.acked == m.q.done && m.p.clock <= turns[|outcomes|].now
  {
    if outcomes == [] {
      IdleSteady(moments[0].q, moments[0].p);
    } else {
      var n := |outcomes| - 1;
      ChainAt(TurnAt, turns, moments, outcomes, n);
      TurnAdds(moments[n], turns[n], moments[n + 1], outcomes[n]);
      assert turns[n].now <= turns[n + 1].now;
    }
  }

  /** A trace that is not over, and one more turn. */
  lemma TraceExtends(turns: seq<Turn>, moments: seq<Moment>, outcomes: seq<Outcome>, next: Moment, outcome: Outcome)
    requires Trace(turns, moments, outcomes) && |outcomes| < |turns| && !Over(outcomes)
    requires TurnAt(moments[|outcomes|], turns[|outcomes|], next, outcome)
    ensures Trace(turns, moments + [next], outcomes + [outcome])
  {
    ChainExtends(TurnAt, turns, moments, outcomes, next, outcome);
  }

  /** The next turn. */
  method Proceed(turns: seq<Turn>, moments: seq<Moment>, outcomes: seq<Outcome>) returns (next: Moment, outcome: Outcome)
    requires Trace(turns, moments, outcomes) && |outcomes| < |turns| && !Over(outcomes) && Chronological(turns)
    ensures Trace(turns, moments + [next], outcomes + [outcome])
  {
    TraceReady(turns, moments, outcomes);
    var last := moments[|outcomes|];
    var q, p, mark, ended := Iterate(last.q, last.p, turns[|outcomes|]);
    next, outcome := Moment(q, p), Outcome(mark, ended);
    TraceExtends(turns, moments, outcomes, next, outcome);
  }

  /** The loop, over every schedule, is a trace of it to its end. */
  method StreamOutput(turns: seq<Turn>) returns (moments: seq<Moment>, outcomes: seq<Outcome>)
    requires Chronological(turns)
    ensures Trace(turns, moments, outcomes) && (|outcomes| == |turns| || Over(outcomes))
    ensures forall n :: 0 <= n < |moments| ==> Sound(turns, moments, n)
  {
    moments, outcomes := [BEGIN], [];
    while |outcomes| < |turns| && !Over(outcomes)
      invariant Trace(turns, moments, outcomes)
      decreases |turns| - |outcomes|
    {
      var next, outcome := Proceed(turns, moments, outcomes);
      moments, outcomes := moments + [next], outcomes + [outcome];
    }
    forall n | 0 <= n < |moments| ensures Sound(turns, moments, n) {
      TraceSound(turns, moments, outcomes, n);
    }
  }

  /** It happens: a request that arrives between the drain and the mark finds an
      accepted input still in the channel of a reader that calls itself quiesced. */
  method QuiesceOvertakesInput(input: PendingInput) returns (q: Queue, marked: bool)
    requires input.data != []
    ensures marked && q.accepted == q.channel == [input] && q.written == [] && q.acked == []
  {
    var mark;
    q, marked, mark := QuiesceCheck(Accept(IDLE, [input]), Turn(0, [], false, false, [], true, false, true, Elsewhere));
  }
}
