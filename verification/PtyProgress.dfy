/**
 What one turn of the reader loop does, said from the turn alone, and that every input
 accepted so far can be written and acknowledged.
 */
module PtyProgress {
  import opened Common
  import opened PtyWriter

  /** A turn that gets to the select. */
  predicate Selects(turn: Turn, outcome: Outcome) {
    !turn.stop && outcome.mark.None?
  }

  /** The receive arm takes the front of the channel exactly when there is one and no
      quiesce is requested; a drain empties it of what came before; nothing else takes
      from it. */
  lemma ReceiveTakesFront(before: Moment, turn: Turn, after: Moment, outcome: Outcome)
    requires TurnAt(before, turn, after, outcome) && Selects(turn, outcome)
    ensures var waiting := (if turn.asked then [] else before.q.channel + turn.early) + turn.late;
            after.q.channel == if turn.arm.Receive? && !turn.askedLast && waiting != [] then waiting[1..] else waiting
  {
  }

  /** The inputs to be written when the select is reached. */
  function Queued(q: Queue, turn: Turn): seq<PendingInput> {
    q.pending + if turn.asked then Solid(q.channel + turn.early) else []
  }

  /** The write arm is taken, and its guard is on: there is an input and no pause. */
  predicate Writes(m: Moment, turn: Turn) {
    turn.arm.Writable? && Queued(m.q, turn) != [] && m.p.pause.None?
  }

  /** A write that takes part of the front input writes that part and ends nothing. */
  lemma WritePartOfFront(before: Moment, turn: Turn, after: Moment, outcome: Outcome)
    requires TurnAt(before, turn, after, outcome) && Selects(turn, outcome) && Writes(before, turn)
    requires before.q.offset + turn.arm.accepts < |Queued(before.q, turn)[0].data|
    ensures var data, from := Queued(before.q, turn)[0].data, before.q.offset;
            after.q.written == before.q.written + data[from..from + turn.arm.accepts]
    ensures after.q.done == before.q.done && after.q.acked == before.q.acked && after.p.pause.None? && !outcome.ended
  {
    assert Checked(before.q, turn).pending == Queued(before.q, turn);
    PartPiece(Checked(before.q, turn), before.p, turn);
  }

  /** A write that takes the rest of it completes it: it is done, acknowledged unless its
      draft accounting failed, which ends the loop, and a logical one starts the pause. */
  lemma WriteRestOfFront(before: Moment, turn: Turn, after: Moment, outcome: Outcome)
    requires TurnAt(before, turn, after, outcome) && Selects(turn, outcome) && Writes(before, turn)
    requires before.q.offset < |Queued(before.q, turn)[0].data| <= before.q.offset + turn.arm.accepts
    ensures var front := Queued(before.q, turn)[0];
            && after.q.written == before.q.written + front.data[before.q.offset..] && after.q.done == before.q.done + [front]
            && (outcome.ended <==> front.draft && !turn.arm.draftOk)
            && after.q.acked == (if outcome.ended then before.q.acked else before.q.acked + [front])
            && after.p.pause == (if front.kind.Logical? then Some(turn.now + SUBMIT_DELAY_MS) else None)
  {
    assert Checked(before.q, turn).pending == Queued(before.q, turn);
    WholePiece(Checked(before.q, turn), before.p, turn);
  }

  /** Nothing else writes or acknowledges; the pause is over when its timer fires at or
      after its end, and the loop ends when the line hangs up. */
  lemma OthersWriteNothing(before: Moment, turn: Turn, after: Moment, outcome: Outcome)
    requires TurnAt(before, turn, after, outcome) && Selects(turn, outcome) && !Writes(before, turn)
    ensures after.q.written == before.q.written && after.q.done == before.q.done && after.q.acked == before.q.acked
    ensures outcome.ended <==> turn.arm.Hangup?
    ensures after.p.pause == if turn.arm.PauseTimer? && before.p.pause.Some? && turn.now >= before.p.pause.value
                             then None else before.p.pause
  {
    assert Checked(before.q, turn).pending == Queued(before.q, turn);
    NoPiece(Checked(before.q, turn), before.p, turn);
  }

  /** A reader calls itself quiesced exactly when quiesce is still requested after the drain
      and no input is left to write. */
  lemma MarkedIff(before: Moment, turn: Turn, after: Moment, outcome: Outcome)
    requires TurnAt(before, turn, after, outcome)
    ensures outcome.mark.Some? <==> !turn.stop && turn.askedAgain && Queued(before.q, turn) == []
    ensures outcome.mark.Some? ==> (outcome.ended <==> turn.stopHeld) && outcome.mark.value.written == after.q.written == before.q.written
  {
    assert Checked(before.q, turn).pending == Queued(before.q, turn);
  }

  // ------------------------------------------------------------------- progress

  /** No other task interferes: nothing is sent, asked or stopped, the line stays up, and
      draft accounting works. */
  predicate Calm(turn: Turn) {
    && turn.early == [] && turn.late == [] && !turn.stop && !turn.asked && !turn.askedAgain && !turn.askedLast
    && !turn.arm.Hangup? && (turn.arm.Writable? ==> turn.arm.draftOk)
  }

  function Quiet(now: nat, arm: Arm): Turn {
    Turn(now, [], false, false, [], false, false, false, arm)
  }

  function Later(a: nat, b: nat): nat {
    if a < b then b else a
  }

  /** What the loop itself would do next, no earlier than a given time: receive first, then
      wait out the pause, then write. */
  function NextTurn(m: Moment, since: nat): Turn {
    var now := Later(since, m.p.clock);
    if m.q.channel != [] then Quiet(now, Receive)
    else if m.p.pause.Some? then Quiet(Later(now, m.p.pause.value), PauseTimer)
    else Quiet(now, Writable(if m.q.pending == [] then 0 else |m.q.pending[0].data|, true))
  }

  /** How many turns are left at most. */
  function Left(m: Moment): nat {
    3 * |m.q.channel| + 2 * |m.q.pending| + if m.p.pause.Some? then 1 else 0
  }

  predicate Flushed(m: Moment) {
    m.q.channel == [] && m.q.pending == []
  }

  /** Between two turns of a loop that goes on. */
  ghost predicate Between(m: Moment) {
    Steady(m.q, m.p) && m.q.acked == m.q.done
  }

  /** Everything accepted is written, and every input with bytes acknowledged. */
  lemma FlushedIsWritten(m: Moment)
    requires Between(m) && Flushed(m)
    ensures m.q.written == Bytes(m.q.accepted) && m.q.acked == Solid(m.q.accepted)
  {
    NothingLostOrReordered(m.q);
    assert m.q.done + [] + [] == m.q.done;
  }

  lemma Unchecked(q: Queue, turn: Turn)
    requires Calm(turn)
    ensures Checked(q, turn) == q
  {
    assert q.channel + [] + [] == q.channel && q.accepted + [] + [] == q.accepted && q.pending + [] == q.pending;
  }

  lemma Cancel<T>(a: seq<T>, b: seq<T>, c: seq<T>)
    requires a + b == a + c
    ensures b == c
  {
    assert b == (a + b)[|a|..] && c == (a + c)[|a|..];
  }

  /** The inputs left to write, after a turn that sent none. */
  lemma RestPending(q: Queue, r: Queue)
    requires QueueOk(q) && QueueOk(r) && r.accepted == q.accepted && r.done == q.done
    ensures q.pending + Solid(q.channel) == r.pending + Solid(r.channel)
  {
    Assoc(q.done, q.pending, Solid(q.channel));
    Assoc(q.done, r.pending, Solid(r.channel));
    Cancel(q.done, q.pending + Solid(q.channel), r.pending + Solid(r.channel));
  }

  /** What a turn left to itself does, whichever it is. */
  lemma CalmTurn(m: Moment, turn: Turn, next: Moment, outcome: Outcome)
    requires TurnAt(m, turn, next, outcome) && Calm(turn)
    ensures Selects(turn, outcome) && Queued(m.q, turn) == m.q.pending && next.q.accepted == m.q.accepted && QueueOk(next.q)
    ensures next.q.channel == if turn.arm.Receive? && m.q.channel != [] then m.q.channel[1..] else m.q.channel
  {
    Unchecked(m.q, turn);
    ReceiveTakesFront(m, turn, next, outcome);
  }

  lemma ReceiveShrinks(q: Queue, r: Queue)
    requires QueueOk(q) && QueueOk(r) && r.accepted == q.accepted && r.done == q.done && q.channel != [] && r.channel == q.channel[1..]
    ensures |r.pending| <= |q.pending| + 1
  {
    RestPending(q, r);
    assert q.channel == [q.channel[0]] + q.channel[1..];
    SolidAppend([q.channel[0]], q.channel[1..]);
    One(q.channel[0]);
  }

  lemma ReceiveHelps(m: Moment, since: nat, next: Moment, outcome: Outcome)
    requires Between(m) && m.q.channel != [] && TurnAt(m, NextTurn(m, since), next, outcome)
    ensures Left(next) < Left(m) && next.q.accepted == m.q.accepted && !outcome.ended
  {
    CalmTurn(m, NextTurn(m, since), next, outcome);
    OthersWriteNothing(m, NextTurn(m, since), next, outcome);
    ReceiveShrinks(m.q, next.q);
  }

  lemma PauseHelps(m: Moment, since: nat, next: Moment, outcome: Outcome)
    requires Between(m) && m.q.channel == [] && m.p.pause.Some? && TurnAt(m, NextTurn(m, since), next, outcome)
    ensures Left(next) < Left(m) && next.q.accepted == m.q.accepted && !outcome.ended
  {
    CalmTurn(m, NextTurn(m, since), next, outcome);
    OthersWriteNothing(m, NextTurn(m, since), next, outcome);
    RestPending(m.q, next.q);
  }

  lemma WriteShrinks(q: Queue, r: Queue)
    requires QueueOk(q) && QueueOk(r) && r.accepted == q.accepted && q.pending != [] && r.done == q.done + [q.pending[0]] && r.channel == q.channel
    ensures r.pending == q.pending[1..]
  {
    CompleteFifo(q.accepted, q.done, q.pending, q.channel);
    Assoc(r.done, q.pending[1..], Solid(q.channel));
    Assoc(r.done, r.pending, Solid(r.channel));
    Cancel(r.done, q.pending[1..] + Solid(q.channel), r.pending + Solid(r.channel));
    assert |r.pending| == |q.pending[1..]|;
    assert r.pending == (r.pending + Solid(r.channel))[..|r.pending|];
  }

  lemma WriteHelps(m: Moment, since: nat, next: Moment, outcome: Outcome)
    requires Between(m) && m.q.channel == [] && m.p.pause.None? && m.q.pending != [] && TurnAt(m, NextTurn(m, since), next, outcome)
    ensures Left(next) < Left(m) && next.q.accepted == m.q.accepted && !outcome.ended
  {
    CalmTurn(m, NextTurn(m, since), next, outcome);
    WriteRestOfFront(m, NextTurn(m, since), next, outcome);
    WriteShrinks(m.q, next.q);
  }

  lemma TurnHelps(m: Moment, since: nat, next: Moment, outcome: Outcome)
    requires Between(m) && !Flushed(m) && TurnAt(m, NextTurn(m, since), next, outcome)
    ensures Left(next) < Left(m) && next.q.accepted == m.q.accepted && !outcome.ended && Between(next)
  {
    if m.q.channel != [] {
      ReceiveHelps(m, since, next, outcome);
    } else if m.p.pause.Some? {
      PauseHelps(m, since, next, outcome);
    } else {
      WriteHelps(m, since, next, outcome);
    }
  }

  /** A trace of exactly the turns given, and one turn more. */
  lemma TraceGrows(turns: seq<Turn>, moments: seq<Moment>, outcomes: seq<Outcome>, turn: Turn, next: Moment, outcome: Outcome)
    requires Trace(turns, moments, outcomes) && |outcomes| == |turns| && !Over(outcomes)
    requires TurnAt(moments[|outcomes|], turn, next, outcome)
    ensures Trace(turns + [turn], moments + [next], outcomes + [outcome])
  {
    var longer := turns + [turn];
    forall i | 0 <= i < |outcomes| ensures Link(TurnAt, longer, moments, outcomes, i) {
      ChainAt(TurnAt, turns, moments, outcomes, i);
    }
    TraceExtends(longer, moments, outcomes, next, outcome);
  }

  lemma TraceCut(turns: seq<Turn>, moments: seq<Moment>, outcomes: seq<Outcome>)
    requires Trace(turns, moments, outcomes)
    ensures Trace(turns[..|outcomes|], moments, outcomes)
  {
    forall i | 0 <= i < |outcomes| ensures Link(TurnAt, turns[..|outcomes|], moments, outcomes, i) {
      ChainAt(TurnAt, turns, moments, outcomes, i);
    }
  }

  lemma TurnSettles(before: Moment, turn: Turn, after: Moment, outcome: Outcome)
    requires TurnAt(before, turn, after, outcome) && !outcome.ended
    ensures Between(after)
  {
  }

  lemma Settled(turns: seq<Turn>, moments: seq<Moment>, outcomes: seq<Outcome>)
    requires Trace(turns, moments, outcomes) && !Over(outcomes)
    ensures Between(moments[|outcomes|])
  {
    if outcomes == [] {
      IdleSteady(moments[0].q, moments[0].p);
    } else {
      var n := |outcomes| - 1;
      ChainAt(TurnAt, turns, moments, outcomes, n);
      TurnSettles(moments[n], turns[n], moments[n + 1], outcomes[n]);
    }
  }

  /** A loop that goes on after exactly these turns, and stands at the last moment. */
  ghost predicate Standing(turns: seq<Turn>, moments: seq<Moment>, outcomes: seq<Outcome>, last: Moment) {
    Trace(turns, moments, outcomes) && |outcomes| == |turns| && !Over(outcomes) && moments[|outcomes|] == last
  }

  /** The last turn's time. */
  function Since(turns: seq<Turn>): nat {
    if turns == [] then 0 else turns[|turns| - 1].now
  }

  lemma StandsOn(turns: seq<Turn>, moments: seq<Moment>, outcomes: seq<Outcome>, last: Moment, turn: Turn, next: Moment, outcome: Outcome)
    requires Standing(turns, moments, outcomes, last) && TurnAt(last, turn, next, outcome) && !outcome.ended
    ensures Standing(turns + [turn], moments + [next], outcomes + [outcome], next)
  {
    TraceGrows(turns, moments, outcomes, turn, next, outcome);
  }

  /** One turn of the loop left to itself. */
  method FlushTurn(last: Moment, since: nat) returns (turn: Turn, next: Moment, outcome: Outcome)
    requires Between(last) && !Flushed(last)
    ensures TurnAt(last, turn, next, outcome) && Calm(turn) && turn.now >= since
    ensures Left(next) < Left(last) && next.q.accepted == last.q.accepted && !outcome.ended && Between(next)
  {
    turn := NextTurn(last, since);
    var q, p, mark, ended := Iterate(last.q, last.p, turn);
    next, outcome := Moment(q, p), Outcome(mark, ended);
    TurnHelps(last, since, next, outcome);
  }

  /** The turns end with calm ones, after the first so many, and go forward in time if
      those did. */
  ghost predicate CalmAfter(turns: seq<Turn>, all: seq<Turn>) {
    && turns <= all && (forall i :: |turns| <= i < |all| ==> Calm(all[i]))
    && (Chronological(turns) ==> Chronological(all))
  }

  lemma CalmOn(turns: seq<Turn>, all: seq<Turn>, turn: Turn)
    requires CalmAfter(turns, all) && Calm(turn) && turn.now >= Since(all)
    ensures CalmAfter(turns, all + [turn])
  {
    if Chronological(all) {
      var more := all + [turn];
      forall i, j | 0 <= i < j < |more| ensures more[i].now <= more[j].now {
        if j == |all| && i < |all| - 1 {
          assert all[i].now <= all[|all| - 1].now;
        }
      }
    }
  }

  /** From any moment of any schedule at which the loop goes on, whatever is queued, half
      written or paused: turns in which no other task interferes, no more of them than
      there is left to do, after which exactly the accepted bytes are written, in order,
      and every input with bytes is acknowledged. */
  method Flush(turns: seq<Turn>, moments: seq<Moment>, outcomes: seq<Outcome>)
      returns (all: seq<Turn>, reached: seq<Moment>, ends: seq<Outcome>, last: Moment)
    requires Trace(turns, moments, outcomes) && !Over(outcomes)
    ensures Standing(all, reached, ends, last) && Between(last) && moments <= reached && outcomes <= ends
    ensures CalmAfter(turns[..|outcomes|], all) && |all| <= |outcomes| + Left(moments[|outcomes|])
    ensures last.q.accepted == moments[|outcomes|].q.accepted
    ensures Flushed(last) && last.q.written == Bytes(last.q.accepted) && last.q.acked == Solid(last.q.accepted)
  {
    all, reached, ends, last := turns[..|outcomes|], moments, outcomes, moments[|outcomes|];
    TraceCut(turns, moments, outcomes);
    Settled(turns, moments, outcomes);
    while !Flushed(last)
      invariant Standing(all, reached, ends, last) && moments <= reached && outcomes <= ends
      invariant CalmAfter(turns[..|outcomes|], all) && |all| + Left(last) <= |outcomes| + Left(moments[|outcomes|])
      invariant Between(last) && last.q.accepted == moments[|outcomes|].q.accepted
      decreases Left(last)
    {
      var turn, next, outcome := FlushTurn(last, Since(all));
      StandsOn(all, reached, ends, last, turn, next, outcome);
      CalmOn(turns[..|outcomes|], all, turn);
      all, reached, ends, last := all + [turn], reached + [next], ends + [outcome], next;
    }
    FlushedIsWritten(last);
  }

  /** Quiesce is requested, and nothing else happens. */
  function Asking(now: nat): Turn {
    Turn(now, [], false, true, [], true, false, true, Elsewhere)
  }

  lemma MarkedAtOnce(last: Moment, now: nat, next: Moment, outcome: Outcome)
    requires Flushed(last) && TurnAt(last, Asking(now), next, outcome)
    ensures outcome.mark.Some? && !outcome.ended && next.q.accepted == last.q.accepted
    ensures outcome.mark.value.accepted == last.q.accepted && outcome.mark.value.written == last.q.written
  {
    assert Queued(last.q, Asking(now)) == [];
    MarkedIff(last, Asking(now), next, outcome);
    assert last.q.accepted + [] + [] == last.q.accepted;
  }

  /** The turn that follows a request. */
  method QuiesceTurn(last: Moment, since: nat) returns (turn: Turn, next: Moment, outcome: Outcome)
    requires Between(last) && Flushed(last)
    ensures TurnAt(last, turn, next, outcome) && outcome.mark.Some? && !outcome.ended
    ensures outcome.mark.value.accepted == last.q.accepted && outcome.mark.value.written == last.q.written
  {
    turn := Asking(Later(since, last.p.clock));
    var q, p, mark, ended := Iterate(last.q, last.p, turn);
    next, outcome := Moment(q, p), Outcome(mark, ended);
    MarkedAtOnce(last, turn.now, next, outcome);
  }

  method Ask(turns: seq<Turn>, moments: seq<Moment>, outcomes: seq<Outcome>, last: Moment)
      returns (turn: Turn, next: Moment, outcome: Outcome)
    requires Standing(turns, moments, outcomes, last) && Between(last) && Flushed(last)
    ensures Standing(turns + [turn], moments + [next], outcomes + [outcome], next) && outcome.mark.Some?
    ensures outcome.mark.value.accepted == last.q.accepted && outcome.mark.value.written == last.q.written
  {
    turn, next, outcome := QuiesceTurn(last, Since(turns));
    StandsOn(turns, moments, outcomes, last, turn, next, outcome);
  }

  /** ... and the request that follows finds the reader quiesced, with everything written. */
  method Settle(turns: seq<Turn>, moments: seq<Moment>, outcomes: seq<Outcome>)
      returns (all: seq<Turn>, reached: seq<Moment>, ends: seq<Outcome>, next: Moment, outcome: Outcome)
    requires Trace(turns, moments, outcomes) && !Over(outcomes)
    ensures Standing(all, reached, ends, next) && moments <= reached && outcomes <= ends && ends != [] && ends[|ends| - 1] == outcome
    ensures outcome.mark.Some? && outcome.mark.value.accepted == moments[|outcomes|].q.accepted
    ensures outcome.mark.value.written == Bytes(outcome.mark.value.accepted)
  {
    var last, turn;
    all, reached, ends, last := Flush(turns, moments, outcomes);
    turn, next, outcome := Ask(all, reached, ends, last);
    all, reached, ends := all + [turn], reached + [next], ends + [outcome];
  }
}
