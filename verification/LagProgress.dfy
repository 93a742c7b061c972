/**
 When a subscriber starts and stops lagging, access by access, and that it can always
 catch up.
 */
module LagProgress {
  import opened LagRace
  import opened Paths

  /** The lag mark is set exactly by a look that finds the line over the budget, and lifted
      exactly at the end of a resync; the flag follows it. */
  lemma LagChangesIff(s: State, step: Step, t: State)
    requires Sound(s) && Next(s, step, t)
    ensures !s.box.since && t.box.since <==> step.Look? && s.holder.Looking? && s.box.pending + s.holder.len > s.box.budget
    ensures s.box.since && !t.box.since <==> step.RefillDone?
    ensures !s.box.lagged && t.box.lagged <==> step.Mark?
    ensures s.box.lagged && !t.box.lagged <==> step.Clear?
  {
  }

  /** In every run, a subscriber that lags came to it at a line that would have exceeded the
      budget, and no resync has ended since. */
  lemma {:induction false} LaggedByOverflow(run: seq<State>, steps: seq<Step>, i: nat) returns (k: nat)
    requires Run(run, steps) && i < |run| && run[i].box.since
    ensures k < i && steps[k].Look? && run[k].holder.Looking? && run[k].box.pending + run[k].holder.len > run[k].box.budget
    ensures forall m :: k < m <= i ==> run[m].box.since
  {
    RunSound(run, steps, i - 1);
    assert StepAt(run, steps, i - 1);
    LagChangesIff(run[i - 1], steps[i - 1], run[i]);
    if run[i - 1].box.since {
      k := LaggedByOverflow(run, steps, i - 1);
    } else {
      k := i - 1;
    }
  }

  /** A line that fits is queued behind what is queued already, and counted once. */
  lemma FittingLineQueued(s: State) returns (a: State, b: State, t: State)
    requires Sound(s) && s.holder.Looking? && s.box.pending + s.holder.len <= s.box.budget
    ensures Next(s, Look, a) && Next(a, Add, b) && Next(b, Send, t)
    ensures t.holder.Free? && !t.box.since && t.box.queue == s.box.queue + [s.holder.len] && t.box.pending == s.box.pending + s.holder.len
  {
    a := s.(holder := Adding(s.holder.len));
    b := a.(box := a.box.(pending := a.box.pending + a.holder.len), holder := Sending(a.holder.len));
    t := b.(box := b.box.(queue := b.box.queue + [b.holder.len]), holder := Free);
  }

  // ----------------------------------------------------------------- reaching

  ghost predicate Linked(s: State, t: State) {
    exists step :: Next(s, step, t)
  }

  /** One access further. */
  lemma Onward(s: State, t: State, step: Step, u: State)
    requires Follows(Linked, s, t) && Sound(t) && Next(t, step, u)
    ensures Follows(Linked, s, u) && Sound(u)
  {
    assert Linked(t, u);
    FollowsOn(Linked, s, t, u);
    if EnqueueStep(t, step, u) {
      EnqueueSound(t, step, u);
    } else if ResyncStep(t, step, u) {
      ResyncSound(t, step, u);
    } else {
      WriterSound(t, step, u);
    }
  }

  // ------------------------------------------------------------ catching up

  /** Somewhere later the lock is free, and the lag as it is then. */
  ghost predicate CanFree(s: State, lagging: bool) {
    exists t :: Follows(Linked, s, t) && Sound(t) && t.holder.Free? && t.box.since == lagging
  }

  /** A resync carries its batch over and then lifts the lag. */
  lemma {:induction false} RefillEnds(s: State, t: State, rest: seq<Len>)
    requires Follows(Linked, s, t) && Sound(t) && t.holder == Refilling(rest)
    ensures CanFree(s, false)
    decreases |rest|
  {
    if rest == [] {
      var u := t.(box := t.box.(since := false), holder := Clearing);
      Onward(s, t, RefillDone, u);
      ClearFrees(s, u);
    } else {
      var u := t.(box := t.box.(pending := t.box.pending + rest[0]), holder := RefillSending(rest[0], rest[1..]));
      Onward(s, t, RefillAdd, u);
      RefillGoesOn(s, u);
    }
  }

  lemma {:induction false} RefillGoesOn(s: State, t: State)
    requires Follows(Linked, s, t) && Sound(t) && t.holder.RefillSending?
    ensures CanFree(s, false)
    decreases |t.holder.rest| + 1, 0
  {
    var u := t.(box := t.box.(queue := t.box.queue + [t.holder.len]), holder := Refilling(t.holder.rest));
    Onward(s, t, RefillSend, u);
    RefillEnds(s, u, t.holder.rest);
  }

  lemma ClearFrees(s: State, t: State)
    requires Follows(Linked, s, t) && Sound(t) && t.holder.Clearing?
    ensures CanFree(s, false)
  {
    var u := t.(box := t.box.(lagged := false), holder := Free);
    Onward(s, t, Clear, u);
  }

  lemma MarkFrees(s: State, t: State)
    requires Follows(Linked, s, t) && Sound(t) && t.holder.Marking?
    ensures CanFree(s, true)
  {
    var u := t.(box := t.box.(lagged := true), holder := Rechecking(t.holder.heeded));
    Onward(s, t, Mark, u);
    RecheckFrees(s, u);
  }

  lemma RecheckFrees(s: State, t: State)
    requires Follows(Linked, s, t) && Sound(t) && t.holder.Rechecking?
    ensures CanFree(s, true)
  {
    var u := t.(holder := Free, wakes := Reported(t.wakes, t.box.pending == 0, t.holder.heeded));
    Onward(s, t, Recheck, u);
  }

  lemma AddFrees(s: State, t: State)
    requires Follows(Linked, s, t) && Sound(t) && t.holder.Adding?
    ensures CanFree(s, false)
  {
    var u := t.(box := t.box.(pending := t.box.pending + t.holder.len), holder := Sending(t.holder.len));
    Onward(s, t, Add, u);
    SendFrees(s, u);
  }

  lemma SendFrees(s: State, t: State)
    requires Follows(Linked, s, t) && Sound(t) && t.holder.Sending?
    ensures CanFree(s, false)
  {
    var u := t.(box := t.box.(queue := t.box.queue + [t.holder.len]), holder := Free);
    Onward(s, t, Send, u);
  }

  lemma LookFrees(s: State, t: State)
    requires Follows(Linked, s, t) && Sound(t) && t.holder.Looking?
    ensures CanFree(s, true) || CanFree(s, false)
  {
    if t.box.pending + t.holder.len > t.box.budget {
      var u := t.(box := t.box.(since := true), holder := Marking(t.holder.heeded));
      Onward(s, t, Look, u);
      MarkFrees(s, u);
    } else {
      var u := t.(holder := Adding(t.holder.len));
      Onward(s, t, Look, u);
      AddFrees(s, u);
    }
  }

  /** Whoever holds the lock can let go of it. */
  lemma HolderFrees(s: State)
    requires Sound(s)
    ensures CanFree(s, true) || CanFree(s, false)
  {
    FollowsItself(Linked, s);
    match s.holder
    case Free => assert CanFree(s, s.box.since);
    case Looking(_, _) => LookFrees(s, s);
    case Marking(_) => MarkFrees(s, s);
    case Rechecking(_) => RecheckFrees(s, s);
    case Adding(_) => AddFrees(s, s);
    case Sending(_) => SendFrees(s, s);
    case Refilling(rest) => RefillEnds(s, s, rest);
    case RefillSending(_, _) => RefillGoesOn(s, s);
    case Clearing => ClearFrees(s, s);
  }

  /** How much the writer has left to do. */
  function Work(s: State): nat {
    3 * |s.box.queue| + match s.writer case Waiting => 0 case Got(_) => 2 case Deducted(_) => 1
  }

  lemma WriterMoves(t: State) returns (step: Step, u: State)
    requires Sound(t) && t.holder.Free? && Work(t) > 0
    ensures Next(t, step, u) && Work(u) < Work(t) && u.holder.Free? && u.box.since == t.box.since
  {
    match t.writer
    case Waiting =>
      step, u := Receive, t.(box := t.box.(queue := t.box.queue[1..]), writer := Got(t.box.queue[0]));
    case Got(len) =>
      step := Deduct;
      u := t.(box := t.box.(pending := t.box.pending - len), writer := Deducted(t.box.pending == len));
    case Deducted(last) =>
      step := Finish;
      u := t.(writer := Waiting, wakes := t.wakes.(notified := t.wakes.notified || (last && t.box.lagged)));
  }

  /** The writer can write everything queued. */
  lemma {:induction false} WriterDrains(s: State, t: State) returns (u: State)
    requires Follows(Linked, s, t) && Sound(t) && t.holder.Free?
    ensures Follows(Linked, s, u) && Sound(u) && u.holder.Free? && u.box.pending == 0 && u.box.since == t.box.since
    decreases Work(t)
  {
    if Work(t) == 0 {
      u := t;
    } else {
      var step, next := WriterMoves(t);
      Onward(s, t, step, next);
      u := WriterDrains(s, next);
    }
  }

  /** A drained lagged subscriber is found by the next tick and resynchronised, whether or
      not anybody noticed before. */
  lemma TickResyncs(s: State, t: State)
    requires Follows(Linked, s, t) && Sound(t) && t.holder.Free? && t.box.since && t.box.pending == 0
    ensures CanFree(s, false)
  {
    var u := t.(wakes := t.wakes.(calls := t.wakes.calls + 1));
    Onward(s, t, Tick, u);
    var v := u.(holder := Refilling([1]), wakes := u.wakes.(calls := u.wakes.calls - 1));
    Onward(s, u, Resync([1]), v);
    RefillEnds(s, v, [1]);
  }

  /** Lagging ends: from every sound state, which every state of every run is, whoever holds
      the lock and whatever wakeup was lost, some continuation leaves the subscriber with
      both marks lifted. */
  lemma CanCatchUp(s: State) returns (t: State)
    requires Sound(s)
    ensures Follows(Linked, s, t) && t.holder.Free? && !t.box.since && !t.box.lagged
  {
    HolderFrees(s);
    if !CanFree(s, false) {
      var free :| Follows(Linked, s, free) && Sound(free) && free.holder.Free? && free.box.since;
      var drained := WriterDrains(s, free);
      TickResyncs(s, drained);
    }
    t :| Follows(Linked, s, t) && Sound(t) && t.holder.Free? && t.box.since == false;
  }
}
