/**
 One subscriber's lag flag against its draining writer, one atomic access at a
 time.

 The program under the fanout lock (enqueue or resync) and the writer task share
 `pending_bytes`, the `lagged` flag and the mailbox. A wakeup is lost when a
 lagged subscriber has drained, nobody is in the middle of noticing, and no
 resync is on its way. Accesses are sequentially consistent.
 */
module LagRace {
  type Len = n: nat | n > 0 witness 1   // bytes of one line

  /** Where the holder of the fanout lock is. */
  datatype Holder =
    | Free
    | Looking(len: Len, heeded: bool)   // not lagged; about to load pending_bytes
    | Marking(heeded: bool)             // lagged_since set; about to store the flag
    | Rechecking(heeded: bool)          // flag stored; about to load pending_bytes again
    | Adding(len: Len)                  // within budget; about to add to pending_bytes
    | Sending(len: Len)                 // added; about to send
    | Refilling(rest: seq<Len>)         // resync batch; about to add the next line
    | RefillSending(len: Len, rest: seq<Len>)
    | Clearing                          // lagged_since cleared; about to clear the flag

  /** Where the writer task is. */
  datatype Writer =
    | Waiting
    | Got(len: Len)          // line received and written, not yet deducted
    | Deducted(last: bool)   // deducted; about to load the flag if that was the last byte

  datatype Mailbox = Mailbox(budget: nat, queue: seq<Len>, pending: nat, since: bool, lagged: bool)

  /** Resyncs on their way: calls about to take the lock, a stored notification,
      a scheduled retry. */
  datatype Wakes = Wakes(calls: nat, notified: bool, retry: bool)

  datatype State = State(box: Mailbox, holder: Holder, writer: Writer, wakes: Wakes)

  datatype Step =
    | Enqueue(len: Len, heeded: bool)   // a live line; a resize ignores its report
    | Look
    | Mark
    | Recheck
    | Add
    | Send
    | Notified
    | RetryFires
    | Tick
    | Resync(lines: seq<Len>)
    | ResyncNotReady
    | ResyncIdle
    | RefillAdd
    | RefillSend
    | RefillDone
    | Clear
    | Receive
    | Deduct
    | Finish

  predicate HasDrainedLagged(s: State) {
    s.box.since && s.box.pending == 0
  }

  // ----------------------------------------------------------------- steps

  function Reported(w: Wakes, ready: bool, heeded: bool): Wakes {
    w.(calls := w.calls + if ready && heeded then 1 else 0)
  }

  /** Enqueueing one live line. */
  ghost predicate EnqueueStep(s: State, step: Step, t: State) {
    match step
    case Enqueue(len, heeded) =>
      && s.holder.Free?
      && (s.box.since ==> t == s.(wakes := Reported(s.wakes, s.box.pending == 0, heeded)))
      && (!s.box.since ==> t == s.(holder := Looking(len, heeded)))
    case Look =>
      && s.holder.Looking?
      && var over := s.box.pending + s.holder.len > s.box.budget;
      && (over ==> t == s.(box := s.box.(since := true), holder := Marking(s.holder.heeded)))
      && (!over ==> t == s.(holder := Adding(s.holder.len)))
    case Mark => s.holder.Marking? && t == s.(box := s.box.(lagged := true), holder := Rechecking(s.holder.heeded))
    case Recheck =>
      && s.holder.Rechecking?
      && t == s.(holder := Free, wakes := Reported(s.wakes, s.box.pending == 0, s.holder.heeded))
    case Add =>
      && s.holder.Adding?
      && t == s.(box := s.box.(pending := s.box.pending + s.holder.len), holder := Sending(s.holder.len))
    case Send =>
      && s.holder.Sending?
      && t == s.(box := s.box.(queue := s.box.queue + [s.holder.len]), holder := Free)
    case _ => false
  }

  /** Waking up and resynchronising from a snapshot. */
  ghost predicate ResyncStep(s: State, step: Step, t: State) {
    match step
    case Notified => s.wakes.notified && t == s.(wakes := s.wakes.(notified := false, calls := s.wakes.calls + 1))
    case RetryFires => s.wakes.retry && t == s.(wakes := s.wakes.(retry := false, notified := true))
    case Tick => s.holder.Free? && HasDrainedLagged(s) && t == s.(wakes := s.wakes.(calls := s.wakes.calls + 1))
    case Resync(lines) =>
      && s.holder.Free? && s.wakes.calls > 0 && HasDrainedLagged(s) && lines != []
      && t == s.(holder := Refilling(lines), wakes := s.wakes.(calls := s.wakes.calls - 1))
    case ResyncNotReady =>
      && s.holder.Free? && s.wakes.calls > 0 && HasDrainedLagged(s)
      && t == s.(wakes := s.wakes.(calls := s.wakes.calls - 1, retry := true))
    case ResyncIdle =>
      && s.holder.Free? && s.wakes.calls > 0 && !HasDrainedLagged(s)
      && t == s.(wakes := s.wakes.(calls := s.wakes.calls - 1))
    case RefillAdd =>
      && s.holder.Refilling? && s.holder.rest != []
      && t == s.(box := s.box.(pending := s.box.pending + s.holder.rest[0]),
                 holder := RefillSending(s.holder.rest[0], s.holder.rest[1..]))
    case RefillSend =>
      && s.holder.RefillSending?
      && t == s.(box := s.box.(queue := s.box.queue + [s.holder.len]), holder := Refilling(s.holder.rest))
    case RefillDone =>
      && s.holder.Refilling? && s.holder.rest == []
      && t == s.(box := s.box.(since := false), holder := Clearing)
    case Clear => s.holder.Clearing? && t == s.(box := s.box.(lagged := false), holder := Free)
    case _ => false
  }

  /** The writer task, which takes no fanout lock. */
  ghost predicate WriterStep(s: State, step: Step, t: State) {
    match step
    case Receive =>
      && s.writer.Waiting? && s.box.queue != []
      && t == s.(box := s.box.(queue := s.box.queue[1..]), writer := Got(s.box.queue[0]))
    case Deduct =>
      && s.writer.Got? && s.box.pending >= s.writer.len
      && t == s.(box := s.box.(pending := s.box.pending - s.writer.len),
                 writer := Deducted(s.box.pending == s.writer.len))
    case Finish =>
      && s.writer.Deducted?
      && t == s.(writer := Waiting, wakes := s.wakes.(notified := s.wakes.notified || (s.writer.last && s.box.lagged)))
    case _ => false
  }

  ghost predicate Next(s: State, step: Step, t: State) {
    EnqueueStep(s, step, t) || ResyncStep(s, step, t) || WriterStep(s, step, t)
  }

  /** A subscriber as registered: its initial batch queued, whatever the budget. */
  ghost predicate Initial(s: State) {
    s == State(Mailbox(s.box.budget, s.box.queue, Sum(s.box.queue), false, false), Free, Waiting, Wakes(0, false, false))
  }

  ghost predicate StepAt(run: seq<State>, steps: seq<Step>, i: nat)
    requires i < |steps| && |run| == |steps| + 1
  {
    Next(run[i], steps[i], run[i + 1])
  }

  ghost predicate Run(run: seq<State>, steps: seq<Step>) {
    |run| == |steps| + 1 && Initial(run[0]) && forall i :: 0 <= i < |steps| ==> StepAt(run, steps, i)
  }

  // ------------------------------------------------------------- invariant

  function Sum(lens: seq<Len>): nat {
    if lens == [] then 0 else lens[0] + Sum(lens[1..])
  }

  lemma {:induction false} SumAppend(lens: seq<Len>, len: Len)
    ensures Sum(lens + [len]) == Sum(lens) + len
  {
    if lens != [] {
      SumAppend(lens[1..], len);
      assert (lens + [len])[1..] == lens[1..] + [len];
    }
  }

  function Unsent(h: Holder): nat {
    if h.Sending? || h.RefillSending? then h.len else 0
  }

  function Unwritten(w: Writer): nat {
    if w.Got? then w.len else 0
  }

  /** `pending_bytes` counts every byte from before it is sent until after it is
      written. */
  ghost predicate Accounted(s: State) {
    s.box.pending == Sum(s.box.queue) + Unsent(s.holder) + Unwritten(s.writer)
  }

  /** The two lag marks agree except inside the two windows that change them. */
  ghost predicate Marks(box: Mailbox, h: Holder) {
    && (h.Looking? || h.Adding? || h.Sending? ==> !box.since && !box.lagged)
    && (h.Marking? ==> box.since && !box.lagged)
    && (h.Rechecking? || h.Refilling? || h.RefillSending? ==> box.since && box.lagged)
    && (h.Clearing? ==> !box.since && box.lagged)
    && (h.Free? ==> box.since == box.lagged)
  }

  /** Somebody is about to notice, or a resync is on its way. */
  predicate Armed(s: State) {
    || s.wakes.calls > 0 || s.wakes.notified || s.wakes.retry
    || !s.holder.Free?
    || s.writer == Deducted(true)
  }

  ghost predicate Sound(s: State) {
    Accounted(s) && Marks(s.box, s.holder)
  }

  /** The step reports a drained lagged subscriber to a caller that ignores it. */
  predicate Discards(s: State, step: Step) {
    && s.box.pending == 0
    && ((step.Enqueue? && !step.heeded && s.box.since) || (step.Recheck? && s.holder.Rechecking? && !s.holder.heeded))
  }

  lemma EnqueueSound(s: State, step: Step, t: State)
    requires Sound(s) && EnqueueStep(s, step, t)
    ensures Sound(t)
  {
    if step.Send? {
      SumAppend(s.box.queue, s.holder.len);
    }
  }

  lemma ResyncSound(s: State, step: Step, t: State)
    requires Sound(s) && ResyncStep(s, step, t)
    ensures Sound(t)
  {
    if step.RefillSend? {
      SumAppend(s.box.queue, s.holder.len);
    }
  }

  lemma WriterSound(s: State, step: Step, t: State)
    requires Sound(s) && WriterStep(s, step, t)
    ensures Sound(t)
  {
  }

  lemma {:induction false} RunSound(run: seq<State>, steps: seq<Step>, i: nat)
    requires Run(run, steps) && i < |run|
    ensures Sound(run[i])
  {
    if i > 0 {
      RunSound(run, steps, i - 1);
      assert StepAt(run, steps, i - 1);
      var s, step, t := run[i - 1], steps[i - 1], run[i];
      if EnqueueStep(s, step, t) {
        EnqueueSound(s, step, t);
      } else if ResyncStep(s, step, t) {
        ResyncSound(s, step, t);
      } else {
        WriterSound(s, step, t);
      }
    }
  }

  // -------------------------------------------------------------- theorems

  /** A step loses no wakeup unless it discards a report. */
  lemma NoWakeupLost(s: State, step: Step, t: State)
    requires Sound(s) && Next(s, step, t) && !Discards(s, step)
    requires HasDrainedLagged(s) ==> Armed(s)
    ensures HasDrainedLagged(t) ==> Armed(t)
  {
  }

  /** In every run in which no report is discarded, a lagged subscriber that has
      drained always has somebody about to notice it or a resync on its way. */
  lemma {:induction false} DrainedIsNoticed(run: seq<State>, steps: seq<Step>, i: nat)
    requires Run(run, steps) && i < |run|
    requires forall k :: 0 <= k < i ==> !Discards(run[k], steps[k])
    ensures HasDrainedLagged(run[i]) ==> Armed(run[i])
  {
    if i > 0 {
      DrainedIsNoticed(run, steps, i - 1);
      RunSound(run, steps, i - 1);
      assert StepAt(run, steps, i - 1);
      NoWakeupLost(run[i - 1], steps[i - 1], run[i]);
    }
  }

  /** The condition is exact: a discarded report with nothing else on its way
      leaves the drained subscriber unnoticed. */
  lemma DiscardLosesWakeup(s: State, step: Step, t: State)
    requires Sound(s) && Next(s, step, t) && Discards(s, step)
    requires s.wakes == Wakes(0, false, false) && s.writer != Deducted(true)
    ensures HasDrainedLagged(t) && !Armed(t)
  {
  }

  /** It happens: one resize snapshot over the budget on an empty mailbox. */
  lemma ResizeLosesWakeup(budget: nat, len: Len) returns (run: seq<State>, steps: seq<Step>)
    requires len > budget
    ensures Run(run, steps) && run[0].box.budget == budget && steps == [Enqueue(len, false), Look, Mark, Recheck]
    ensures HasDrainedLagged(run[4]) && !Armed(run[4])
  {
    var none := Wakes(0, false, false);
    var s0 := State(Mailbox(budget, [], 0, false, false), Free, Waiting, none);
    var s1 := State(Mailbox(budget, [], 0, false, false), Looking(len, false), Waiting, none);
    var s2 := State(Mailbox(budget, [], 0, true, false), Marking(false), Waiting, none);
    var s3 := State(Mailbox(budget, [], 0, true, true), Rechecking(false), Waiting, none);
    var s4 := State(Mailbox(budget, [], 0, true, true), Free, Waiting, none);
    run, steps := [s0, s1, s2, s3, s4], [Enqueue(len, false), Look, Mark, Recheck];
    assert Next(s0, steps[0], s1) && Next(s1, steps[1], s2) && Next(s2, steps[2], s3) && Next(s3, steps[3], s4);
    forall i | 0 <= i < |steps| ensures StepAt(run, steps, i) {
      assert i == 0 || i == 1 || i == 2 || i == 3;
    }
  }

  /** Missed or not, a drained lagged subscriber stays drained and lagged until a
      resync takes it up, so the next tick's check finds it. */
  lemma StaysUntilResync(s: State, step: Step, t: State)
    requires Sound(s) && Next(s, step, t) && s.holder.Free? && HasDrainedLagged(s)
    ensures step.Resync? || (t.holder.Free? && HasDrainedLagged(t))
    ensures step.Resync? ==> t.holder.Refilling?
  {
  }

  /** In every run, from a moment at which a subscriber is lagged, drained and let alone
      until the next resync starts, it stays so: every tick in between finds it. */
  lemma {:induction false} StaysUntilResyncInRun(run: seq<State>, steps: seq<Step>, i: nat, j: nat)
    requires Run(run, steps) && i <= j < |run| && run[i].holder.Free? && HasDrainedLagged(run[i])
    requires forall k :: i <= k < j ==> !steps[k].Resync?
    ensures run[j].holder.Free? && HasDrainedLagged(run[j])
  {
    if i < j {
      StaysUntilResyncInRun(run, steps, i, j - 1);
      RunSound(run, steps, j - 1);
      assert StepAt(run, steps, j - 1);
      StaysUntilResync(run[j - 1], steps[j - 1], run[j]);
    }
  }

  /** A resync puts its whole batch into an empty mailbox: when it starts, nothing
      is queued and nothing is in the writer's hand. */
  lemma ResyncFindsNothing(run: seq<State>, steps: seq<Step>, i: nat)
    requires Run(run, steps) && i < |steps| && steps[i].Resync?
    ensures run[i].box.queue == [] && !run[i].writer.Got?
  {
    RunSound(run, steps, i);
    assert StepAt(run, steps, i);
  }
}
