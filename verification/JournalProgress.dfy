/**
 When the journal gets back to disk, which provider id ends up published, and how long
 the backoff is.
 */
module JournalProgress {
  import opened Common
  import opened Journal

  // ----------------------------------------------------------- back to disk

  /** The file is open for appending and holds exactly what memory holds. */
  ghost predicate OnDisk(j: State) {
    && j.store.handle.Live? && !j.store.degraded && !j.store.repairNeeded
    && Terminated(j.store.file) && Decode(j.store.file) == j.events
  }

  /** A file open for appending holds exactly what memory holds. A file that is not in step
      may lack this, and no repair needs it. */
  ghost predicate Exact(j: State) {
    j.store.handle.Live? ==> Terminated(j.store.file) && Decode(j.store.file) == j.events
  }

  /** No fault at all. */
  const CLEAN: Faults := Faults(Replaced, Replaced, true, Wrote)

  /** Nothing goes wrong. */
  predicate Clean(op: Op) {
    match op
    case AppendOp(_, _, faults) => faults == CLEAN
    case SetOp(_, _, outcome) => outcome.Replaced?
  }

  /** An append leaves the file open, and then exact, if and only if its own line was
      written and the file was open before or was rewritten and reopened by a repair whose
      time had come. */
  lemma OnDiskIff(j: State, payload: nat, now: nat, faults: Faults)
    requires Sound(j) && Exact(j) && (faults.write.Torn? ==> faults.write.pieces < 3)
    ensures OnDisk(Appended(j, payload, now, faults)) <==>
              && faults.write.Wrote?
              && (j.store.handle.Live? ||
                  (&& j.usable && j.store.repairNeeded && faults.rewrite.Replaced? && faults.reopens
                   && (j.store.retry.nextAt.Some? ==> now >= j.store.retry.nextAt.value)))
  {
    AppendedOk(j, payload, now, faults);
    EncodeDecode(j.events);
    AppendIffTerminated(j.store.file, Entry(|j.events|, payload));
    AppendIffTerminated(Encode(j.events), Entry(|j.events|, payload));
  }

  /** A failed append is retried: it asks for a repair, and leaves the event in memory. */
  lemma TornAsksRepair(j: State, payload: nat, now: nat, faults: Faults)
    requires Sound(j) && j.store.handle.Live? && faults.write.Torn? && faults.write.pieces < 3
    ensures var t := Appended(j, payload, now, faults);
            t.store.repairNeeded && t.store.degraded && t.events == j.events + [Entry(|j.events|, payload)]
  {
  }

  /** A repair is outstanding, with this budget. */
  ghost predicate Waiting(j: State, b: Budget) {
    j.usable && j.store.handle.NoFile? && j.store.repairNeeded && j.store.retry == b
  }

  lemma CleanStep(j: State, op: Op, b: Budget)
    requires Sound(j) && Exact(j) && Clean(op) && OpOk(op)
    ensures OnDisk(j) ==> OnDisk(Performed(j, op))
    ensures Waiting(j, b) && op.AppendOp? && Due(b, op.now) ==> OnDisk(Performed(j, op))
    ensures Waiting(j, b) && !(op.AppendOp? && Due(b, op.now)) ==> Waiting(Performed(j, op), b)
  {
    if op.AppendOp? {
      OnDiskIff(j, op.payload, op.now, op.faults);
    }
  }

  /** Some operation is an append whose time is up. */
  predicate DueAppend(ops: seq<Op>, b: Budget) {
    exists i :: 0 <= i < |ops| && ops[i].AppendOp? && Due(b, ops[i].now)
  }

  lemma DueSnoc(ops: seq<Op>, op: Op, b: Budget)
    ensures DueAppend(ops + [op], b) <==> DueAppend(ops, b) || (op.AppendOp? && Due(b, op.now))
  {
    var more := ops + [op];
    assert more[|ops|] == op;
    if DueAppend(ops, b) {
      var i :| 0 <= i < |ops| && ops[i].AppendOp? && Due(b, ops[i].now);
      assert more[i] == ops[i];
    }
  }

  lemma {:induction false} CleanRun(j: State, ops: seq<Op>)
    requires Sound(j) && j.usable && j.store.repairNeeded
    requires forall i :: 0 <= i < |ops| ==> Clean(ops[i]) && OpOk(ops[i])
    ensures DueAppend(ops, j.store.retry) ==> OnDisk(Served(j, ops))
    ensures !DueAppend(ops, j.store.retry) ==> Waiting(Served(j, ops), j.store.retry)
  {
    if ops != [] {
      var n := |ops| - 1;
      CleanRun(j, ops[..n]);
      ServedOk(j, ops[..n]);
      CleanStep(Served(j, ops[..n]), ops[n], j.store.retry);
      DueSnoc(ops[..n], ops[n], j.store.retry);
      assert ops == ops[..n] + [ops[n]];
    }
  }

  /** After any operations under any faults, once nothing goes wrong any more: a journal
      that asks for a repair has the whole history on disk again if and only if one of the
      appends comes when its backoff is over. */
  lemma RepairedIff(j: State, before: seq<Op>, after: seq<Op>)
    requires Sound(j) && (forall i :: 0 <= i < |before| ==> OpOk(before[i]))
    requires forall i :: 0 <= i < |after| ==> Clean(after[i]) && OpOk(after[i])
    requires Served(j, before).usable && Served(j, before).store.repairNeeded
    ensures var broken := Served(j, before);
            OnDisk(Served(broken, after)) <==> DueAppend(after, broken.store.retry)
    ensures var broken := Served(j, before);
            OnDisk(Served(broken, after)) ==>
              Decode(Served(broken, after).store.file) == History(broken.events, after) && broken.events == History(j.events, before)
  {
    ServedOk(j, before);
    ServedHistory(j, before);
    CleanRun(Served(j, before), after);
    ServedHistory(Served(j, before), after);
  }

  // --------------------------------------------------------- for ever off disk

  /** Nothing is going to repair the file. */
  predicate Abandoned(j: State) {
    j.store.handle.NoFile? && (!j.usable || !j.store.repairNeeded)
  }

  lemma {:induction false} AbandonedStays(j: State, ops: seq<Op>)
    requires Sound(j) && Abandoned(j) && forall i :: 0 <= i < |ops| ==> OpOk(ops[i])
    ensures Abandoned(Served(j, ops)) && Served(j, ops).store.file == j.store.file && Served(j, ops).usable == j.usable
  {
    if ops != [] {
      AbandonedStays(j, ops[..|ops| - 1]);
      ServedOk(j, ops[..|ops| - 1]);
    }
  }

  /** Some operations get the history to disk. */
  ghost predicate CanBeOnDisk(j: State) {
    exists ops: seq<Op> :: (forall i :: 0 <= i < |ops| ==> OpOk(ops[i])) && OnDisk(Served(j, ops))
  }

  /** When a repair is due. */
  function DueAt(b: Budget): nat {
    if b.nextAt.Some? then b.nextAt.value else 0
  }

  lemma RepairGetsOnDisk(j: State)
    requires Sound(j) && j.usable && j.store.repairNeeded
    ensures OnDisk(Performed(j, AppendOp(0, DueAt(j.store.retry), CLEAN)))
  {
    OnDiskIff(j, 0, DueAt(j.store.retry), CLEAN);
  }

  lemma ServedOne(j: State, op: Op)
    requires OpOk(op)
    ensures Served(j, [op]) == Performed(j, op)
  {
    assert [op][..0] == [] && Served(j, []) == j;
  }

  lemma ServedTwo(j: State, a: Op, b: Op)
    requires OpOk(a) && OpOk(b)
    ensures Served(j, [a, b]) == Performed(Performed(j, a), b)
  {
    ServedOne(j, a);
    assert [a, b][..1] == [a];
  }

  lemma OffDiskRepaired(j: State)
    requires Sound(j) && j.usable && j.store.repairNeeded
    ensures CanBeOnDisk(j)
  {
    var op := AppendOp(0, DueAt(j.store.retry), CLEAN);
    RepairGetsOnDisk(j);
    ServedOne(j, op);
    assert OnDisk(Served(j, [op]));
  }

  lemma LiveRepaired(j: State)
    requires Sound(j) && j.store.handle.Live?
    ensures CanBeOnDisk(j)
  {
    var torn := AppendOp(0, 0, CLEAN.(write := Torn(0)));
    var broken := Performed(j, torn);
    AppendedOk(j, 0, 0, torn.faults);
    TornAsksRepair(j, 0, 0, torn.faults);
    var op := AppendOp(0, DueAt(broken.store.retry), CLEAN);
    RepairGetsOnDisk(broken);
    ServedTwo(j, torn, op);
    assert OnDisk(Served(j, [torn, op]));
  }

  /** Memory can get back to disk if and only if the file is open, or the directory is
      usable and a repair was asked for. A journal whose file could not be opened, with no
      migration outstanding, asks for none: what it appends never reaches the disk. */
  lemma OnDiskAgainIff(j: State)
    requires Sound(j)
    ensures CanBeOnDisk(j) <==> j.store.handle.Live? || (j.usable && j.store.repairNeeded)
  {
    if Abandoned(j) {
      forall ops: seq<Op> | forall i :: 0 <= i < |ops| ==> OpOk(ops[i]) ensures !OnDisk(Served(j, ops)) {
        AbandonedStays(j, ops);
      }
    } else if j.store.handle.Live? {
      LiveRepaired(j);
    } else {
      OffDiskRepaired(j);
    }
  }

  /** It happens: the file of a usable journal cannot be opened, and the journal never
      tries again. */
  method NeverReopened(ops: seq<Op>) returns (j: AgentJournal)
    requires forall i :: 0 <= i < |ops| ==> OpOk(ops[i])
    ensures fresh(j) && j.usable && j.store.handle.NoFile? && Decode(j.store.file) == [] && j.events == History([], ops)
  {
    j := new AgentJournal.Open([], None, true, true, Replaced, false);
    assert Dense([]) && Decode([]) == [] && InSync(j.Value());
    AbandonedStays(j.Value(), ops);
    j.Serve(ops);
  }

  // --------------------------------------------------------- the provider id

  /** The id the journal stands for: the one it still means to publish, or the published
      one. */
  function Meant(m: Metadata): Option<Id> {
    if m.pending.Some? then m.pending else m.published
  }

  /** An id is published by the call that sets it if and only if it was already, or its
      file is replaced at once: a pending one only when its backoff is over. */
  lemma SetPublishesIff(usable: bool, m: Metadata, id: Id, now: nat, outcome: Replace)
    ensures var t := MetadataSet(usable, m, id, now, outcome);
            t.published == Some(id) <==>
              || m.published == Some(id)
              || (usable && outcome.Replaced? && (m.pending == Some(id) && m.retry.nextAt.Some? ==> now >= m.retry.nextAt.value))
    ensures var t := MetadataSet(usable, m, id, now, outcome);
            t.published == Some(id) && m.published != Some(id) ==> t.disk == Some(id) && t.pending.None?
    ensures var t := MetadataSet(usable, m, id, now, outcome);
            t.published != Some(id) ==> t.pending == Some(id) && t.published == m.published
  {
  }

  /** A pending id is published by the first append at or after the end of its backoff
      whose replacement succeeds, and by no other. */
  lemma RetryPublishesIff(j: State, payload: nat, now: nat, faults: Faults)
    requires j.meta.pending.Some? && (faults.write.Torn? ==> faults.write.pieces < 3)
    ensures var t := Appended(j, payload, now, faults).meta;
            t.pending.None? <==> j.usable && faults.publish.Replaced? && (j.meta.retry.nextAt.Some? ==> now >= j.meta.retry.nextAt.value)
    ensures var t := Appended(j, payload, now, faults).meta;
            if t.pending.None? then t.published == t.disk == j.meta.pending else t.pending == j.meta.pending && t.published == j.meta.published
  {
  }

  lemma {:induction false} AppendsKeepMeant(j: State, ops: seq<Op>)
    requires forall i :: 0 <= i < |ops| ==> OpOk(ops[i]) && ops[i].AppendOp?
    ensures Meant(Served(j, ops).meta) == Meant(j.meta)
  {
    if ops != [] {
      AppendsKeepMeant(j, ops[..|ops| - 1]);
    }
  }

  /** The last id set is the one the journal stands for, whatever happens afterwards, if
      and only if it was not the published one while another was pending: then the call
      does nothing, and the other id, set earlier, is published later. */
  lemma LastSetMeantIff(j: State, id: Id, now: nat, outcome: Replace, ops: seq<Op>)
    requires Sound(j) && (forall i :: 0 <= i < |ops| ==> OpOk(ops[i]) && ops[i].AppendOp?)
    ensures Meant(Served(Performed(j, SetOp(id, now, outcome)), ops).meta) == Some(id) <==>
              j.meta.pending.None? || j.meta.published != Some(id)
  {
    AppendsKeepMeant(Performed(j, SetOp(id, now, outcome)), ops);
  }

  /** It happens: another id is set and its file cannot be replaced; the published one is
      set again; and the next append publishes the other one. */
  lemma EarlierIdWins(j: State, a: Id, b: Id, now: nat)
    requires j.usable && j.meta.published == Some(a) && j.meta.pending.None? && a != b
    ensures var failed := Performed(j, SetOp(b, now, StageFails));
            var again := Performed(failed, SetOp(a, now, Replaced));
            var m := Performed(again, AppendOp(0, now + 400, CLEAN)).meta;
            m.published == m.disk == Some(b) && m.pending.None?
  {
    DelayDoubles(1);
    var failed := Performed(j, SetOp(b, now, StageFails));
    assert failed.meta.retry == Budget(1, Some(now + 400));
    RetryPublishesIff(failed, 0, now + 400, CLEAN);
  }

  // ------------------------------------------------------------- the backoff

  /** 400 ms after the first failure, doubling, and 30 s from the eighth on. */
  lemma DelayDoubles(n: nat)
    ensures Delay(1) == 400
    ensures 0 < n < 7 ==> Delay(n + 1) == 2 * Delay(n)
    ensures n >= 8 ==> Delay(n) == 30_000
  {
    PowersOfTwo();
  }

  lemma PowersOfTwo()
    ensures Pow2(1) == 2 && Pow2(2) == 4 && Pow2(3) == 8 && Pow2(4) == 16
    ensures Pow2(5) == 32 && Pow2(6) == 64 && Pow2(7) == 128 && Pow2(8) == 256
  {
    assert Pow2(4) == 16;
    assert Pow2(6) == 64;
  }

  /** The least time n attempts in a row take, in closed form. */
  lemma {:induction false} WaitsExactly(n: nat)
    requires n > 0
    ensures Waits(n) == if n <= 8 then 200 * (Pow2(n) - 2) else 50_800 + 30_000 * (n - 8)
  {
    PowersOfTwo();
    if n > 1 {
      WaitsExactly(n - 1);
      DelayDoubles(n - 1);
    }
  }

  /** A failure never puts off the next attempt by more than 30 s. */
  ghost predicate Prompt(b: Budget, log: seq<Try>) {
    b.nextAt.Some? ==> log != [] && b.nextAt.value <= log[|log| - 1].at + 30_000
  }

  lemma {:induction false} ServedPrompt(j: State, ops: seq<Op>)
    requires Prompt(j.store.retry, j.store.tries) && Prompt(j.meta.retry, j.meta.tries) && forall i :: 0 <= i < |ops| ==> OpOk(ops[i])
    ensures Prompt(Served(j, ops).store.retry, Served(j, ops).store.tries)
    ensures Prompt(Served(j, ops).meta.retry, Served(j, ops).meta.tries)
  {
    if ops != [] {
      var before := Served(j, ops[..|ops| - 1]);
      ServedPrompt(j, ops[..|ops| - 1]);
      PerformedPrompt(before, ops[|ops| - 1]);
    }
  }

  lemma PerformedPrompt(j: State, op: Op)
    requires Prompt(j.store.retry, j.store.tries) && Prompt(j.meta.retry, j.meta.tries) && OpOk(op)
    ensures Prompt(Performed(j, op).store.retry, Performed(j, op).store.tries)
    ensures Prompt(Performed(j, op).meta.retry, Performed(j, op).meta.tries)
  {
    if op.AppendOp? {
      StorePrompt(j.usable, j.store, j.events, op);
    }
    MetadataPrompt(j, op);
  }

  lemma StorePrompt(usable: bool, s: Store, events: seq<Entry>, op: Op)
    requires Prompt(s.retry, s.tries) && op.AppendOp? && OpOk(op)
    ensures var mid := StoreRetried(usable, s, events, op.now, op.faults.rewrite, op.faults.reopens);
            var t := Written(mid, Entry(|events|, op.payload), op.now, op.faults.write);
            Prompt(t.retry, t.tries)
  {
    var mid := StoreRetried(usable, s, events, op.now, op.faults.rewrite, op.faults.reopens);
    assert Prompt(mid.retry, mid.tries);
  }

  lemma MetadataPrompt(j: State, op: Op)
    requires Prompt(j.meta.retry, j.meta.tries) && OpOk(op)
    ensures Prompt(Performed(j, op).meta.retry, Performed(j, op).meta.tries)
  {
  }
}
