/**
 The agent event journal: events in memory, a line-per-event file that can fail at
 any step, repair by atomic rewrite, and the backoff between attempts.

 A line is two pieces and a newline, so that a torn write can stop inside an event,
 after it but before its newline, or before it. The operating system appears as
 fault parameters and a clock.
 */
module Journal {
  import opened Common

  type Id = nat   // a provider session id

  /** One journaled event; the payload stands for the whole agent event. */
  datatype Entry = Entry(index: nat, payload: nat)

  datatype Piece = Head(entry: Entry) | Rest(entry: Entry) | Newline

  // ------------------------------------------------------------- the format

  function Line(e: Entry): seq<Piece> {
    [Head(e), Rest(e), Newline]
  }

  /** The event a line holds, if it is intact; anything else is skipped. */
  function LineEvents(line: seq<Piece>): seq<Entry> {
    if |line| == 2 && line[0].Head? && line[1] == Rest(line[0].entry) then [line[0].entry] else []
  }

  datatype Scanned = Scanned(events: seq<Entry>, tail: seq<Piece>)

  /** Events of the finished lines, and the unfinished last line. */
  function Scan(file: seq<Piece>): Scanned {
    if file == [] then Scanned([], [])
    else
      var before := Scan(file[..|file| - 1]);
      var last := file[|file| - 1];
      if last.Newline?
      then Scanned(before.events + LineEvents(before.tail), [])
      else Scanned(before.events, before.tail + [last])
  }

  /** What loading the file yields; a last line without a newline counts too. */
  function Decode(file: seq<Piece>): seq<Entry> {
    Scan(file).events + LineEvents(Scan(file).tail)
  }

  predicate Terminated(file: seq<Piece>) {
    Scan(file).tail == []
  }

  function Encode(events: seq<Entry>): seq<Piece> {
    if events == [] then [] else Encode(events[..|events| - 1]) + Line(events[|events| - 1])
  }

  lemma ScanSnoc(file: seq<Piece>, piece: Piece)
    ensures Scan(file + [piece]) ==
            if piece.Newline? then Scanned(Scan(file).events + LineEvents(Scan(file).tail), [])
            else Scanned(Scan(file).events, Scan(file).tail + [piece])
  {
    assert (file + [piece])[..|file + [piece]| - 1] == file;
  }

  lemma ScanTwo(file: seq<Piece>, e: Entry)
    ensures Scan(file + [Head(e), Rest(e)]) == Scanned(Scan(file).events, Scan(file).tail + [Head(e), Rest(e)])
  {
    ScanSnoc(file, Head(e));
    ScanSnoc(file + [Head(e)], Rest(e));
    assert file + [Head(e)] + [Rest(e)] == file + [Head(e), Rest(e)];
    assert Scan(file).tail + [Head(e)] + [Rest(e)] == Scan(file).tail + [Head(e), Rest(e)];
  }

  lemma ScanLine(file: seq<Piece>, e: Entry)
    ensures Scan(file + Line(e)) == Scanned(Scan(file).events + LineEvents(Scan(file).tail + [Head(e), Rest(e)]), [])
  {
    ScanTwo(file, e);
    ScanSnoc(file + [Head(e), Rest(e)], Newline);
    assert file + [Head(e), Rest(e)] + [Newline] == file + Line(e);
  }

  /** Any unfinished beginning of a line, written behind any file. */
  lemma ScanPart(file: seq<Piece>, e: Entry, k: nat)
    requires k < 3
    ensures Scan(file + Line(e)[..k]) == Scanned(Scan(file).events, Scan(file).tail + Line(e)[..k])
  {
    var part := Line(e)[..k];
    if k == 0 {
      assert file + part == file && Scan(file).tail + part == Scan(file).tail;
    } else if k == 1 {
      ScanSnoc(file, Head(e));
      assert part == [Head(e)];
    } else {
      ScanTwo(file, e);
      assert part == [Head(e), Rest(e)];
    }
  }

  /** An appended line adds its event to what the file decodes to exactly when the
      file ends with a newline: behind a torn last line both are lost. */
  lemma AppendIffTerminated(file: seq<Piece>, e: Entry)
    ensures Decode(file + Line(e)) == Decode(file) + [e] <==> Terminated(file)
    ensures Terminated(file + Line(e))
  {
    ScanLine(file, e);
    var s := Scan(file);
    if s.tail == [] {
      assert s.tail + [Head(e), Rest(e)] == [Head(e), Rest(e)];
    } else {
      assert |s.tail + [Head(e), Rest(e)]| > 2;
      assert Decode(file + Line(e)) == s.events;
    }
  }

  /** A line torn anywhere leaves the earlier events, or all of them and its own. */
  lemma TornLine(file: seq<Piece>, e: Entry, k: nat)
    requires Terminated(file) && k < 3
    ensures Decode(file + Line(e)[..k]) == if k == 2 then Decode(file) + [e] else Decode(file)
  {
    ScanPart(file, e, k);
    var part := Line(e)[..k];
    assert Scan(file).tail + part == part;
    assert k == 0 || k == 1 || k == 2;
  }

  /** Round trip: a rewritten file ends with a newline and loads to what was
      written. */
  lemma {:induction false} EncodeDecode(events: seq<Entry>)
    ensures Terminated(Encode(events)) && Decode(Encode(events)) == events
  {
    if events != [] {
      var n := |events| - 1;
      EncodeDecode(events[..n]);
      AppendIffTerminated(Encode(events[..n]), events[n]);
      assert events == events[..n] + [events[n]];
    }
  }

  lemma OneLine(a: Entry)
    ensures Terminated(Line(a)) && Decode(Line(a)) == [a] && Scan(Line(a)).events == [a]
  {
    ScanLine([], a);
    assert [] + Line(a) == Line(a) && [] + [Head(a), Rest(a)] == [Head(a), Rest(a)];
  }

  /** Behind an intact event that lacks its newline, one more line hides both. */
  lemma MergedLine(a: Entry, b: Entry, c: Entry)
    ensures var file := Line(a) + Line(b)[..2];
            && Decode(file) == [a, b] && Terminated(file + Line(c)) && Decode(file + Line(c)) == [a]
  {
    var file := Line(a) + Line(b)[..2];
    OneLine(a);
    TornLine(Line(a), b, 2);
    ScanPart(Line(a), b, 2);
    ScanLine(file, c);
  }

  /** It happens: a journal reopened on a file whose last line lost only its newline
      loads that event, merges the next one into it, and from then on the file
      decodes to something that is no prefix of memory. */
  lemma MergedTail(a: Entry, b: Entry, c: Entry, d: Entry)
    requires b.payload != d.payload
    ensures var file := Line(a) + Line(b)[..2];
            && Decode(file) == [a, b]
            && Decode(file + Line(c) + Line(d)) == [a, d]
            && !PayloadPrefix(Decode(file + Line(c) + Line(d)), [a, b, c, d])
  {
    MergedLine(a, b, c);
    AppendIffTerminated(Line(a) + Line(b)[..2] + Line(c), d);
    assert [a] + [d] == [a, d] && [a, d][1].payload != [a, b, c, d][1].payload;
  }

  // ---------------------------------------------------------------- backoff

  const BASE_MS: nat := 200
  const MAX_MS: nat := 30_000
  const U32_MAX: nat := 0xffff_ffff

  datatype Budget = Budget(attempts: nat, nextAt: Option<nat>)

  const FRESH: Budget := Budget(0, None)

  function Pow2(n: nat): (r: nat)
    ensures r > 0
  {
    if n == 0 then 1 else 2 * Pow2(n - 1)
  }

  function Min(a: nat, b: nat): nat {
    if a < b then a else b
  }

  /** The wait after the given number of failures. */
  function Delay(attempts: nat): nat {
    Min(MAX_MS, BASE_MS * Pow2(Min(attempts, 8)))
  }

  predicate Due(b: Budget, now: nat) {
    b.nextAt.None? || now >= b.nextAt.value
  }

  function Failed(b: Budget, now: nat): Budget {
    var attempts := Min(b.attempts + 1, U32_MAX);
    Budget(attempts, Some(now + Delay(attempts)))
  }

  lemma {:induction false} Pow2Monotone(a: nat, b: nat)
    requires a <= b
    ensures Pow2(a) <= Pow2(b)
    decreases b - a
  {
    if a < b {
      Pow2Monotone(a, b - 1);
    }
  }

  lemma DelayMonotone(a: nat, b: nat)
    requires a <= b
    ensures Delay(a) <= Delay(b)
  {
    Pow2Monotone(Min(a, 8), Min(b, 8));
  }

  /** The least total wait between the first and the n-th of n attempts. */
  function Waits(n: nat): nat {
    if n <= 1 then 0 else Waits(n - 1) + Delay(n - 1)
  }

  /** One attempt at durable work: publishing a provider id, or bringing the history
      to disk. */
  datatype Target = ProviderId(id: Id) | WholeHistory
  datatype Try = Try(at: nat, target: Target, ok: bool)

  /** How many failures in a row, at one target, a log of attempts ends with. */
  function Streak(log: seq<Try>): nat {
    var n := |log|;
    if n == 0 || log[n - 1].ok then 0
    else if n > 1 && log[n - 2].target == log[n - 1].target then 1 + Streak(log[..n - 1])
    else 1
  }

  /** The attempt repeats the one before it, which failed. */
  predicate Repeats(log: seq<Try>, k: nat) {
    0 < k < |log| && log[k - 1].target == log[k].target && !log[k - 1].ok
  }

  /** A repeated attempt waits as long as the failures before it ask. */
  ghost predicate SpacedAt(log: seq<Try>, k: nat) {
    Repeats(log, k) ==> log[k].at >= log[k - 1].at + Delay(Streak(log[..k]))
  }

  ghost predicate Spaced(log: seq<Try>) {
    forall k :: 0 < k < |log| ==> SpacedAt(log, k)
  }

  /** The budget holds back a repetition of the last attempt. */
  ghost predicate Holds(b: Budget, log: seq<Try>) {
    Streak(log) > 0 ==>
      && b.attempts >= Min(Streak(log), U32_MAX)
      && b.nextAt.Some? && b.nextAt.value >= log[|log| - 1].at + Delay(Streak(log))
  }

  /** Past the eighth failure the wait no longer depends on the count, so neither
      does a saturated counter. */
  lemma DelayCapped(n: nat, attempts: nat)
    requires attempts >= Min(n, U32_MAX)
    ensures Delay(n) <= Delay(attempts)
  {
    if n <= attempts {
      DelayMonotone(n, attempts);
    } else {
      assert Min(n, 8) == Min(attempts, 8);
    }
  }

  /** One more attempt: due, if it repeats the last one. */
  lemma TrySpaced(b: Budget, log: seq<Try>, t: Try)
    requires Spaced(log) && (Repeats(log + [t], |log|) ==> Holds(b, log) && Due(b, t.at))
    ensures Spaced(log + [t])
  {
    var more := log + [t];
    forall k | 0 < k < |more| ensures SpacedAt(more, k) {
      if k < |log| {
        assert SpacedAt(log, k) && more[..k] == log[..k];
      } else {
        assert more[..k] == log;
      }
    }
  }

  /** A failure holds back the next attempt by at least its wait, saturation
      included. */
  lemma FailureHolds(b: Budget, log: seq<Try>, t: Try)
    requires !t.ok && (Repeats(log + [t], |log|) ==> Holds(b, log))
    ensures Holds(Failed(b, t.at), log + [t])
  {
    var more := log + [t];
    assert more[..|log|] == log;
    var b' := Failed(b, t.at);
    assert b'.attempts >= Min(Streak(more), U32_MAX);
    DelayCapped(Streak(more), b'.attempts);
  }

  /** Attempts i to j are all at one target, and all but perhaps the last failed. */
  ghost predicate InARow(log: seq<Try>, i: nat, j: nat) {
    i <= j < |log| && forall k :: i < k <= j ==> Repeats(log, k)
  }

  /** n attempts in a row took at least the sum of the first n - 1 waits. */
  ghost predicate SpreadOut(log: seq<Try>) {
    forall i: nat, j: nat :: InARow(log, i, j) ==> log[j].at >= log[i].at + Waits(j - i + 1)
  }

  lemma {:induction false} RowStreak(log: seq<Try>, i: nat, j: nat)
    requires InARow(log, i, j) && i < j
    ensures Streak(log[..j]) >= j - i
    decreases j
  {
    var before := log[..j];
    assert Repeats(log, j);
    if i < j - 1 {
      assert InARow(log, i, j - 1);
      RowStreak(log, i, j - 1);
      assert Repeats(log, j - 1) && before[..j - 1] == log[..j - 1];
    }
  }

  lemma {:induction false} RowSpread(log: seq<Try>, i: nat, j: nat)
    requires Spaced(log) && InARow(log, i, j)
    ensures log[j].at >= log[i].at + Waits(j - i + 1)
    decreases j
  {
    if i < j {
      assert InARow(log, i, j - 1);
      RowSpread(log, i, j - 1);
      RowStreak(log, i, j);
      DelayMonotone(j - i, Streak(log[..j]));
      assert Repeats(log, j) && SpacedAt(log, j);
    }
  }

  /** Any n consecutive attempts at one target that all failed but perhaps the last
      took at least the sum of the first n - 1 waits. */
  lemma BackoffBound(log: seq<Try>)
    requires Spaced(log)
    ensures SpreadOut(log)
  {
    forall i: nat, j: nat | InARow(log, i, j) ensures log[j].at >= log[i].at + Waits(j - i + 1) {
      RowSpread(log, i, j);
    }
  }

  // ---------------------------------------------------------------- journal

  datatype Handle = NoFile | Live

  /** Where a durable replacement stops. */
  datatype Replace = StageFails | RenameFails | SyncFails | Replaced

  datatype Write = Wrote | Torn(pieces: nat)   // pieces of the line that reached the file

  datatype Faults = Faults(publish: Replace, rewrite: Replace, reopens: bool, write: Write)

  ghost predicate Dense(events: seq<Entry>) {
    forall i :: 0 <= i < |events| ==> events[i].index == i
  }

  ghost predicate PayloadPrefix(a: seq<Entry>, b: seq<Entry>) {
    |a| <= |b| && forall i :: 0 <= i < |a| ==> a[i].payload == b[i].payload
  }

  /** Disk against memory: exact while a handle is held, a prefix otherwise. */
  ghost predicate Synced(file: seq<Piece>, handle: Handle, events: seq<Entry>) {
    && PayloadPrefix(Decode(file), events)
    && (handle.Live? ==> Terminated(file) && Decode(file) == events)
  }

  function Renumbered(events: seq<Entry>): seq<Entry> {
    if events == [] then [] else Renumbered(events[..|events| - 1]) + [Entry(|events| - 1, events[|events| - 1].payload)]
  }

  lemma {:induction false} RenumberedKeepsPayloads(events: seq<Entry>)
    ensures |Renumbered(events)| == |events| && Dense(Renumbered(events))
    ensures PayloadPrefix(events, Renumbered(events))
  {
    if events != [] {
      RenumberedKeepsPayloads(events[..|events| - 1]);
    }
  }

  /** The file after a durable replacement; it succeeded only if fully replaced. */
  function AfterReplace<T>(before: T, after: T, outcome: Replace): T {
    if outcome.SyncFails? || outcome.Replaced? then after else before
  }

  lemma AppendedSynced(file: seq<Piece>, events: seq<Entry>, e: Entry, write: Write)
    requires Synced(file, Live, events) && (write.Torn? ==> write.pieces < 3)
    ensures write.Wrote? ==> Synced(file + Line(e), Live, events + [e])
    ensures write.Torn? ==> Synced(file + Line(e)[..write.pieces], NoFile, events + [e])
  {
    AppendIffTerminated(file, e);
    if write.Torn? {
      TornLine(file, e, write.pieces);
    }
  }

  /** The file side: contents, handle, repair state, and every rewrite and failed
      append so far. The migration when the journal is opened is not among them:
      after it fails, the first repair is due at once. */
  datatype Store = Store(file: seq<Piece>, handle: Handle, degraded: bool, repairNeeded: bool, retry: Budget, tries: seq<Try>)

  /** The provider id side: file contents, published and pending ids, and every
      attempt to publish one. */
  datatype Metadata = Metadata(disk: Option<Id>, published: Option<Id>, pending: Option<Id>, retry: Budget, tries: seq<Try>)

  // ------------------------------------------------- what the operations do

  /** The metadata after one attempt to publish an id. */
  function Tried(usable: bool, m: Metadata, id: Id, now: nat, outcome: Replace): Metadata {
    var ok := usable && outcome.Replaced?;
    Metadata(
      if usable then AfterReplace(m.disk, Some(id), outcome) else m.disk,
      if ok then Some(id) else m.published,
      if ok then None else Some(id),
      if ok then FRESH else Failed(m.retry, now),
      m.tries + [Try(now, ProviderId(id), ok)])
  }

  /** A pending id is tried again once its backoff is over. */
  function MetadataRetried(usable: bool, m: Metadata, now: nat, outcome: Replace): Metadata {
    if m.pending.Some? && Due(m.retry, now) then Tried(usable, m, m.pending.value, now, outcome) else m
  }

  /** A published id changes nothing, a pending one waits for its backoff, and any
      other is tried at once. */
  function MetadataSet(usable: bool, m: Metadata, id: Id, now: nat, outcome: Replace): Metadata {
    if m.published == Some(id) || (m.pending == Some(id) && !Due(m.retry, now)) then m
    else Tried(usable, if m.pending == Some(id) then m else m.(retry := FRESH), id, now, outcome)
  }

  /** The store after an attempt to rewrite the history and reopen it. */
  function Rewritten(usable: bool, s: Store, events: seq<Entry>, now: nat, outcome: Replace, reopens: bool): Store {
    var ok := usable && outcome.Replaced? && reopens;
    Store(
      if usable then AfterReplace(s.file, Encode(events), outcome) else s.file,
      if ok then Live else s.handle, if ok then false else s.degraded, !ok,
      if ok then FRESH else Failed(s.retry, now),
      s.tries + [Try(now, WholeHistory, ok)])
  }

  function StoreRetried(usable: bool, s: Store, events: seq<Entry>, now: nat, outcome: Replace, reopens: bool): Store {
    if s.repairNeeded && Due(s.retry, now) then Rewritten(usable, s, events, now, outcome, reopens) else s
  }

  /** The store after a line was written behind it; a failure drops the handle and
      asks for a repair. */
  function Written(s: Store, e: Entry, now: nat, write: Write): Store
    requires write.Torn? ==> write.pieces < 3
  {
    if s.handle.NoFile? then s
    else if write.Wrote? then s.(file := s.file + Line(e))
    else Store(s.file + Line(e)[..write.pieces], NoFile, true, true, Failed(s.retry, now), s.tries + [Try(now, WholeHistory, false)])
  }

  // ----------------------------------------------------- what they all keep

  ghost predicate StoreOk(usable: bool, s: Store) {
    && s.degraded == s.handle.NoFile?
    && (s.repairNeeded ==> s.handle.NoFile?) && (!usable ==> s.handle.NoFile?)
    && (!s.repairNeeded ==> Streak(s.tries) == 0)
    && Spaced(s.tries) && Holds(s.retry, s.tries)
    && (forall k :: 0 <= k < |s.tries| ==> s.tries[k].target == WholeHistory)
  }

  /** The id whose publication is outstanding: that of the last attempt, if it failed. */
  function Outstanding(log: seq<Try>): Option<Id> {
    if log != [] && !log[|log| - 1].ok && log[|log| - 1].target.ProviderId? then Some(log[|log| - 1].target.id) else None
  }

  ghost predicate MetadataOk(m: Metadata) {
    && Spaced(m.tries) && Holds(m.retry, m.tries)
    && m.pending == Outstanding(m.tries) && (m.pending.Some? ==> m.published != m.pending)
    && (forall k :: 0 <= k < |m.tries| ==> m.tries[k].target.ProviderId?)
    && (m.tries != [] && m.pending.None? ==> m.published == m.disk == Some(m.tries[|m.tries| - 1].target.id))
  }

  /** An attempt that is due, or at another id than the last one. */
  lemma TriedOk(usable: bool, m: Metadata, id: Id, now: nat, outcome: Replace)
    requires Spaced(m.tries) && m.pending == Outstanding(m.tries) && m.published != Some(id)
    requires forall k :: 0 <= k < |m.tries| ==> m.tries[k].target.ProviderId?
    requires m.pending == Some(id) ==> Holds(m.retry, m.tries) && Due(m.retry, now)
    ensures MetadataOk(Tried(usable, m, id, now, outcome))
  {
    var t := Try(now, ProviderId(id), usable && outcome.Replaced?);
    TrySpaced(m.retry, m.tries, t);
    if !t.ok {
      FailureHolds(m.retry, m.tries, t);
    }
  }

  lemma MetadataRetriedOk(usable: bool, m: Metadata, now: nat, outcome: Replace)
    requires MetadataOk(m)
    ensures MetadataOk(MetadataRetried(usable, m, now, outcome))
  {
    if m.pending.Some? && Due(m.retry, now) {
      TriedOk(usable, m, m.pending.value, now, outcome);
    }
  }

  lemma MetadataSetOk(usable: bool, m: Metadata, id: Id, now: nat, outcome: Replace)
    requires MetadataOk(m)
    ensures MetadataOk(MetadataSet(usable, m, id, now, outcome))
  {
    if m.pending == Some(id) {
      MetadataRetriedOk(usable, m, now, outcome);
    } else if m.published != Some(id) {
      TriedOk(usable, m.(retry := FRESH), id, now, outcome);
    }
  }

  /** Whatever fails in a repair, the file is untouched or already the whole history. */
  lemma RewrittenOk(usable: bool, s: Store, events: seq<Entry>, now: nat, outcome: Replace, reopens: bool)
    requires StoreOk(usable, s) && s.repairNeeded && Due(s.retry, now)
    ensures StoreOk(usable, Rewritten(usable, s, events, now, outcome, reopens))
  {
    var t := Try(now, WholeHistory, usable && outcome.Replaced? && reopens);
    TrySpaced(s.retry, s.tries, t);
    if !t.ok {
      FailureHolds(s.retry, s.tries, t);
    }
  }

  lemma RewrittenSynced(usable: bool, s: Store, events: seq<Entry>, now: nat, outcome: Replace, reopens: bool)
    requires s.handle.NoFile? && Synced(s.file, NoFile, events)
    ensures var t := Rewritten(usable, s, events, now, outcome, reopens); Synced(t.file, t.handle, events)
  {
    EncodeDecode(events);
  }

  lemma WrittenOk(usable: bool, s: Store, e: Entry, now: nat, write: Write)
    requires StoreOk(usable, s) && (write.Torn? ==> write.pieces < 3)
    ensures StoreOk(usable, Written(s, e, now, write))
  {
    if s.handle.Live? && write.Torn? {
      var t := Try(now, WholeHistory, false);
      TrySpaced(s.retry, s.tries, t);
      FailureHolds(s.retry, s.tries, t);
    }
  }

  lemma WrittenSynced(s: Store, events: seq<Entry>, e: Entry, now: nat, write: Write)
    requires Synced(s.file, s.handle, events) && (write.Torn? ==> write.pieces < 3)
    ensures var t := Written(s, e, now, write); Synced(t.file, t.handle, events + [e])
  {
    if s.handle.Live? {
      AppendedSynced(s.file, events, e, write);
    }
  }

  // ------------------------------------------------- any sequence of operations

  datatype Op = AppendOp(payload: nat, now: nat, faults: Faults) | SetOp(id: Id, now: nat, outcome: Replace)

  predicate OpOk(op: Op) {
    op.AppendOp? && op.faults.write.Torn? ==> op.faults.write.pieces < 3
  }

  datatype State = State(usable: bool, store: Store, meta: Metadata, events: seq<Entry>)

  /** Numbers are dense, and both sides are in order. */
  ghost predicate Sound(j: State) {
    Dense(j.events) && StoreOk(j.usable, j.store) && MetadataOk(j.meta)
  }

  ghost predicate InSync(j: State) {
    Synced(j.store.file, j.store.handle, j.events)
  }

  function Appended(j: State, payload: nat, now: nat, faults: Faults): State
    requires faults.write.Torn? ==> faults.write.pieces < 3
  {
    var e := Entry(|j.events|, payload);
    State(j.usable,
          Written(StoreRetried(j.usable, j.store, j.events, now, faults.rewrite, faults.reopens), e, now, faults.write),
          MetadataRetried(j.usable, j.meta, now, faults.publish),
          j.events + [e])
  }

  function Performed(j: State, op: Op): State
    requires OpOk(op)
  {
    match op
    case AppendOp(payload, now, faults) => Appended(j, payload, now, faults)
    case SetOp(id, now, outcome) => j.(meta := MetadataSet(j.usable, j.meta, id, now, outcome))
  }

  function Served(j: State, ops: seq<Op>): State
    requires forall i :: 0 <= i < |ops| ==> OpOk(ops[i])
  {
    if ops == [] then j else Performed(Served(j, ops[..|ops| - 1]), ops[|ops| - 1])
  }

  lemma StoreAppendOk(usable: bool, s: Store, events: seq<Entry>, e: Entry, now: nat, faults: Faults)
    requires StoreOk(usable, s) && (faults.write.Torn? ==> faults.write.pieces < 3)
    ensures StoreOk(usable, Written(StoreRetried(usable, s, events, now, faults.rewrite, faults.reopens), e, now, faults.write))
  {
    if s.repairNeeded && Due(s.retry, now) {
      RewrittenOk(usable, s, events, now, faults.rewrite, faults.reopens);
    }
    WrittenOk(usable, StoreRetried(usable, s, events, now, faults.rewrite, faults.reopens), e, now, faults.write);
  }

  lemma AppendedOk(j: State, payload: nat, now: nat, faults: Faults)
    requires Sound(j) && (faults.write.Torn? ==> faults.write.pieces < 3)
    ensures Sound(Appended(j, payload, now, faults))
  {
    MetadataRetriedOk(j.usable, j.meta, now, faults.publish);
    StoreAppendOk(j.usable, j.store, j.events, Entry(|j.events|, payload), now, faults);
  }

  lemma AppendedInSync(j: State, payload: nat, now: nat, faults: Faults)
    requires Sound(j) && InSync(j) && (faults.write.Torn? ==> faults.write.pieces < 3)
    ensures InSync(Appended(j, payload, now, faults))
  {
    if j.store.repairNeeded && Due(j.store.retry, now) {
      RewrittenSynced(j.usable, j.store, j.events, now, faults.rewrite, faults.reopens);
    }
    var s := StoreRetried(j.usable, j.store, j.events, now, faults.rewrite, faults.reopens);
    WrittenSynced(s, j.events, Entry(|j.events|, payload), now, faults.write);
  }

  lemma PerformedOk(j: State, op: Op)
    requires Sound(j) && OpOk(op)
    ensures Sound(Performed(j, op)) && (InSync(j) ==> InSync(Performed(j, op)))
  {
    match op
    case AppendOp(payload, now, faults) =>
      AppendedOk(j, payload, now, faults);
      if InSync(j) {
        AppendedInSync(j, payload, now, faults);
      }
    case SetOp(id, now, outcome) =>
      MetadataSetOk(j.usable, j.meta, id, now, outcome);
  }

  /** Any sequence of operations, under any faults, keeps the numbers dense and disk in
      step with memory, and spreads out every failing series of attempts, at an id and
      at the history, by its backoff. */
  lemma {:induction false} ServedOk(j: State, ops: seq<Op>)
    requires Sound(j) && forall i :: 0 <= i < |ops| ==> OpOk(ops[i])
    ensures Sound(Served(j, ops)) && (InSync(j) ==> InSync(Served(j, ops)))
    ensures SpreadOut(Served(j, ops).meta.tries) && SpreadOut(Served(j, ops).store.tries)
  {
    if ops != [] {
      ServedOk(j, ops[..|ops| - 1]);
      PerformedOk(Served(j, ops[..|ops| - 1]), ops[|ops| - 1]);
    }
    BackoffBound(Served(j, ops).meta.tries);
    BackoffBound(Served(j, ops).store.tries);
  }

  /** The loaded events followed by every appended one, numbered by position. */
  function History(loaded: seq<Entry>, ops: seq<Op>): seq<Entry> {
    if ops == [] then loaded
    else
      var before := History(loaded, ops[..|ops| - 1]);
      var last := ops[|ops| - 1];
      before + if last.AppendOp? then [Entry(|before|, last.payload)] else []
  }

  /** Nothing appended is lost from memory, whatever fails on disk. */
  lemma {:induction false} ServedHistory(j: State, ops: seq<Op>)
    requires forall i :: 0 <= i < |ops| ==> OpOk(ops[i])
    ensures Served(j, ops).events == History(j.events, ops) && j.events <= History(j.events, ops)
  {
    if ops != [] {
      ServedHistory(j, ops[..|ops| - 1]);
    }
  }

  /** New attempts, all made now. */
  ghost predicate LogsNow(before: seq<Try>, after: seq<Try>, most: nat, now: nat) {
    before <= after && |after| <= |before| + most && forall k :: |before| <= k < |after| ==> after[k].at == now
  }

  /** An operation makes at most one attempt to publish an id, and changes neither the
      file it is kept in nor the published id without one. */
  lemma PerformedPublishes(j: State, op: Op)
    requires OpOk(op)
    ensures LogsNow(j.meta.tries, Performed(j, op).meta.tries, 1, op.now)
    ensures Performed(j, op).meta.tries == j.meta.tries ==> Performed(j, op).meta == j.meta
  {
  }

  /** An operation makes at most one rewrite and one failing append, and changes the
      file without either only by a line behind it. */
  lemma PerformedRewrites(j: State, op: Op)
    requires OpOk(op)
    ensures LogsNow(j.store.tries, Performed(j, op).store.tries, 2, op.now)
    ensures Performed(j, op).store.tries == j.store.tries ==>
              Performed(j, op).store == j.store.(file := Performed(j, op).store.file) && j.store.file <= Performed(j, op).store.file
  {
    if op.AppendOp? {
      var s := StoreRetried(j.usable, j.store, j.events, op.now, op.faults.rewrite, op.faults.reopens);
      assert LogsNow(j.store.tries, s.tries, 1, op.now);
      assert LogsNow(s.tries, Performed(j, op).store.tries, 1, op.now);
    }
  }

  class AgentJournal {
    var usable: bool               // the journal directory could be opened
    var store: Store
    var meta: Metadata
    var events: seq<Entry>

    ghost function Value(): State
      reads this
    {
      State(usable, store, meta, events)
    }

    /** Load what the file decodes to; an unusable directory means memory only.
        Memory and disk start in step exactly when the file was readable or held
        nothing, and is newline-terminated if it is going to be appended to as it is. */
    constructor Open(file0: seq<Piece>, metadata0: Option<Id>, usable: bool, readable: bool, migrate: Replace, opens: bool)
      ensures Sound(Value()) && this.usable == usable && meta == Metadata(metadata0, if usable then metadata0 else None, None, FRESH, [])
      ensures !usable || !readable ==> events == []
      ensures usable && readable ==> PayloadPrefix(Decode(file0), events) && |events| == |Decode(file0)|
      ensures usable ==>
                (InSync(Value()) <==>
                 && (readable || Decode(file0) == [])
                 && (opens && Dense(if readable then Decode(file0) else []) ==> Terminated(file0)))
      ensures !usable ==> store.file == file0 && (InSync(Value()) <==> Decode(file0) == [])
      ensures store.repairNeeded <==> usable && readable && !Dense(Decode(file0)) && !migrate.Replaced?
      ensures store.handle.Live? <==> usable && opens && !store.repairNeeded
      ensures store.retry == FRESH && store.tries == []
    {
      this.usable := usable;
      store := Store(file0, NoFile, true, false, FRESH, []);
      meta := Metadata(metadata0, if usable then metadata0 else None, None, FRESH, []);
      events := [];
      new;
      if usable {
        var file, unconfirmed;
        events, file, unconfirmed := Load(file0, readable, migrate);
        var live := !unconfirmed && opens;
        store := Store(file, if live then Live else NoFile, !live, unconfirmed, FRESH, []);
      }
    }

    /** Decode the file, renumbering and rewriting a history whose numbers are not
        dense; a failed rewrite leaves the renumbered history in memory only. */
    static method Load(file0: seq<Piece>, readable: bool, migrate: Replace)
      returns (events: seq<Entry>, file: seq<Piece>, unconfirmed: bool)
      ensures Dense(events)
      ensures readable ==> PayloadPrefix(Decode(file0), events) && |events| == |Decode(file0)|
      ensures !readable ==> events == []
      ensures PayloadPrefix(Decode(file), events) <==> readable || Decode(file0) == []
      ensures !unconfirmed && (readable || Decode(file0) == []) ==> Decode(file) == events
      ensures !unconfirmed ==> (Terminated(file) <==> (Dense(if readable then Decode(file0) else []) ==> Terminated(file0)))
      ensures unconfirmed <==> readable && !Dense(Decode(file0)) && !migrate.Replaced?
    {
      events, file, unconfirmed := [], file0, false;
      if readable {
        events := Decode(file);
      }
      var migrating := NeedsMigration(events);
      if migrating {
        RenumberedKeepsPayloads(events);
        EncodeDecode(Renumbered(events));
        events := Renumbered(events);
        file := AfterReplace(file, Encode(events), migrate);
        unconfirmed := !migrate.Replaced?;
      }
    }

    /** Some loaded number differs from its position. */
    static method NeedsMigration(events: seq<Entry>) returns (needed: bool)
      ensures needed <==> !Dense(events)
    {
      needed := false;
      var i := 0;
      while i < |events| && !needed
        invariant 0 <= i <= |events|
        invariant needed ==> !Dense(events)
        invariant !needed ==> Dense(events[..i])
      {
        needed := events[i].index != i;
        i := i + 1;
      }
      assert !needed ==> events[..|events|] == events;
    }

    /** The whole history as file contents. */
    static method Body(events: seq<Entry>) returns (body: seq<Piece>)
      ensures body == Encode(events)
    {
      body := [];
      var i := 0;
      while i < |events|
        invariant 0 <= i <= |events|
        invariant body == Encode(events[..i])
      {
        assert events[..i + 1][..i] == events[..i];
        body := body + Line(events[i]);
        i := i + 1;
      }
      assert events[..|events|] == events;
    }

    /** Publish a provider id durably. */
    static method Publish(usable: bool, m: Metadata, id: Id, now: nat, outcome: Replace) returns (next: Metadata, ok: bool)
      ensures ok == (usable && outcome.Replaced?)
      ensures next == m.(disk := if usable then AfterReplace(m.disk, Some(id), outcome) else m.disk,
                         tries := m.tries + [Try(now, ProviderId(id), ok)])
    {
      ok := usable && outcome.Replaced?;
      next := m.(tries := m.tries + [Try(now, ProviderId(id), ok)]);
      if usable {
        next := next.(disk := AfterReplace(m.disk, Some(id), outcome));
      }
    }

    /** One attempt to publish an id, and its bookkeeping. */
    static method Attempt(usable: bool, m: Metadata, id: Id, now: nat, outcome: Replace) returns (next: Metadata)
      ensures next == Tried(usable, m, id, now, outcome)
    {
      var ok;
      next, ok := Publish(usable, m, id, now, outcome);
      if ok {
        next := next.(published := Some(id), pending := None, retry := FRESH);
      } else {
        next := next.(pending := Some(id), retry := Failed(m.retry, now));
      }
    }

    /** A different id is tried at once; a repeated one waits for its backoff. */
    method SetProviderSessionId(id: Id, now: nat, outcome: Replace)
      requires Sound(Value())
      modifies this`meta
      ensures meta == MetadataSet(usable, old(meta), id, now, outcome) && MetadataOk(meta)
    {
      MetadataSetOk(usable, meta, id, now, outcome);
      if meta.published == Some(id) { return; }
      if meta.pending == Some(id) {
        if !Due(meta.retry, now) { return; }
      } else {
        meta := meta.(retry := FRESH);
      }
      meta := Attempt(usable, meta, id, now, outcome);
    }

    /** Rewrite the history and reopen it for appending. */
    static method Repair(usable: bool, s: Store, events: seq<Entry>, now: nat, outcome: Replace, reopens: bool) returns (next: Store)
      requires StoreOk(usable, s) && s.repairNeeded && Due(s.retry, now)
      ensures next == Rewritten(usable, s, events, now, outcome, reopens) && StoreOk(usable, next)
      ensures next.file == s.file || (next.file == Encode(events) && Decode(next.file) == events)
    {
      RewrittenOk(usable, s, events, now, outcome, reopens);
      EncodeDecode(events);
      if usable {
        var body := Body(events);
        if outcome.Replaced? && reopens {
          next := Store(body, Live, false, false, FRESH, s.tries + [Try(now, WholeHistory, true)]);
          return;
        }
        next := s.(file := AfterReplace(s.file, body, outcome));
      } else {
        next := s;
      }
      next := next.(retry := Failed(s.retry, now), tries := s.tries + [Try(now, WholeHistory, false)]);
    }

    /** Write one line behind the file. */
    static method WriteLine(s: Store, entry: Entry, now: nat, write: Write) returns (next: Store)
      requires write.Torn? ==> write.pieces < 3
      ensures next == Written(s, entry, now, write)
    {
      next := s;
      if s.handle.Live? {
        if write.Wrote? {
          next := s.(file := s.file + Line(entry));
        } else {
          next := s.(file := s.file + Line(entry)[..write.pieces], handle := NoFile, degraded := true, repairNeeded := true,
                     retry := Failed(s.retry, now), tries := s.tries + [Try(now, WholeHistory, false)]);
        }
      }
    }

    /** Due repairs before an append. */
    method RetryPendingDurableWork(now: nat, faults: Faults)
      requires Sound(Value())
      modifies this`store, this`meta
      ensures meta == MetadataRetried(usable, old(meta), now, faults.publish)
      ensures store == StoreRetried(usable, old(store), events, now, faults.rewrite, faults.reopens)
    {
      if meta.pending.Some? && Due(meta.retry, now) {
        meta := Attempt(usable, meta, meta.pending.value, now, faults.publish);
      }
      if store.repairNeeded && Due(store.retry, now) {
        store := Repair(usable, store, events, now, faults.rewrite, faults.reopens);
      }
    }

    /** Append an event: due repairs first, then disk, then memory. */
    method Append(payload: nat, now: nat, faults: Faults) returns (entry: Entry)
      requires Sound(Value()) && (faults.write.Torn? ==> faults.write.pieces < 3)
      modifies this`store, this`meta, this`events
      ensures Value() == Appended(old(Value()), payload, now, faults)
      ensures entry == Entry(|old(events)|, payload)
    {
      RetryPendingDurableWork(now, faults);
      entry := Entry(|events|, payload);
      store := WriteLine(store, entry, now, faults.write);
      events := events + [entry];
    }

    method Perform(op: Op)
      requires Sound(Value()) && OpOk(op)
      modifies this
      ensures Value() == Performed(old(Value()), op)
    {
      match op
      case AppendOp(payload, now, faults) =>
        var entry := Append(payload, now, faults);
      case SetOp(id, now, outcome) =>
        SetProviderSessionId(id, now, outcome);
    }

    /** Any sequence of operations, under any faults. */
    method Serve(ops: seq<Op>)
      requires Sound(Value()) && forall i :: 0 <= i < |ops| ==> OpOk(ops[i])
      modifies this
      ensures Value() == Served(old(Value()), ops)
      ensures Sound(Value()) && (old(InSync(Value())) ==> InSync(Value()))
      ensures events == History(old(events), ops)
      ensures SpreadOut(store.tries) && SpreadOut(meta.tries)
    {
      ghost var start := Value();
      var i := 0;
      while i < |ops|
        invariant 0 <= i <= |ops|
        invariant Value() == Served(start, ops[..i]) && Sound(Value())
      {
        assert ops[..i + 1][..i] == ops[..i];
        PerformedOk(Value(), ops[i]);
        Perform(ops[i]);
        i := i + 1;
      }
      assert ops[..|ops|] == ops;
      ServedOk(start, ops);
      ServedHistory(start, ops);
    }
  }
}
