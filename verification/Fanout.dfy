/**
 Lag-aware fanout of one session's event lines to its subscribers.

 Every subscriber owns a mailbox with a byte budget, drained by its own writer
 task. The registry below is what the ingestion loop and the attach commands
 touch under one lock; the writer tasks appear in `FanoutNet`.
 */
module Fanout {
  import opened Common

  type Reg = nat    // one registration; a connection that attaches twice makes two
  type Conn = nat   // one client connection (the writer id)

  datatype Kind = Attached | Observer

  /** A snapshot carries the whole terminal, abstracted to the bytes it was fed. */
  datatype Body = Snapshot(screen: seq<Byte>) | Output(data: seq<Byte>) | Other

  /** One serialized NDJSON line; `len` counts its newline. */
  datatype RawLine = Line(body: Body, len: nat)
  type EventLine = l: RawLine | l.len > 0 witness Line(Other, 1)

  /** Where a writer task is with the line it received last. */
  datatype Hand =
    | Empty
    | Has(line: EventLine)              // received, socket lock not taken yet
    | Writing(line: EventLine)          // holds the socket lock
    | Wrote(line: EventLine, ok: bool)  // lock released, bytes not yet deducted

  datatype Subscriber = Subscriber(
    conn: Conn,
    kind: Kind,
    queue: seq<EventLine>,
    pending: nat,         // bytes queued or in hand, as accounted
    lagged: bool,
    cancelled: bool,
    closed: bool,         // the writer task ended, its receiver is gone
    hand: Hand,
    sent: seq<EventLine>, // lines of this registration on the socket
    batch: nat)           // bytes of the last registration or resync batch

  /** The registry: every registration ever made, and the two subscriber lists. */
  datatype Fan = Fan(subs: map<Reg, Subscriber>, attached: seq<Reg>, observers: seq<Reg>)

  function Size(lines: seq<EventLine>): nat {
    if lines == [] then 0 else Size(lines[..|lines| - 1]) + lines[|lines| - 1].len
  }

  // ------------------------------------------------------------ operations

  function Fresh(conn: Conn, kind: Kind, lines: seq<EventLine>): Subscriber {
    Subscriber(conn, kind, lines, Size(lines), false, false, false, Empty, [], Size(lines))
  }

  /** One subscriber offered one live line. */
  function Offer(sub: Subscriber, line: EventLine, budget: nat): Subscriber {
    if sub.closed || sub.lagged then sub
    else if sub.pending + line.len > budget then sub.(lagged := true)
    else sub.(queue := sub.queue + [line], pending := sub.pending + line.len)
  }

  predicate Drained(sub: Subscriber) {
    sub.lagged && sub.pending == 0
  }

  /** One subscriber offered a resync batch. */
  function Refill(sub: Subscriber, lines: seq<EventLine>): Subscriber {
    if Drained(sub) && !sub.closed
    then sub.(queue := sub.queue + lines, pending := sub.pending + Size(lines), lagged := false, batch := Size(lines))
    else sub
  }

  /** One subscriber handed the final event, or cut off: aborting the writer
      task drops its queue and whatever it was writing. */
  function Finish(sub: Subscriber, line: EventLine): Subscriber {
    if sub.lagged || sub.closed
    then sub.(closed := true, queue := [], hand := Empty)
    else sub.(queue := sub.queue + [line], pending := sub.pending + line.len)
  }

  /** The list with the given registrations taken out, order kept. */
  function Without(list: seq<Reg>, gone: set<Reg>): seq<Reg> {
    if list == [] then []
    else
      var last := list[|list| - 1];
      Without(list[..|list| - 1], gone) + if last in gone then [] else [last]
  }

  function ListOf(fan: Fan, kind: Kind): seq<Reg> {
    if kind.Attached? then fan.attached else fan.observers
  }

  predicate Current(fan: Fan, r: Reg) {
    r in fan.attached || r in fan.observers
  }

  ghost predicate Distinct(list: seq<Reg>) {
    forall i, j :: 0 <= i < j < |list| ==> list[i] != list[j]
  }

  ghost predicate ListOk(subs: map<Reg, Subscriber>, list: seq<Reg>, kind: Kind) {
    Distinct(list) && forall r :: r in list ==> r in subs && subs[r].kind == kind
  }

  /** Some lagged subscriber has an empty mailbox and awaits a resync. */
  ghost predicate AnyDrained(fan: Fan) {
    exists r :: r in fan.subs && Current(fan, r) && Drained(fan.subs[r])
  }

  /** Lists name registrations of their own kind, each once. */
  ghost predicate WellFormed(fan: Fan) {
    ListOk(fan.subs, fan.attached, Attached) && ListOk(fan.subs, fan.observers, Observer)
  }

  /** The registrations of one connection in one list. */
  function Of(subs: map<Reg, Subscriber>, list: seq<Reg>, conn: Conn): set<Reg> {
    set r | r in list && r in subs && subs[r].conn == conn
  }

  function Cancelled(subs: map<Reg, Subscriber>, gone: set<Reg>): map<Reg, Subscriber> {
    map r | r in subs :: if r in gone then subs[r].(cancelled := true) else subs[r]
  }

  function ClosedIn(subs: map<Reg, Subscriber>, list: seq<Reg>): set<Reg> {
    set r | r in list && r in subs && subs[r].closed
  }

  // ------------------------------------------------- whole-registry effects

  ghost function AfterRegister(fan: Fan, reg: Reg, conn: Conn, kind: Kind, lines: seq<EventLine>): Fan {
    var gone := Of(fan.subs, ListOf(fan, kind), conn);
    var subs := Cancelled(fan.subs, gone)[reg := Fresh(conn, kind, lines)];
    Fan(subs,
        if kind.Attached? then Without(fan.attached, gone) + [reg] else fan.attached,
        if kind.Observer? then Without(fan.observers, gone) + [reg] else fan.observers)
  }

  function OfferAll(subs: map<Reg, Subscriber>, list: seq<Reg>, line: EventLine, budget: nat): map<Reg, Subscriber> {
    map r | r in subs :: if r in list then Offer(subs[r], line, budget) else subs[r]
  }

  /** Some subscriber of the list is, or becomes, lagged with an empty mailbox. */
  predicate AnyReady(subs: map<Reg, Subscriber>, list: seq<Reg>, line: EventLine, budget: nat) {
    exists i :: 0 <= i < |list| && list[i] in subs && ReadyAfter(subs[list[i]], line, budget)
  }

  predicate ReadyAfter(sub: Subscriber, line: EventLine, budget: nat) {
    !sub.closed && Drained(Offer(sub, line, budget))
  }

  ghost function AfterEnqueue(fan: Fan, line: EventLine, budget: nat): Fan {
    Fan(OfferAll(OfferAll(fan.subs, fan.attached, line, budget), fan.observers, line, budget),
        Without(fan.attached, ClosedIn(fan.subs, fan.attached)),
        Without(fan.observers, ClosedIn(fan.subs, fan.observers)))
  }

  function RefillAll(subs: map<Reg, Subscriber>, list: seq<Reg>, lines: seq<EventLine>): map<Reg, Subscriber> {
    map r | r in subs :: if r in list then Refill(subs[r], lines) else subs[r]
  }

  ghost function AfterResync(fan: Fan, lines: seq<EventLine>): Fan {
    if lines == [] then fan
    else fan.(subs := RefillAll(RefillAll(fan.subs, fan.attached, lines), fan.observers, lines))
  }

  function FinishAll(subs: map<Reg, Subscriber>, list: seq<Reg>, line: EventLine): map<Reg, Subscriber> {
    map r | r in subs :: if r in list then Finish(subs[r], line) else subs[r]
  }

  ghost function AfterFinal(fan: Fan, line: EventLine): Fan {
    Fan(FinishAll(FinishAll(fan.subs, fan.attached, line), fan.observers, line), [], [])
  }

  ghost function AfterRemove(fan: Fan, kind: Kind, conn: Conn): Fan {
    var gone := Of(fan.subs, ListOf(fan, kind), conn);
    Fan(Cancelled(fan.subs, gone),
        if kind.Attached? then Without(fan.attached, gone) else fan.attached,
        if kind.Observer? then Without(fan.observers, gone) else fan.observers)
  }

  // ---------------------------------------------------------- list algebra

  lemma {:induction false} WithoutMembers(list: seq<Reg>, gone: set<Reg>)
    ensures forall r :: r in Without(list, gone) <==> r in list && r !in gone
  {
    if list != [] {
      WithoutMembers(list[..|list| - 1], gone);
      assert list == list[..|list| - 1] + [list[|list| - 1]];
    }
  }

  lemma {:induction false} WithoutDistinct(list: seq<Reg>, gone: set<Reg>)
    requires Distinct(list)
    ensures Distinct(Without(list, gone))
  {
    if list != [] {
      WithoutDistinct(list[..|list| - 1], gone);
      WithoutMembers(list[..|list| - 1], gone);
    }
  }

  lemma ListOkWithout(subs: map<Reg, Subscriber>, list: seq<Reg>, kind: Kind, gone: set<Reg>, subs': map<Reg, Subscriber>)
    requires ListOk(subs, list, kind)
    requires subs.Keys <= subs'.Keys && forall r :: r in subs ==> subs'[r].kind == subs[r].kind
    ensures ListOk(subs', Without(list, gone), kind)
  {
    WithoutMembers(list, gone);
    WithoutDistinct(list, gone);
  }

  lemma RegisterWellFormed(fan: Fan, reg: Reg, conn: Conn, kind: Kind, lines: seq<EventLine>)
    requires WellFormed(fan) && reg !in fan.subs
    ensures WellFormed(AfterRegister(fan, reg, conn, kind, lines))
  {
    var after := AfterRegister(fan, reg, conn, kind, lines);
    var gone := Of(fan.subs, ListOf(fan, kind), conn);
    ListOkWithout(fan.subs, ListOf(fan, kind), kind, gone, after.subs);
    WithoutMembers(ListOf(fan, kind), gone);
  }

  lemma EnqueueWellFormed(fan: Fan, line: EventLine, budget: nat)
    requires WellFormed(fan)
    ensures WellFormed(AfterEnqueue(fan, line, budget))
  {
    var after := AfterEnqueue(fan, line, budget);
    ListOkWithout(fan.subs, fan.attached, Attached, ClosedIn(fan.subs, fan.attached), after.subs);
    ListOkWithout(fan.subs, fan.observers, Observer, ClosedIn(fan.subs, fan.observers), after.subs);
  }

  /** Every listed subscriber is offered the line once; a closed one leaves. */
  lemma EnqueueEach(fan: Fan, line: EventLine, budget: nat, r: Reg)
    requires WellFormed(fan) && Current(fan, r)
    ensures var after := AfterEnqueue(fan, line, budget);
            r in after.subs && after.subs[r] == Offer(fan.subs[r], line, budget) && (Current(after, r) <==> !fan.subs[r].closed)
  {
    WithoutMembers(fan.attached, ClosedIn(fan.subs, fan.attached));
    WithoutMembers(fan.observers, ClosedIn(fan.subs, fan.observers));
  }

  /** What a live line does to a listed subscriber: one that is open and not lagged takes
      it if and only if its bytes fit the budget, and is lagged with its mailbox as it was
      otherwise; any other is left alone. */
  ghost predicate LineMet(before: Subscriber, after: Subscriber, line: EventLine, budget: nat) {
    var open := !before.closed && !before.lagged;
    && (!open ==> after == before)
    && (open ==> (after.queue == before.queue + [line] && !after.lagged <==> before.pending + line.len <= budget))
    && (open && before.pending + line.len <= budget ==>
          after == before.(queue := before.queue + [line], pending := before.pending + line.len))
    && (open && before.pending + line.len > budget ==> after == before.(lagged := true))
  }

  /** Every listed subscriber meets the line, nobody else does, and exactly those whose
      writer task has ended leave. */
  lemma EnqueueMet(fan: Fan, line: EventLine, budget: nat, r: Reg)
    requires WellFormed(fan) && r in fan.subs
    ensures var after := AfterEnqueue(fan, line, budget);
            && r in after.subs && after.subs.Keys == fan.subs.Keys
            && (Current(fan, r) ==> LineMet(fan.subs[r], after.subs[r], line, budget) && (Current(after, r) <==> !fan.subs[r].closed))
            && (!Current(fan, r) ==> after.subs[r] == fan.subs[r] && !Current(after, r))
  {
    WithoutMembers(fan.attached, ClosedIn(fan.subs, fan.attached));
    WithoutMembers(fan.observers, ClosedIn(fan.subs, fan.observers));
  }

  /** Every listed subscriber meets the line; every other registration is as it was. */
  ghost predicate AllMet(before: Fan, after: Fan, line: EventLine, budget: nat) {
    && after.subs.Keys == before.subs.Keys
    && (forall r :: r in before.subs && r in after.subs ==>
          if Current(before, r) then LineMet(before.subs[r], after.subs[r], line, budget) else after.subs[r] == before.subs[r])
  }

  lemma EnqueueAllMet(fan: Fan, line: EventLine, budget: nat)
    requires WellFormed(fan)
    ensures AllMet(fan, AfterEnqueue(fan, line, budget), line, budget)
  {
    forall r | r in fan.subs
      ensures var after := AfterEnqueue(fan, line, budget);
              r in after.subs && if Current(fan, r) then LineMet(fan.subs[r], after.subs[r], line, budget) else after.subs[r] == fan.subs[r]
    {
      EnqueueMet(fan, line, budget, r);
    }
  }

  ghost predicate ListMet(before: map<Reg, Subscriber>, after: map<Reg, Subscriber>, list: seq<Reg>, line: EventLine, budget: nat) {
    forall r :: r in list && r in before ==> r in after && LineMet(before[r], after[r], line, budget)
  }

  lemma OfferAllMet(before: map<Reg, Subscriber>, list: seq<Reg>, line: EventLine, budget: nat)
    ensures ListMet(before, OfferAll(before, list, line, budget), list, line, budget)
  {
  }

  /** A resync batch enters exactly the open, lagged, drained subscribers, whole, and they
      are no longer lagged; nobody else changes. */
  lemma ResyncMet(fan: Fan, lines: seq<EventLine>, r: Reg)
    requires WellFormed(fan) && r in fan.subs && lines != []
    ensures var after := AfterResync(fan, lines); var sub := fan.subs[r];
            && r in after.subs && after.attached == fan.attached && after.observers == fan.observers
            && (Current(fan, r) && sub.lagged && sub.pending == 0 && !sub.closed ==>
                  after.subs[r] == sub.(queue := sub.queue + lines, pending := Size(lines), batch := Size(lines), lagged := false))
            && (!(Current(fan, r) && sub.lagged && sub.pending == 0 && !sub.closed) ==> after.subs[r] == sub)
  {
  }

  /** The final event: a listed subscriber is cut off if and only if it was lagged or its
      writer task had ended, and any other has it queued last. */
  lemma FinalMet(fan: Fan, line: EventLine, r: Reg)
    requires WellFormed(fan) && r in fan.subs
    ensures var after := AfterFinal(fan, line); var sub := fan.subs[r];
            && r in after.subs && !Current(after, r)
            && (Current(fan, r) ==> (after.subs[r].closed <==> sub.lagged || sub.closed))
            && (Current(fan, r) && !sub.lagged && !sub.closed ==> after.subs[r].queue == sub.queue + [line] && after.subs[r].hand == sub.hand)
            && (!Current(fan, r) ==> after.subs[r] == sub)
  {
  }

  /** Leaving, and registering anew: exactly the connection's registrations of that kind
      are cancelled and unlisted. */
  lemma RemoveMet(fan: Fan, kind: Kind, conn: Conn, r: Reg)
    requires WellFormed(fan) && r in fan.subs
    ensures var after := AfterRemove(fan, kind, conn);
            var hit := Current(fan, r) && fan.subs[r].conn == conn && fan.subs[r].kind == kind;
            && r in after.subs && after.subs[r] == (if hit then fan.subs[r].(cancelled := true) else fan.subs[r])
            && (Current(after, r) <==> Current(fan, r) && !hit)
  {
    WithoutMembers(ListOf(fan, kind), Of(fan.subs, ListOf(fan, kind), conn));
  }

  lemma RegisterMet(fan: Fan, reg: Reg, conn: Conn, kind: Kind, lines: seq<EventLine>, r: Reg)
    requires WellFormed(fan) && reg !in fan.subs && r in fan.subs
    ensures var after := AfterRegister(fan, reg, conn, kind, lines);
            var hit := Current(fan, r) && fan.subs[r].conn == conn && fan.subs[r].kind == kind;
            && r in after.subs && after.subs[r] == (if hit then fan.subs[r].(cancelled := true) else fan.subs[r])
            && (Current(after, r) <==> Current(fan, r) && !hit)
            && reg in after.subs && Current(after, reg) && after.subs[reg].queue == lines && !after.subs[reg].lagged
            && after.subs[reg].conn == conn && after.subs[reg].kind == kind && !after.subs[reg].cancelled && !after.subs[reg].closed
  {
    WithoutMembers(ListOf(fan, kind), Of(fan.subs, ListOf(fan, kind), conn));
  }

  /** The enqueue report is exact: it says ready if and only if, afterwards,
      some listed subscriber is lagged with an empty mailbox. */
  lemma ReadyMeansDrained(fan: Fan, line: EventLine, budget: nat)
    requires WellFormed(fan)
    ensures AnyReady(fan.subs, fan.attached, line, budget)
            || AnyReady(OfferAll(fan.subs, fan.attached, line, budget), fan.observers, line, budget)
            <==> AnyDrained(AfterEnqueue(fan, line, budget))
  {
    if AnyDrained(AfterEnqueue(fan, line, budget)) {
      DrainedWasReported(fan, line, budget);
    }
    if AnyReady(fan.subs, fan.attached, line, budget) {
      var i :| 0 <= i < |fan.attached| && ReadyAfter(fan.subs[fan.attached[i]], line, budget);
      EnqueueEach(fan, line, budget, fan.attached[i]);
    }
    var mid := OfferAll(fan.subs, fan.attached, line, budget);
    if AnyReady(mid, fan.observers, line, budget) {
      var i :| 0 <= i < |fan.observers| && ReadyAfter(mid[fan.observers[i]], line, budget);
      EnqueueEach(fan, line, budget, fan.observers[i]);
    }
  }

  lemma DrainedWasReported(fan: Fan, line: EventLine, budget: nat)
    requires WellFormed(fan) && AnyDrained(AfterEnqueue(fan, line, budget))
    ensures AnyReady(fan.subs, fan.attached, line, budget)
            || AnyReady(OfferAll(fan.subs, fan.attached, line, budget), fan.observers, line, budget)
  {
    var after := AfterEnqueue(fan, line, budget);
    var r :| r in after.subs && Current(after, r) && Drained(after.subs[r]);
    WithoutMembers(fan.attached, ClosedIn(fan.subs, fan.attached));
    WithoutMembers(fan.observers, ClosedIn(fan.subs, fan.observers));
    EnqueueEach(fan, line, budget, r);
    assert ReadyAfter(fan.subs[r], line, budget);
    if r in fan.attached {
      var i :| 0 <= i < |fan.attached| && fan.attached[i] == r;
    } else {
      var i :| 0 <= i < |fan.observers| && fan.observers[i] == r;
    }
  }

  lemma RemoveWellFormed(fan: Fan, kind: Kind, conn: Conn)
    requires WellFormed(fan)
    ensures WellFormed(AfterRemove(fan, kind, conn))
  {
    ListOkWithout(fan.subs, ListOf(fan, kind), kind, Of(fan.subs, ListOf(fan, kind), conn), AfterRemove(fan, kind, conn).subs);
  }

  lemma {:induction false} SizeAppend(xs: seq<EventLine>, ys: seq<EventLine>)
    ensures Size(xs + ys) == Size(xs) + Size(ys)
  {
    if ys == [] {
      assert xs + ys == xs;
    } else {
      var n := |ys| - 1;
      assert (xs + ys)[..|xs + ys| - 1] == xs + ys[..n];
      SizeAppend(xs, ys[..n]);
    }
  }

  lemma EmptyHasNoSize(lines: seq<EventLine>)
    ensures Size(lines) == 0 <==> lines == []
  {
  }

  /** The first subscribers of the list have been offered the line, no other. */
  ghost predicate OfferedUpTo(before: map<Reg, Subscriber>, book: map<Reg, Subscriber>, list: seq<Reg>, index: nat, line: EventLine, budget: nat)
    requires forall i :: 0 <= i < |list| ==> list[i] in before
  {
    && index <= |list| && book.Keys == before.Keys
    && (forall i :: 0 <= i < index ==> book[list[i]] == Offer(before[list[i]], line, budget))
    && (forall i :: index <= i < |list| ==> book[list[i]] == before[list[i]])
    && (forall r :: r in before && r !in list ==> book[r] == before[r])
  }

  ghost predicate ReadyUpTo(before: map<Reg, Subscriber>, list: seq<Reg>, index: nat, line: EventLine, budget: nat)
    requires index <= |list| && forall i :: 0 <= i < |list| ==> list[i] in before
  {
    exists i :: 0 <= i < index && ReadyAfter(before[list[i]], line, budget)
  }

  lemma OfferedNext(before: map<Reg, Subscriber>, book: map<Reg, Subscriber>, list: seq<Reg>, index: nat, line: EventLine, budget: nat)
    requires Distinct(list) && forall i :: 0 <= i < |list| ==> list[i] in before
    requires index < |list| && OfferedUpTo(before, book, list, index, line, budget)
    ensures book[list[index]] == before[list[index]]
    ensures OfferedUpTo(before, book[list[index] := Offer(before[list[index]], line, budget)], list, index + 1, line, budget)
    ensures ReadyUpTo(before, list, index + 1, line, budget) <==>
              ReadyUpTo(before, list, index, line, budget) || ReadyAfter(before[list[index]], line, budget)
  {
  }

  lemma OfferedToAll(before: map<Reg, Subscriber>, book: map<Reg, Subscriber>, list: seq<Reg>, line: EventLine, budget: nat)
    requires forall i :: 0 <= i < |list| ==> list[i] in before
    requires OfferedUpTo(before, book, list, |list|, line, budget)
    ensures book == OfferAll(before, list, line, budget)
    ensures ReadyUpTo(before, list, |list|, line, budget) <==> AnyReady(before, list, line, budget)
  {
  }

  /** Cancelling one registration more. */
  lemma CancelNext(subs: map<Reg, Subscriber>, list: seq<Reg>, i: nat, conn: Conn)
    requires i < |list| && forall j :: 0 <= j < |list| ==> list[j] in subs
    ensures var before, after := Cancelled(subs, Of(subs, list[..i], conn)), Cancelled(subs, Of(subs, list[..i + 1], conn));
            && list[i] in before && before[list[i]].conn == subs[list[i]].conn
            && after == if subs[list[i]].conn == conn then before[list[i] := before[list[i]].(cancelled := true)] else before
  {
    assert list[..i + 1] == list[..i] + [list[i]];
  }

  // ------------------------------------------------------------- the class

  /** The registry as the daemon keeps it, updated in place under its lock. */
  class FanoutState {
    const budget: nat
    var subs: map<Reg, Subscriber>
    var attached: seq<Reg>
    var observers: seq<Reg>

    ghost function View(): Fan
      reads this
    {
      Fan(subs, attached, observers)
    }

    ghost predicate Valid()
      reads this
    {
      WellFormed(View())
    }

    constructor (budget: nat)
      ensures Valid() && View() == Fan(map[], [], []) && this.budget == budget
    {
      this.budget := budget;
      subs, attached, observers := map[], [], [];
    }

    /** Cancel a connection's registrations in one list and drop them from it. */
    method CancelAndRemove(list: seq<Reg>, conn: Conn) returns (kept: seq<Reg>)
      requires forall i :: 0 <= i < |list| ==> list[i] in subs
      modifies this`subs
      ensures subs == Cancelled(old(subs), Of(old(subs), list, conn))
      ensures kept == Without(list, Of(old(subs), list, conn))
    {
      ghost var gone := Of(subs, list, conn);
      ghost var was := subs;
      kept := [];
      var i := 0;
      while i < |list|
        invariant 0 <= i <= |list|
        invariant kept == Without(list[..i], gone)
        invariant subs == Cancelled(was, Of(was, list[..i], conn))
      {
        var r := list[i];
        CancelNext(was, list, i, conn);
        if subs[r].conn == conn {
          subs := subs[r := subs[r].(cancelled := true)];
        } else {
          kept := kept + [r];
        }
        assert list[..i + 1][..i] == list[..i];
        i := i + 1;
      }
      assert list[..|list|] == list;
    }

    /** A fresh mailbox holding the initial events. */
    static method Mailbox(conn: Conn, kind: Kind, initial: seq<EventLine>) returns (sub: Subscriber)
      ensures sub == Fresh(conn, kind, initial)
    {
      sub := Subscriber(conn, kind, [], 0, false, false, false, Empty, [], 0);
      var i := 0;
      while i < |initial|
        invariant 0 <= i <= |initial|
        invariant sub == Fresh(conn, kind, initial[..i]).(batch := 0)
      {
        assert initial[..i + 1][..i] == initial[..i];
        sub := sub.(queue := sub.queue + [initial[i]], pending := sub.pending + initial[i].len);
        i := i + 1;
      }
      assert initial[..|initial|] == initial;
      sub := sub.(batch := sub.pending);
    }

    /** Register a subscriber: an older registration of the same connection and
        kind is cancelled, and the initial events enter a fresh mailbox. */
    method Register(reg: Reg, conn: Conn, kind: Kind, initial: seq<EventLine>)
      requires Valid() && reg !in subs
      modifies this
      ensures Valid()
      ensures View() == AfterRegister(old(View()), reg, conn, kind, initial)
    {
      RegisterWellFormed(View(), reg, conn, kind, initial);
      var kept := CancelAndRemove(if kind.Attached? then attached else observers, conn);
      var sub := Mailbox(conn, kind, initial);
      subs := subs[reg := sub];
      if kind.Attached? {
        attached := kept + [reg];
      } else {
        observers := kept + [reg];
      }
    }

    /** Offer one line to one subscriber: a closed one is not kept, a lagged one
        drops it, an over-budget one becomes lagged and drops it too. */
    method OfferOne(sub: Subscriber, line: EventLine) returns (next: Subscriber, keep: bool, ready: bool)
      ensures next == Offer(sub, line, budget) && LineMet(sub, next, line, budget)
      ensures keep == !sub.closed
      ensures ready == (!sub.closed && Drained(next))
    {
      next, keep, ready := sub, true, false;
      if sub.closed {
        return sub, false, false;
      }
      if sub.lagged {
        if sub.pending == 0 { ready := true; }
        return;
      }
      if sub.pending + line.len > budget {
        next := sub.(lagged := true);
        if sub.pending == 0 { ready := true; }
        return;
      }
      next := sub.(queue := sub.queue + [line], pending := sub.pending + line.len);
    }

    /** Offer one line to every subscriber of a list; a subscriber whose writer
        task ended is dropped. Reports whether some subscriber is lagged with
        nothing left in its mailbox. */
    method EnqueueToList(list: seq<Reg>, line: EventLine) returns (kept: seq<Reg>, resyncReady: bool)
      requires Distinct(list) && forall i :: 0 <= i < |list| ==> list[i] in subs
      modifies this`subs
      ensures subs == OfferAll(old(subs), list, line, budget) && ListMet(old(subs), subs, list, line, budget)
      ensures kept == Without(list, ClosedIn(old(subs), list))
      ensures resyncReady <==> AnyReady(old(subs), list, line, budget)
    {
      var before := subs;
      var book := before;
      ghost var gone := ClosedIn(before, list);
      kept, resyncReady := [], false;
      var index := 0;
      while index < |list|
        invariant 0 <= index <= |list|
        invariant OfferedUpTo(before, book, list, index, line, budget)
        invariant kept == Without(list[..index], gone)
        invariant resyncReady <==> ReadyUpTo(before, list, index, line, budget)
      {
        var r := list[index];
        assert list[..index + 1][..index] == list[..index];
        OfferedNext(before, book, list, index, line, budget);
        var next, keep, ready := OfferOne(book[r], line);
        book := book[r := next];
        if keep {
          kept := kept + [r];
        }
        resyncReady := resyncReady || ready;
        index := index + 1;
      }
      assert list[..|list|] == list;
      OfferedToAll(before, book, list, line, budget);
      OfferAllMet(before, list, line, budget);
      subs := book;
    }

    /** Enqueue one line to every subscriber, attached writers first, without
        waiting for any of them. */
    method Enqueue(line: EventLine) returns (resyncReady: bool)
      requires Valid()
      modifies this
      ensures Valid()
      ensures View() == AfterEnqueue(old(View()), line, budget)
      ensures AllMet(old(View()), View(), line, budget)
      ensures resyncReady <==> AnyDrained(View())
    {
      ghost var fan := View();
      EnqueueAllMet(fan, line, budget);
      EnqueueWellFormed(fan, line, budget);
      ReadyMeansDrained(fan, line, budget);
      var readyA, readyO;
      attached, readyA := EnqueueToList(attached, line);
      assert ClosedIn(subs, observers) == ClosedIn(fan.subs, observers);
      observers, readyO := EnqueueToList(observers, line);
      resyncReady := readyA || readyO;
    }

    /** Some lagged subscriber has drained its backlog and awaits a resync. */
    method HasDrainedLagged() returns (found: bool)
      requires Valid()
      ensures found <==> AnyDrained(View())
    {
      var all := attached + observers;
      var i := 0;
      found := false;
      while i < |all| && !found
        invariant 0 <= i <= |all|
        invariant found ==> AnyDrained(View())
        invariant !found ==> forall j :: 0 <= j < i ==> !Drained(subs[all[j]])
      {
        var r := all[i];
        found := Drained(subs[r]);
        assert Current(View(), r);
        i := i + 1;
      }
      if !found {
        forall r | r in subs && Current(View(), r) ensures !Drained(subs[r]) {
          assert r in all;
        }
      }
    }

    /** Put one line into a mailbox, whatever its budget; the writer task may be gone. */
    static method Put(sub: Subscriber, line: EventLine) returns (next: Subscriber, ok: bool)
      ensures ok == !sub.closed
      ensures next == if ok then sub.(queue := sub.queue + [line], pending := sub.pending + line.len) else sub
    {
      next, ok := sub, !sub.closed;
      if ok {
        next := sub.(queue := sub.queue + [line], pending := sub.pending + line.len);
      }
    }

    /** Queue the recovery events to a lagged subscriber whose mailbox is empty: all of
        them, after which it is no longer lagged, or none. */
    static method RefillOne(sub: Subscriber, lines: seq<EventLine>) returns (next: Subscriber)
      requires lines != []
      ensures next == Refill(sub, lines)
    {
      next := sub;
      if !sub.lagged || sub.pending != 0 {
        return;
      }
      var i, ok := 0, true;
      while i < |lines| && ok
        invariant 0 <= i <= |lines| && (i > 0 ==> ok)
        invariant ok ==> next == sub.(queue := sub.queue + lines[..i], pending := sub.pending + Size(lines[..i]))
        invariant ok && i > 0 ==> !sub.closed
        invariant !ok ==> next == sub && sub.closed
      {
        next, ok := Put(next, lines[i]);
        if !ok {
          assert i == 0 && lines[..0] == [];
          return;
        }
        assert lines[..i + 1][..i] == lines[..i];
        i := i + 1;
      }
      assert lines[..|lines|] == lines;
      next := next.(lagged := false, batch := next.pending);
    }

    /** Hand the final event to a subscriber, or disconnect it. */
    static method FinishOne(sub: Subscriber, line: EventLine) returns (next: Subscriber)
      ensures next == Finish(sub, line)
    {
      next := sub;
      var ok := false;
      if !sub.lagged {
        next, ok := Put(sub, line);
      }
      if !ok {
        next := next.(closed := true, queue := [], hand := Empty);
      }
    }

    /** Queue the recovery events to every lagged subscriber of a list whose
        mailbox is empty. */
    method ResyncList(list: seq<Reg>, lines: seq<EventLine>)
      requires lines != [] && Distinct(list) && forall i :: 0 <= i < |list| ==> list[i] in subs
      modifies this`subs
      ensures subs == RefillAll(old(subs), list, lines)
    {
      var before, book := subs, subs;
      var i := 0;
      while i < |list|
        invariant 0 <= i <= |list|
        invariant book.Keys == before.Keys
        invariant forall j :: 0 <= j < i ==> book[list[j]] == Refill(before[list[j]], lines)
        invariant forall j :: i <= j < |list| ==> book[list[j]] == before[list[j]]
        invariant forall r :: r in before && r !in list ==> book[r] == before[r]
      {
        var next := RefillOne(book[list[i]], lines);
        book := book[list[i] := next];
        i := i + 1;
      }
      subs := book;
    }

    /** Resync every drained lagged subscriber from one fresh batch. */
    method ResyncDrained(lines: seq<EventLine>)
      requires Valid()
      modifies this
      ensures Valid()
      ensures View() == AfterResync(old(View()), lines)
    {
      if lines == [] {
        return;
      }
      ResyncList(attached, lines);
      ResyncList(observers, lines);
    }

    /** Hand the final event to every subscriber of a list or disconnect it. */
    method FinishList(list: seq<Reg>, line: EventLine)
      requires Distinct(list) && forall i :: 0 <= i < |list| ==> list[i] in subs
      modifies this`subs
      ensures subs == FinishAll(old(subs), list, line)
    {
      var before, book := subs, subs;
      var i := 0;
      while i < |list|
        invariant 0 <= i <= |list|
        invariant book.Keys == before.Keys
        invariant forall j :: 0 <= j < i ==> book[list[j]] == Finish(before[list[j]], line)
        invariant forall j :: i <= j < |list| ==> book[list[j]] == before[list[j]]
        invariant forall r :: r in before && r !in list ==> book[r] == before[r]
      {
        var next := FinishOne(book[list[i]], line);
        book := book[list[i] := next];
        i := i + 1;
      }
      subs := book;
    }

    /** Every subscriber ends with the final event as its last queued line, or
        disconnected; the lists are left empty. */
    method DeliverFinal(line: EventLine)
      requires Valid()
      modifies this
      ensures Valid() && View() == AfterFinal(old(View()), line)
      ensures forall r :: r in old(subs) && Current(old(View()), r) ==>
                && r in subs && (subs[r].closed <==> old(subs)[r].lagged || old(subs)[r].closed)
                && (!subs[r].closed ==> subs[r].queue == old(subs)[r].queue + [line])
    {
      FinishList(attached, line);
      FinishList(observers, line);
      attached, observers := [], [];
    }

    /** Drop and cancel one connection's registration of one kind. */
    method Remove(kind: Kind, conn: Conn)
      requires Valid()
      modifies this
      ensures Valid()
      ensures View() == AfterRemove(old(View()), kind, conn)
    {
      RemoveWellFormed(View(), kind, conn);
      if kind.Attached? {
        attached := CancelAndRemove(attached, conn);
      } else {
        observers := CancelAndRemove(observers, conn);
      }
    }
  }
}
