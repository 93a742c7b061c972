/**
 Who decides the size of a shared terminal: an election among measured viewers
 with explicit takeover, stickiness and local priority, and the legacy minimum
 for clients that declare nothing.
 */
module SizeController {
  import opened Common

  type U16 = x: int | 0 <= x < 0x1_0000
  type Writer = nat   // one client socket

  datatype Role = Local | Remote

  datatype Grid = Grid(cols: U16, rows: U16)

  datatype Viewer = Viewer(viewerId: string, role: Role, grid: Grid, visible: bool, generation: nat) {
    predicate Eligible() {
      visible && grid.cols > 0 && grid.rows > 0
    }
  }

  type Viewers = map<Writer, Viewer>

  predicate EligibleIn(viewers: Viewers, w: Writer) {
    w in viewers && viewers[w].Eligible()
  }

  ghost predicate LocalAvailable(viewers: Viewers) {
    exists w :: w in viewers && viewers[w].Eligible() && viewers[w].role.Local?
  }

  // --------------------------------------------------------- ranking viewers

  /** Byte order on viewer names. */
  predicate Before(a: string, b: string) {
    if b == [] then false
    else if a == [] then true
    else a[0] < b[0] || (a[0] == b[0] && Before(a[1..], b[1..]))
  }

  lemma {:induction false} BeforeIsStrict(a: string, b: string)
    ensures Before(a, b) ==> !Before(b, a) && a != b
    ensures Before(a, b) || Before(b, a) || a == b
  {
    if a != [] && b != [] && a[0] == b[0] {
      BeforeIsStrict(a[1..], b[1..]);
      assert a == [a[0]] + a[1..] && b == [b[0]] + b[1..];
    }
  }

  lemma {:induction false} BeforeTransitive(a: string, b: string, c: string)
    requires Before(a, b) && Before(b, c)
    ensures Before(a, c)
  {
    if a != [] && b != [] && c != [] && a[0] == b[0] == c[0] {
      BeforeTransitive(a[1..], b[1..], c[1..]);
    }
  }

  /** What candidates are ordered by: local first, then name, then socket. */
  datatype Rank = Rank(remote: bool, name: string, writer: Writer)

  predicate Ahead(a: Rank, b: Rank) {
    if a.remote != b.remote then b.remote
    else if a.name != b.name then Before(a.name, b.name)
    else a.writer <= b.writer
  }

  lemma AheadTotal(a: Rank, b: Rank)
    ensures Ahead(a, b) || Ahead(b, a)
    ensures Ahead(a, b) && Ahead(b, a) ==> a == b
  {
    BeforeIsStrict(a.name, b.name);
  }

  lemma AheadTransitive(a: Rank, b: Rank, c: Rank)
    requires Ahead(a, b) && Ahead(b, c)
    ensures Ahead(a, c)
  {
    BeforeIsStrict(a.name, b.name);
    BeforeIsStrict(b.name, c.name);
    BeforeIsStrict(a.name, c.name);
    if Before(a.name, b.name) && Before(b.name, c.name) {
      BeforeTransitive(a.name, b.name, c.name);
    }
  }

  function RankOf(viewers: Viewers, w: Writer): Rank
    requires w in viewers
  {
    Rank(viewers[w].role.Remote?, viewers[w].viewerId, w)
  }

  /** An eligible viewer ranked ahead of every eligible viewer. */
  ghost predicate Best(viewers: Viewers, w: Writer) {
    EligibleIn(viewers, w) && forall u :: EligibleIn(viewers, u) ==> Ahead(RankOf(viewers, w), RankOf(viewers, u))
  }

  /** The winner does not depend on the order in which viewers are looked at. */
  lemma BestIsUnique(viewers: Viewers, a: Writer, b: Writer)
    requires Best(viewers, a) && Best(viewers, b)
    ensures a == b
  {
    AheadTotal(RankOf(viewers, a), RankOf(viewers, b));
  }

  function Insert(r: Rank, sorted: seq<Rank>): seq<Rank> {
    if sorted == [] || Ahead(r, sorted[0]) then [r] + sorted else [sorted[0]] + Insert(r, sorted[1..])
  }

  function Sort(ranks: seq<Rank>): seq<Rank> {
    if ranks == [] then [] else Insert(ranks[0], Sort(ranks[1..]))
  }

  /** Sorting puts a rank that is ahead of all others first. */
  lemma {:induction false} SortedFirst(ranks: seq<Rank>)
    requires ranks != []
    ensures Sort(ranks) != [] && Sort(ranks)[0] in ranks
    ensures forall r :: r in ranks ==> Ahead(Sort(ranks)[0], r)
  {
    AheadTotal(ranks[0], ranks[0]);
    if |ranks| > 1 {
      SortedFirst(ranks[1..]);
      var rest := Sort(ranks[1..])[0];
      AheadTotal(ranks[0], rest);
      forall r | r in ranks ensures Ahead(Sort(ranks)[0], r) {
        if r in ranks[1..] && Ahead(ranks[0], rest) {
          AheadTransitive(ranks[0], rest, r);
        }
      }
    }
  }

  /** The candidate election picks, whatever order the map is walked in. */
  method ElectedCandidate(viewers: Viewers) returns (winner: Option<Writer>)
    ensures winner.Some? ==> Best(viewers, winner.value)
    ensures winner.None? <==> forall u :: !EligibleIn(viewers, u)
  {
    var candidates: seq<Rank> := [];
    var rest := viewers.Keys;
    while rest != {}
      invariant rest <= viewers.Keys
      invariant forall r :: r in candidates ==> EligibleIn(viewers, r.writer) && r == RankOf(viewers, r.writer)
      invariant forall u :: u in viewers.Keys - rest && EligibleIn(viewers, u) ==> RankOf(viewers, u) in candidates
      decreases |rest|
    {
      var w :| w in rest;
      if viewers[w].Eligible() {
        candidates := candidates + [RankOf(viewers, w)];
      }
      rest := rest - {w};
    }
    if candidates == [] {
      return None;
    }
    SortedFirst(candidates);
    winner := Some(Sort(candidates)[0].writer);
  }

  // ---------------------------------------------------------------- invariant

  /** The controller is an eligible viewer and absent only when none is eligible; a
      takeover holder is the controller; without one, no remote controls while an
      eligible local exists. */
  ghost predicate Elected(viewers: Viewers, controller: Option<Writer>, explicit: Option<Writer>) {
    && (controller.Some? ==> EligibleIn(viewers, controller.value))
    && (controller.None? ==> forall u :: !EligibleIn(viewers, u))
    && (explicit.Some? ==> controller == explicit)
    && (explicit.None? && controller.Some? && viewers[controller.value].role.Remote? ==> !LocalAvailable(viewers))
  }

  /** An elected controller is sticky: it stays while it is eligible, unless it is a
      remote beside an eligible local. */
  ghost predicate Stays(viewers: Viewers, controller: Option<Writer>) {
    && controller.Some? && EligibleIn(viewers, controller.value)
    && !(viewers[controller.value].role.Remote? && LocalAvailable(viewers))
  }

  /** The controller's grid is the size in force, once a returned resize is applied. */
  ghost predicate InForce(viewers: Viewers, controller: Option<Writer>, size: Grid) {
    controller.Some? && controller.value in viewers ==> viewers[controller.value].grid == size
  }

  function Applied(resize: Option<Grid>, last: Grid): Grid {
    if resize.Some? then resize.value else last
  }

  // ------------------------------------------------------------ legacy sizes

  ghost predicate IsMin(sizes: map<Writer, Grid>, fallback: Grid, size: Grid) {
    && (sizes == map[] ==> size == fallback)
    && (sizes != map[] ==>
          && (exists w :: w in sizes && sizes[w].cols == size.cols)
          && (exists w :: w in sizes && sizes[w].rows == size.rows)
          && (forall w :: w in sizes ==> size.cols <= sizes[w].cols && size.rows <= sizes[w].rows))
  }

  /** While nobody declares a grid, the minimum asked for is the size in force. */
  ghost predicate LegacyInForce(viewers: Viewers, sizes: map<Writer, Grid>, size: Grid) {
    viewers == map[] ==> IsMin(sizes, size, size)
  }

  lemma LastLeaves(viewers: Viewers, sizes: map<Writer, Grid>, w: Writer)
    requires viewers - {w} == map[]
    ensures viewers == map[] || viewers.Keys == {w}
    ensures w !in sizes ==> sizes - {w} == sizes
  {
    assert forall u :: u in viewers && u != w ==> u in viewers - {w};
    if viewers != map[] {
      assert viewers.Keys == {w};
    }
  }

  /** The minimum is one size. */
  lemma MinUnique(sizes: map<Writer, Grid>, fallback: Grid, a: Grid, b: Grid)
    requires IsMin(sizes, fallback, a) && IsMin(sizes, fallback, b)
    ensures a == b
  {
  }

  /** The smallest width and the smallest height anyone asked for. */
  method EffectiveTerminalSize(sizes: map<Writer, Grid>, fallback: Grid) returns (size: Grid)
    ensures IsMin(sizes, fallback, size)
  {
    size := fallback;
    var rest := sizes.Keys;
    ghost var seen: set<Writer> := {};
    while rest != {}
      invariant rest <= sizes.Keys && seen == sizes.Keys - rest && Smallest(sizes, seen, fallback, size)
      decreases |rest|
    {
      var w :| w in rest;
      var first := rest == sizes.Keys;
      SmallestNext(sizes, seen, fallback, size, w);
      size := Smaller(first, size, sizes[w]);
      rest := rest - {w};
      seen := seen + {w};
    }
  }

  function Smaller(first: bool, size: Grid, other: Grid): Grid {
    Grid(if first || other.cols < size.cols then other.cols else size.cols,
         if first || other.rows < size.rows then other.rows else size.rows)
  }

  /** The minimum over the writers seen so far. */
  ghost predicate Smallest(sizes: map<Writer, Grid>, seen: set<Writer>, fallback: Grid, size: Grid) {
    && seen <= sizes.Keys && (seen == {} ==> size == fallback)
    && (seen != {} ==> (exists w :: w in seen && sizes[w].cols == size.cols) && (exists w :: w in seen && sizes[w].rows == size.rows))
    && (forall w :: w in seen ==> size.cols <= sizes[w].cols && size.rows <= sizes[w].rows)
  }

  lemma SmallestNext(sizes: map<Writer, Grid>, seen: set<Writer>, fallback: Grid, size: Grid, w: Writer)
    requires Smallest(sizes, seen, fallback, size) && w in sizes && w !in seen
    ensures Smallest(sizes, seen + {w}, fallback, Smaller(seen == {}, size, sizes[w]))
  {
    assert w in seen + {w};
  }

  // ----------------------------------------------------------------- the class

  /** A visible viewer's new non-empty grid; anything else is ignored. */
  function Measured(viewers: Viewers, w: Writer, grid: Grid): Viewers
    requires w in viewers
  {
    if viewers[w].visible && grid.cols > 0 && grid.rows > 0
    then viewers[w := viewers[w].(grid := grid)]
    else viewers
  }

  /** Measuring one viewer can only bring that viewer to power. */
  lemma ResizeKeepsOthers(before: Viewers, was: Option<Writer>, held: Option<Writer>, w: Writer, after: Viewers, now: Option<Writer>, holds: Option<Writer>)
    requires Elected(before, was, held) && Elected(after, now, holds) && w in before && after.Keys == before.Keys
    requires forall u :: u in before && u != w ==> after[u] == before[u]
    requires after[w] == before[w] || (after[w].Eligible() && after[w].role == before[w].role)
    requires holds == held
    requires holds.None? && Stays(after, was) ==> now == was
    requires holds.None? && !Stays(after, was) && now.Some? ==> Best(after, now.value)
    requires after == before ==> now == was
    ensures now == was || now == Some(w)
  {
    if holds.None? && now != was && now != Some(w) {
      assert EligibleIn(after, w);
      assert now.Some?;
      assert Ahead(RankOf(after, now.value), RankOf(after, w));
      assert EligibleIn(before, now.value);
    }
  }

  datatype Op =
    | RegisterOp(writer: Writer, viewer: Viewer)
    | ResizeOp(writer: Writer, grid: Grid)
    | TakeoverOp(writer: Writer)
    | ReleaseOp(writer: Writer)
    | RemoveOp(writer: Writer)

  /** The viewers after a command. */
  function ViewersAfter(viewers: Viewers, op: Op): Viewers {
    match op
    case RegisterOp(w, viewer) =>
      if w in viewers && viewers[w].generation > viewer.generation then viewers else viewers[w := viewer]
    case ResizeOp(w, grid) => if w in viewers then Measured(viewers, w, grid) else viewers
    case RemoveOp(w) => viewers - {w}
    case _ => viewers
  }

  /** The sizes undeclared clients asked for, after a command. */
  function SizesAfter(viewers: Viewers, sizes: map<Writer, Grid>, op: Op): map<Writer, Grid> {
    match op
    case ResizeOp(w, grid) => if w in viewers then sizes else sizes[w := grid]
    case RemoveOp(w) => sizes - {w}
    case _ => sizes
  }

  /** Who holds control by takeover after a command that leaves these viewers. */
  function ExplicitAfter(viewers: Viewers, explicit: Option<Writer>, op: Op): Option<Writer> {
    if op.TakeoverOp? && EligibleIn(viewers, op.writer) then Some(op.writer)
    else if explicit.None? || !EligibleIn(viewers, explicit.value) || op == ReleaseOp(explicit.value) then None
    else explicit
  }

  /** What the state comes to, as a value. */
  datatype Sizing = Sizing(lastApplied: Grid, viewers: Viewers, sizes: map<Writer, Grid>, controller: Option<Writer>, explicit: Option<Writer>)

  ghost predicate Sound(s: Sizing) {
    Elected(s.viewers, s.controller, s.explicit) && InForce(s.viewers, s.controller, s.lastApplied)
  }

  /** The controller that may stay: none after the holder's own release. */
  function Kept(s: Sizing, op: Op): Option<Writer> {
    if op.ReleaseOp? && s.explicit == Some(op.writer) then None else s.controller
  }

  /** The command looks at the minimum asked for. */
  predicate Remeasures(s: Sizing, op: Op) {
    || (op.ResizeOp? && op.writer !in s.viewers)
    || (op.RemoveOp? && (s.controller == Some(op.writer) || op.writer in s.sizes))
  }

  /** A command and the resize it asks for, applied: who declared what, who holds a
      takeover, that the controller stays or is the best candidate, and the size. */
  ghost predicate Commanded(s: Sizing, op: Op, t: Sizing) {
    && t.viewers == ViewersAfter(s.viewers, op) && t.sizes == SizesAfter(s.viewers, s.sizes, op)
    && t.explicit == ExplicitAfter(t.viewers, s.explicit, op)
    && Sound(t)
    && (t.explicit.None? && Stays(t.viewers, Kept(s, op)) ==> t.controller == Kept(s, op))
    && (t.explicit.None? && !Stays(t.viewers, Kept(s, op)) && t.controller.Some? ==> Best(t.viewers, t.controller.value))
    && (t.controller.None? && t.viewers != map[] ==> t.lastApplied == s.lastApplied)
    && (t.viewers == map[] && Remeasures(s, op) ==> IsMin(t.sizes, s.lastApplied, t.lastApplied))
    && (t.viewers == map[] && !Remeasures(s, op) ==> t.lastApplied == s.lastApplied)
  }

  /** Nothing else is left open: the map's order, or anything else, decides nothing. */
  lemma CommandDetermined(s: Sizing, op: Op, t: Sizing, u: Sizing)
    requires Commanded(s, op, t) && Commanded(s, op, u)
    ensures t == u
  {
    if t.explicit.None? && t.controller != u.controller {
      assert !Stays(t.viewers, Kept(s, op));
      if t.controller.Some? && u.controller.Some? {
        BestIsUnique(t.viewers, t.controller.value, u.controller.value);
      }
    }
    if t.viewers == map[] && Remeasures(s, op) {
      MinUnique(t.sizes, s.lastApplied, t.lastApplied, u.lastApplied);
    }
  }

  /** The last viewer leaves, neither in control nor with a legacy size of its own. */
  predicate Strands(s: Sizing, op: Op) {
    op.RemoveOp? && s.viewers.Keys == {op.writer} && s.controller != Some(op.writer) && op.writer !in s.sizes
  }

  /** While nobody declares a grid the minimum asked for stays in force, except when the
      last viewer leaves without having controlled the size: what undeclared clients asked
      for beside it is then not applied. */
  lemma LegacyKeptIff(s: Sizing, op: Op, t: Sizing)
    requires Sound(s) && LegacyInForce(s.viewers, s.sizes, s.lastApplied) && Commanded(s, op, t)
    ensures LegacyInForce(t.viewers, t.sizes, t.lastApplied) <==> !(Strands(s, op) && !IsMin(s.sizes, s.lastApplied, s.lastApplied))
  {
    match op
    case RegisterOp(w, viewer) => assert w in t.viewers;
    case ResizeOp(w, grid) =>
      if w in s.viewers {
        assert w in t.viewers;
      }
    case RemoveOp(w) =>
      if t.viewers == map[] {
        LastLeaves(s.viewers, s.sizes, w);
      } else {
        var u :| u in t.viewers;
        assert u in s.viewers && u != w;
      }
    case _ =>
  }

  ghost predicate Served(ops: seq<Op>, states: seq<Sizing>) {
    |states| == |ops| + 1 && forall i :: 0 <= i < |ops| ==> Commanded(states[i], ops[i], states[i + 1])
  }

  /** The commands alone decide every state. */
  lemma {:induction false} ServedDetermined(ops: seq<Op>, states: seq<Sizing>, others: seq<Sizing>, i: nat)
    requires Served(ops, states) && Served(ops, others) && states[0] == others[0] && i < |states|
    ensures states[i] == others[i]
  {
    if i > 0 {
      ServedDetermined(ops, states, others, i - 1);
      CommandDetermined(states[i - 1], ops[i - 1], states[i], others[i]);
    }
  }

  /** The command, which leaves these viewers, does not end a takeover. */
  predicate Undisturbed(op: Op, viewers: Viewers, w: Writer) {
    && EligibleIn(viewers, w) && op != ReleaseOp(w)
    && (op.TakeoverOp? ==> op.writer == w || !EligibleIn(viewers, op.writer))
  }

  /** A takeover lasts: its holder controls, whatever the others do, until it is no longer
      eligible, gives control back, or an eligible viewer takes over. */
  lemma {:induction false} TakeoverLasts(ops: seq<Op>, states: seq<Sizing>, i: nat, j: nat, w: Writer)
    requires Served(ops, states) && i <= j < |states| && states[i].explicit == Some(w) && Sound(states[i])
    requires forall k :: i <= k < j ==> Undisturbed(ops[k], states[k + 1].viewers, w)
    ensures states[j].explicit == states[j].controller == Some(w) && EligibleIn(states[j].viewers, w)
    ensures states[j].lastApplied == states[j].viewers[w].grid
    decreases j
  {
    if i < j {
      var k := j - 1;
      TakeoverLasts(ops, states, i, k, w);
      assert Commanded(states[k], ops[k], states[k + 1]) && Undisturbed(ops[k], states[k + 1].viewers, w);
    }
  }

  class SessionSizeState {
    var lastApplied: Grid
    var viewers: Viewers
    var legacySizes: map<Writer, Grid>
    var controller: Option<Writer>
    var explicit: Option<Writer>

    ghost predicate Valid()
      reads this
    {
      Elected(viewers, controller, explicit)
    }

    constructor (size: Grid)
      ensures Valid() && lastApplied == size && viewers == map[] && legacySizes == map[] && controller.None?
    {
      lastApplied, viewers, legacySizes, controller, explicit := size, map[], map[], None, None;
    }

    /** Walk the viewers, in whatever order, up to the first eligible local one. */
    method HasEligibleLocal() returns (found: bool)
      ensures found <==> LocalAvailable(viewers)
    {
      found := false;
      var rest := viewers.Keys;
      while rest != {} && !found
        invariant rest <= viewers.Keys && (found ==> LocalAvailable(viewers))
        invariant !found ==> forall w :: w in viewers.Keys - rest ==> !(viewers[w].Eligible() && viewers[w].role.Local?)
        decreases |rest|
      {
        var w :| w in rest;
        found := viewers[w].Eligible() && viewers[w].role.Local?;
        rest := rest - {w};
      }
    }

    /** Settle on a controller: the takeover holder while eligible, else the current
        one while eligible and not a remote beside an eligible local, else the best
        candidate. Any starting controller will do. */
    method Elect()
      requires explicit.Some? ==> controller == explicit
      modifies this`controller, this`explicit
      ensures Valid()
      ensures explicit == if old(explicit).Some? && EligibleIn(viewers, old(explicit).value) then old(explicit) else None
      ensures explicit.None? && Stays(viewers, old(controller)) ==> controller == old(controller)
      ensures explicit.None? && !Stays(viewers, old(controller)) && controller.Some? ==> Best(viewers, controller.value)
      ensures old(Valid()) ==> controller == old(controller)
    {
      if explicit.Some? {
        if EligibleIn(viewers, explicit.value) {
          controller := explicit;
          return;
        }
        explicit := None;
      }
      var currentEligible := controller.Some? && EligibleIn(viewers, controller.value);
      var currentRemote := controller.Some? && controller.value in viewers && viewers[controller.value].role.Remote?;
      var local := HasEligibleLocal();
      if currentEligible && !(currentRemote && local) {
        return;
      }
      controller := ElectedCandidate(viewers);
      if controller.Some? && viewers[controller.value].role.Remote? {
        ghost var best := controller.value;
        forall u | EligibleIn(viewers, u) ensures viewers[u].role.Remote? {
          assert Ahead(RankOf(viewers, best), RankOf(viewers, u));
        }
      }
    }

    method ProposedSize() returns (size: Grid)
      ensures controller.Some? && controller.value in viewers ==> size == viewers[controller.value].grid
      ensures !(controller.Some? && controller.value in viewers) && viewers == map[] ==> IsMin(legacySizes, lastApplied, size)
      ensures !(controller.Some? && controller.value in viewers) && viewers != map[] ==> size == lastApplied
    {
      if controller.Some? && controller.value in viewers {
        return viewers[controller.value].grid;
      }
      if viewers == map[] {
        size := EffectiveTerminalSize(legacySizes, lastApplied);
        return;
      }
      size := lastApplied;
    }

    /** A resize is asked for only when it changes something; with a controller it is
        exactly the controller's grid. */
    method PendingResize() returns (resize: Option<Grid>)
      ensures resize.Some? ==> resize.value != lastApplied
      ensures InForce(viewers, controller, Applied(resize, lastApplied))
      ensures controller.None? && viewers == map[] ==> IsMin(legacySizes, lastApplied, Applied(resize, lastApplied))
      ensures controller.None? && viewers != map[] ==> resize.None?
    {
      var proposed := ProposedSize();
      resize := if proposed != lastApplied then Some(proposed) else None;
    }

    /** A viewer declares itself; a message older than the declaration is ignored. */
    method Register(writer: Writer, viewer: Viewer) returns (resize: Option<Grid>)
      requires Valid()
      modifies this`viewers, this`controller, this`explicit
      ensures Valid() && (old(InForce(viewers, controller, lastApplied)) ==> InForce(viewers, controller, Applied(resize, lastApplied)))
      ensures resize.Some? ==> resize.value != lastApplied
      ensures var stale := writer in old(viewers) && old(viewers)[writer].generation > viewer.generation;
              && (stale ==> viewers == old(viewers) && controller == old(controller) && explicit == old(explicit) && resize.None?)
              && (!stale ==> viewers == old(viewers)[writer := viewer] && InForce(viewers, controller, Applied(resize, lastApplied)))
      ensures controller.None? ==> resize.None?
      ensures explicit == if old(explicit).Some? && EligibleIn(viewers, old(explicit).value) then old(explicit) else None
      ensures explicit.None? && Stays(viewers, old(controller)) ==> controller == old(controller)
      ensures explicit.None? && controller != old(controller) && controller.Some? ==> Best(viewers, controller.value)
    {
      if writer in viewers && viewers[writer].generation > viewer.generation {
        return None;
      }
      viewers := viewers[writer := viewer];
      assert writer in viewers;
      Elect();
      resize := PendingResize();
    }

    /** A viewer reports a new grid, or an undeclared client asks for a size. A viewer
        that does not end up in control changes neither the controller nor the size. */
    method Resize(writer: Writer, grid: Grid) returns (resize: Option<Grid>)
      requires Valid()
      modifies this`viewers, this`controller, this`explicit, this`legacySizes
      ensures Valid() && (old(InForce(viewers, controller, lastApplied)) ==> InForce(viewers, controller, Applied(resize, lastApplied)))
      ensures resize.Some? ==> resize.value != lastApplied
      ensures writer in old(viewers) ==>
                && legacySizes == old(legacySizes) && viewers.Keys == old(viewers).Keys
                && (forall u :: u in viewers && u != writer ==> viewers[u] == old(viewers)[u])
                && viewers[writer] == (if old(viewers)[writer].visible && grid.cols > 0 && grid.rows > 0
                                       then old(viewers)[writer].(grid := grid) else old(viewers)[writer])
      ensures writer !in old(viewers) ==>
                && viewers == old(viewers) && controller == old(controller) && legacySizes == old(legacySizes)[writer := grid]
                && InForce(viewers, controller, Applied(resize, lastApplied))
      ensures viewers == map[] ==> IsMin(legacySizes, lastApplied, Applied(resize, lastApplied))
      ensures controller == Some(writer) ==> InForce(viewers, controller, Applied(resize, lastApplied))
      ensures explicit.None? && Stays(viewers, old(controller)) ==> controller == old(controller)
      ensures explicit.None? && controller != old(controller) && controller.Some? ==> Best(viewers, controller.value)
      ensures controller.None? && viewers != map[] ==> resize.None?
      ensures writer in old(viewers) && controller != Some(writer) ==>
                && controller == old(controller) && resize.None?
                && (controller.Some? ==> viewers[controller.value] == old(viewers)[controller.value])
      ensures explicit == old(explicit)
    {
      if writer in viewers {
        ghost var before := viewers;
        viewers := Measured(viewers, writer, grid);
        ghost var was, held := controller, explicit;
        Elect();
        ResizeKeepsOthers(before, was, held, writer, viewers, controller, explicit);
        if controller == Some(writer) {
          resize := PendingResize();
          return;
        }
        return None;
      }
      legacySizes := legacySizes[writer := grid];
      resize := PendingResize();
    }

    /** An eligible viewer takes control; anyone else is refused. */
    method Takeover(writer: Writer) returns (resize: Option<Grid>)
      requires Valid()
      modifies this`controller, this`explicit
      ensures Valid() && (old(InForce(viewers, controller, lastApplied)) ==> InForce(viewers, controller, Applied(resize, lastApplied)))
      ensures resize.Some? ==> resize.value != lastApplied
      ensures EligibleIn(viewers, writer) ==>
                controller == explicit == Some(writer) && InForce(viewers, controller, Applied(resize, lastApplied))
      ensures !EligibleIn(viewers, writer) ==> controller == old(controller) && explicit == old(explicit) && resize.None?
    {
      if EligibleIn(viewers, writer) {
        explicit, controller := Some(writer), Some(writer);
        resize := PendingResize();
        return;
      }
      resize := None;
    }

    /** The takeover holder gives control back to the election. */
    method Release(writer: Writer) returns (resize: Option<Grid>)
      requires Valid()
      modifies this`controller, this`explicit
      ensures Valid() && (old(InForce(viewers, controller, lastApplied)) ==> InForce(viewers, controller, Applied(resize, lastApplied)))
      ensures resize.Some? ==> resize.value != lastApplied
      ensures old(explicit) == Some(writer) ==>
                && explicit.None? && controller.Some? && Best(viewers, controller.value)
                && InForce(viewers, controller, Applied(resize, lastApplied))
      ensures old(explicit) != Some(writer) ==> controller == old(controller) && explicit == old(explicit) && resize.None?
    {
      if explicit == Some(writer) {
        explicit, controller := None, None;
        Elect();
        resize := PendingResize();
        return;
      }
      resize := None;
    }

    /** A client leaves. */
    method Remove(writer: Writer) returns (resize: Option<Grid>)
      requires Valid()
      modifies this`viewers, this`controller, this`explicit, this`legacySizes
      ensures Valid() && (old(InForce(viewers, controller, lastApplied)) ==> InForce(viewers, controller, Applied(resize, lastApplied)))
      ensures resize.Some? ==> resize.value != lastApplied
      ensures viewers == old(viewers) - {writer} && legacySizes == old(legacySizes) - {writer}
      ensures old(controller) != Some(writer) ==> controller == old(controller) && explicit == old(explicit)
      ensures old(controller) == Some(writer) ==>
                && explicit.None? && (controller.Some? ==> Best(viewers, controller.value))
                && InForce(viewers, controller, Applied(resize, lastApplied)) && (controller.None? && viewers != map[] ==> resize.None?)
      ensures viewers == map[] && (old(controller) == Some(writer) || writer in old(legacySizes)) ==>
                IsMin(legacySizes, lastApplied, Applied(resize, lastApplied))
      ensures old(controller) != Some(writer) && !(viewers == map[] && writer in old(legacySizes)) ==> resize.None?
    {
      forall u | EligibleIn(viewers - {writer}, u) ensures EligibleIn(viewers, u) {
      }
      viewers := viewers - {writer};
      var removedLegacy := writer in legacySizes;
      legacySizes := legacySizes - {writer};
      var controlled := controller == Some(writer) || explicit == Some(writer);
      if controlled {
        controller, explicit := None, None;
        Elect();
        resize := PendingResize();
        return;
      }
      if removedLegacy && viewers == map[] {
        resize := PendingResize();
        return;
      }
      resize := None;
    }

    method MarkApplied(size: Grid)
      modifies this`lastApplied
      ensures lastApplied == size
    {
      lastApplied := size;
    }

    ghost function Value(): Sizing
      reads this
    {
      Sizing(lastApplied, viewers, legacySizes, controller, explicit)
    }

    /** One command, and the resize it asks for. */
    method Command(op: Op) returns (resize: Option<Grid>)
      requires Sound(Value())
      modifies this`viewers, this`controller, this`explicit, this`legacySizes
      ensures Commanded(old(Value()), op, Value().(lastApplied := Applied(resize, lastApplied)))
      ensures resize.Some? ==> resize.value != lastApplied
    {
      match op {
        case RegisterOp(w, viewer) => resize := Register(w, viewer);
        case ResizeOp(w, grid) => resize := Resize(w, grid);
        case TakeoverOp(w) => resize := Takeover(w);
        case ReleaseOp(w) => resize := Release(w);
        case RemoveOp(w) => resize := Remove(w);
      }
    }

    /** One command, and the host applying the resize it asks for. */
    method Perform(op: Op)
      requires Sound(Value())
      modifies this
      ensures Commanded(old(Value()), op, Value())
    {
      var resize := Command(op);
      if resize.Some? {
        MarkApplied(resize.value);
      }
    }

    /** Any sequence of commands, with the states it goes through: after each, the election
        is sound, and when the host applies every returned resize the applied size is the
        controller's. */
    method Serve(ops: seq<Op>) returns (states: seq<Sizing>)
      requires Sound(Value())
      modifies this
      ensures Served(ops, states) && states[0] == old(Value()) && states[|ops|] == Value()
      ensures forall i :: 0 <= i < |states| ==> Sound(states[i])
    {
      states := [Sizing(lastApplied, viewers, legacySizes, controller, explicit)];
      var i := 0;
      while i < |ops|
        invariant 0 <= i <= |ops| && |states| == i + 1 && states[0] == old(Value()) && states[i] == Value()
        invariant forall k :: 0 <= k < i ==> Commanded(states[k], ops[k], states[k + 1])
        invariant forall k :: 0 <= k < |states| ==> Sound(states[k])
      {
        Perform(ops[i]);
        states := states + [Sizing(lastApplied, viewers, legacySizes, controller, explicit)];
        i := i + 1;
      }
    }
  }

  /** It happens: a client without a grid asks for a smaller size beside a hidden viewer,
      the viewer leaves, and the size asked for is in force for nobody. */
  method MinimumNotApplied(viewer: Viewer, grid: Grid, size: Grid) returns (s: SessionSizeState)
    requires !viewer.visible && grid != size
    ensures fresh(s) && s.viewers == map[] && s.legacySizes == map[1 := grid] && s.lastApplied == size
  {
    s := new SessionSizeState(size);
    var registered := s.Register(0, viewer);
    var resized := s.Resize(1, grid);
    var removed := s.Remove(0);
  }
}
