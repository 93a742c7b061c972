/**
 Descriptors over a socket: how bundles become one positional stream and come apart
 again, and how received control messages are walked so that every descriptor is
 either returned or closed.

 The control buffer is bytes; the headers the platform's macros visit are a list of
 addresses into it. Descriptor numbers are 32-bit little-endian.
 */
module FdTransfer {
  import opened Common

  type Fd = int

  const HEADER_LEN: nat := 16
  const FD_SIZE: nat := 4
  const TWO_31: int := 0x8000_0000
  const TWO_32: int := 0x1_0000_0000

  // -------------------------------------------------------- descriptor bytes

  function EncodeFd(fd: Fd): seq<Byte>
    requires 0 <= fd < TWO_31
  {
    [fd % 256, fd / 256 % 256, fd / 65536 % 256, fd / 16777216]
  }

  /** Two's complement. */
  function DecodeFd(b: seq<Byte>): Fd
    requires |b| == 4
  {
    var b0: int, b1: int, b2: int, b3: int := b[0], b[1], b[2], b[3];
    var n := b0 + 256 * b1 + 65536 * b2 + 16777216 * b3;
    if n < TWO_31 then n else n - TWO_32
  }

  lemma FdRoundTrip(fd: Fd)
    requires 0 <= fd < TWO_31
    ensures DecodeFd(EncodeFd(fd)) == fd
  {
    assert fd / 256 / 256 == fd / 65536;
    assert fd / 65536 / 256 == fd / 16777216;
  }

  function EncodeFds(fds: seq<Fd>): seq<Byte>
    requires forall i :: 0 <= i < |fds| ==> 0 <= fds[i] < TWO_31
  {
    if fds == [] then [] else EncodeFds(fds[..|fds| - 1]) + EncodeFd(fds[|fds| - 1])
  }

  /** The descriptors of a payload of whole descriptors. */
  function DecodeFds(bytes: seq<Byte>): seq<Fd>
    requires |bytes| % FD_SIZE == 0
    decreases |bytes|
  {
    if bytes == [] then [] else DecodeFds(bytes[..|bytes| - 4]) + [DecodeFd(bytes[|bytes| - 4..])]
  }

  lemma {:induction false} FdsRoundTrip(fds: seq<Fd>)
    requires forall i :: 0 <= i < |fds| ==> 0 <= fds[i] < TWO_31
    ensures |EncodeFds(fds)| == FD_SIZE * |fds| && DecodeFds(EncodeFds(fds)) == fds
  {
    if fds != [] {
      var n := |fds| - 1;
      FdsRoundTrip(fds[..n]);
      FdRoundTrip(fds[n]);
      var bytes := EncodeFds(fds);
      assert bytes[..|bytes| - 4] == EncodeFds(fds[..n]);
      assert bytes[|bytes| - 4..] == EncodeFd(fds[n]);
      assert fds == fds[..n] + [fds[n]];
    }
  }

  // --------------------------------------------------------- the control walk

  /** One control message header as the walk meets it. */
  datatype Header = Header(addr: nat, len: nat, rights: bool)

  datatype Outcome = Received(fds: seq<Fd>) | Refused

  predicate InBounds(control: seq<Byte>, h: Header) {
    h.len >= HEADER_LEN && h.addr + h.len <= |control|
  }

  function Payload(control: seq<Byte>, h: Header): seq<Byte>
    requires InBounds(control, h)
  {
    control[h.addr + HEADER_LEN..h.addr + h.len]
  }

  predicate Whole(control: seq<Byte>, h: Header) {
    InBounds(control, h) && h.rights && (h.len - HEADER_LEN) % FD_SIZE == 0
  }

  ghost predicate AllInBounds(control: seq<Byte>, chain: seq<Header>) {
    forall i :: 0 <= i < |chain| ==> InBounds(control, chain[i])
  }

  ghost predicate AllWhole(control: seq<Byte>, chain: seq<Header>) {
    forall i :: 0 <= i < |chain| ==> Whole(control, chain[i])
  }

  /** The descriptors of a whole rights payload. */
  function FoundAt(control: seq<Byte>, h: Header): seq<Fd> {
    if Whole(control, h) then DecodeFds(Payload(control, h)) else []
  }

  /** Every descriptor in a whole rights payload of the chain, in order. */
  function Found(control: seq<Byte>, chain: seq<Header>): seq<Fd> {
    if chain == [] then []
    else Found(control, chain[..|chain| - 1]) + FoundAt(control, chain[|chain| - 1])
  }

  lemma DecodeNext(data: seq<Byte>, at: nat)
    requires at % 4 == 0 && at + 4 <= |data|
    ensures (at + 4) % 4 == 0 && DecodeFds(data[..at + 4]) == DecodeFds(data[..at]) + [DecodeFd(data[at..at + 4])]
  {
    var more := data[..at + 4];
    assert more[..|more| - 4] == data[..at] && more[|more| - 4..] == data[at..at + 4];
  }

  /** The descriptors of one payload, read in place. */
  method ReadPayload(control: seq<Byte>, h: Header) returns (fds: seq<Fd>)
    requires Whole(control, h)
    ensures fds == DecodeFds(Payload(control, h))
  {
    var data := Payload(control, h);
    var count := |data| / FD_SIZE;
    fds := [];
    var index, at := 0, 0;
    while index < count
      invariant 0 <= index <= count && at == 4 * index && |data| == 4 * count
      invariant fds == DecodeFds(data[..at])
    {
      DecodeNext(data, at);
      fds := fds + [DecodeFd(data[at..at + 4])];
      index, at := index + 1, at + 4;
    }
    assert data[..at] == data;
  }

  /** The descriptors of one message; a foreign or ragged one has none to give. */
  method ReadMessage(control: seq<Byte>, h: Header) returns (fds: seq<Fd>, whole: bool)
    requires InBounds(control, h)
    ensures whole == Whole(control, h) && fds == FoundAt(control, h)
  {
    fds, whole := [], h.rights && (h.len - HEADER_LEN) % FD_SIZE == 0;
    if whole {
      fds := ReadPayload(control, h);
    }
  }

  lemma FoundNext(control: seq<Byte>, chain: seq<Header>, i: nat)
    requires i < |chain|
    ensures chain[..i + 1] == chain[..i] + [chain[i]]
    ensures Found(control, chain[..i + 1]) == Found(control, chain[..i]) + FoundAt(control, chain[i])
  {
    assert chain[..i + 1][..i] == chain[..i];
  }

  /** Several messages give their descriptors one after the other. */
  lemma {:induction false} FoundSplits(control: seq<Byte>, a: seq<Header>, b: seq<Header>)
    ensures Found(control, a + b) == Found(control, a) + Found(control, b)
  {
    if b == [] {
      assert a + b == a;
    } else {
      var front, last := b[..|b| - 1], b[|b| - 1];
      FoundSplits(control, a, front);
      Assoc(a, front, [last]);
      assert b == front + [last];
      FoundJoins(control, a, front, last, Found(control, a), Found(control, front));
    }
  }

  lemma FoundJoins(control: seq<Byte>, a: seq<Header>, b: seq<Header>, h: Header, x: seq<Fd>, y: seq<Fd>)
    requires Found(control, a + b) == x + y && Found(control, b) == y
    ensures Found(control, a + b + [h]) == x + Found(control, b + [h])
  {
    FoundSnoc(control, a + b, h);
    FoundSnoc(control, b, h);
    Assoc(x, y, FoundAt(control, h));
  }

  lemma FoundSnoc(control: seq<Byte>, chain: seq<Header>, h: Header)
    ensures Found(control, chain + [h]) == Found(control, chain) + FoundAt(control, h)
  {
    assert (chain + [h])[..|chain|] == chain;
  }

  /** What the walk has gathered by the time it stands at a header. */
  ghost predicate Walked(control: seq<Byte>, chain: seq<Header>, fds: seq<Fd>, deferred: bool) {
    AllInBounds(control, chain) && fds == Found(control, chain) && (deferred <==> !AllWhole(control, chain))
  }

  lemma WalkedOn(control: seq<Byte>, chain: seq<Header>, i: nat, fds: seq<Fd>, deferred: bool)
    requires i < |chain| && Walked(control, chain[..i], fds, deferred) && InBounds(control, chain[i])
    ensures Walked(control, chain[..i + 1], fds + FoundAt(control, chain[i]), deferred || !Whole(control, chain[i]))
  {
    FoundNext(control, chain, i);
    WholeSnoc(control, chain[..i], chain[i]);
  }

  /** Walk the chain up to its end or to the first header out of bounds, gathering
      descriptors; a foreign or ragged message does not stop the walk. */
  method Walk(control: seq<Byte>, chain: seq<Header>) returns (fds: seq<Fd>, deferred: bool, bad: bool, n: nat)
    ensures n <= |chain| && fds == Found(control, chain[..n])
    ensures bad ==> FirstBad(control, chain, n)
    ensures !bad ==> n == |chain| && AllInBounds(control, chain) && (deferred <==> !AllWhole(control, chain))
  {
    fds, deferred, n := [], false, 0;
    while n < |chain|
      invariant 0 <= n <= |chain| && Walked(control, chain[..n], fds, deferred)
    {
      var h := chain[n];
      if h.len < HEADER_LEN || h.addr + h.len > |control| {
        return fds, deferred, true, n;
      }
      WalkedOn(control, chain, n, fds, deferred);
      var more, whole := ReadMessage(control, h);
      fds, deferred := fds + more, deferred || !whole;
      n := n + 1;
    }
    assert chain[..|chain|] == chain;
    bad := false;
  }

  /** Either exactly the expected descriptors are returned, in order, and nothing is
      closed, or nothing is returned and exactly the descriptors found are closed: all
      of them when every length is in bounds. `unmarkable` is the descriptor, if any,
      that cannot be made close-on-exec. */
  method CollectFds(control: seq<Byte>, chain: seq<Header>, truncated: bool, expected: nat, unmarkable: Option<Fd>)
    returns (outcome: Outcome, closed: seq<Fd>)
    ensures outcome.Received? <==>
              && AllInBounds(control, chain) && AllWhole(control, chain) && !truncated
              && |Found(control, chain)| == expected > 0
              && !(unmarkable.Some? && unmarkable.value in Found(control, chain))
    ensures outcome.Received? ==> outcome.fds == Found(control, chain) && closed == []
    ensures outcome.Refused? && AllInBounds(control, chain) ==> closed == Found(control, chain)
    ensures outcome.Refused? && !AllInBounds(control, chain) ==>
              exists n: nat :: FirstBad(control, chain, n) && closed == Found(control, chain[..n])
  {
    var fds, deferred, bad, n := Walk(control, chain);
    if bad {
      return Refused, fds;
    }
    assert chain[..|chain|] == chain;
    if deferred || truncated {
      return Refused, fds;
    }
    if fds == [] {
      return Refused, [];
    }
    if |fds| != expected {
      return Refused, fds;
    }
    if unmarkable.Some? && unmarkable.value in fds {
      return Refused, fds;
    }
    return Received(fds), [];
  }

  /** The first header whose length is out of bounds. */
  ghost predicate FirstBad(control: seq<Byte>, chain: seq<Header>, n: nat) {
    n < |chain| && !InBounds(control, chain[n]) && AllInBounds(control, chain[..n])
  }

  lemma WholeSnoc(control: seq<Byte>, chain: seq<Header>, h: Header)
    ensures AllWhole(control, chain + [h]) <==> AllWhole(control, chain) && Whole(control, h)
  {
    if AllWhole(control, chain + [h]) {
      assert (chain + [h])[|chain|] == h;
      assert forall i :: 0 <= i < |chain| ==> (chain + [h])[i] == chain[i];
    }
  }

  // ---------------------------------------------------------------- bundles

  datatype Kind = Pty | Agent

  /** What the metadata says about one session. */
  datatype Info = Info(id: nat, kind: Kind, agentFds: nat)

  /** One session and the descriptors it travels with. */
  datatype Bundle = Bundle(info: Info, fds: seq<Fd>)

  function Declared(info: Info): nat {
    if info.kind.Pty? then 1 else info.agentFds
  }

  predicate ValidInfo(info: Info) {
    info.kind.Agent? ==> info.agentFds == 0 || info.agentFds == 2 || info.agentFds == 3
  }

  /** A PTY carries its master; an agent nothing, or stdout and stderr, or all three. */
  predicate BundleOk(b: Bundle) {
    |b.fds| == Declared(b.info) && ValidInfo(b.info)
  }

  function Infos(bundles: seq<Bundle>): seq<Info> {
    if bundles == [] then [] else [bundles[0].info] + Infos(bundles[1..])
  }

  /** The positional stream. */
  function Flatten(bundles: seq<Bundle>): seq<Fd> {
    if bundles == [] then [] else bundles[0].fds + Flatten(bundles[1..])
  }

  function Total(infos: seq<Info>): nat {
    if infos == [] then 0 else Declared(infos[0]) + Total(infos[1..])
  }

  /** Out-of-protocol counts are found exactly. */
  method ValidateFdCounts(infos: seq<Info>) returns (ok: bool)
    ensures ok <==> forall i :: 0 <= i < |infos| ==> ValidInfo(infos[i])
  {
    var i := 0;
    ok := true;
    while i < |infos| && ok
      invariant 0 <= i <= |infos|
      invariant ok ==> forall j :: 0 <= j < i ==> ValidInfo(infos[j])
      invariant !ok ==> exists j :: 0 <= j < i && !ValidInfo(infos[j])
    {
      ok := !(infos[i].kind.Agent? && infos[i].agentFds != 0 && infos[i].agentFds != 2 && infos[i].agentFds != 3);
      i := i + 1;
    }
  }

  /** Hand each session the next descriptors of the stream, by declared counts. When
      the stream has the expected length it is cut up exactly: every session gets its
      count, in order, and none is left over. */
  method Split(infos: seq<Info>, fds: seq<Fd>) returns (adopted: seq<Bundle>)
    requires |fds| == Total(infos)
    ensures Infos(adopted) == infos && Flatten(adopted) == fds
    ensures forall i :: 0 <= i < |adopted| ==> |adopted[i].fds| == Declared(adopted[i].info)
  {
    adopted := [];
    var rest, i := fds, 0;
    while i < |infos|
      invariant 0 <= i <= |infos| && |rest| == Total(infos[i..])
      invariant Infos(adopted) == infos[..i] && Flatten(adopted) + rest == fds
      invariant forall j :: 0 <= j < |adopted| ==> |adopted[j].fds| == Declared(adopted[j].info)
    {
      var n := Declared(infos[i]);
      assert infos[i..][1..] == infos[i + 1..];
      var bundle := Bundle(infos[i], rest[..n]);
      Appended(adopted, bundle);
      Assoc(Flatten(adopted), rest[..n], rest[n..]);
      assert rest == rest[..n] + rest[n..];
      assert infos[..i + 1] == infos[..i] + [infos[i]];
      adopted, rest := adopted + [bundle], rest[n..];
      i := i + 1;
    }
    assert infos[..|infos|] == infos && rest == [];
  }

  lemma {:induction false} Appended(bundles: seq<Bundle>, b: Bundle)
    ensures Infos(bundles + [b]) == Infos(bundles) + [b.info] && Flatten(bundles + [b]) == Flatten(bundles) + b.fds
  {
    if bundles == [] {
      assert [b][1..] == [];
    } else {
      Appended(bundles[1..], b);
      assert (bundles + [b])[1..] == bundles[1..] + [b];
      Assoc(bundles[0].fds, Flatten(bundles[1..]), b.fds);
      Assoc([bundles[0].info], Infos(bundles[1..]), [b.info]);
    }
  }

  lemma {:induction false} FlattenLength(bundles: seq<Bundle>)
    requires forall i :: 0 <= i < |bundles| ==> BundleOk(bundles[i])
    ensures |Flatten(bundles)| == Total(Infos(bundles))
  {
    if bundles != [] {
      FlattenLength(bundles[1..]);
    }
  }

  /** Only one way of cutting the stream agrees with the metadata. */
  lemma {:induction false} SplitIsUnique(a: seq<Bundle>, b: seq<Bundle>)
    requires Infos(a) == Infos(b) && Flatten(a) == Flatten(b)
    requires forall i :: 0 <= i < |a| ==> |a[i].fds| == Declared(a[i].info)
    requires forall i :: 0 <= i < |b| ==> |b[i].fds| == Declared(b[i].info)
    ensures a == b
    decreases |a|
  {
    if a == [] {
      assert b == [] || Infos(b) != [];
    } else {
      assert b != [];
      assert Infos(a)[0] == Infos(b)[0] && Infos(a)[1..] == Infos(b)[1..];
      var n := |a[0].fds|;
      assert Flatten(a)[..n] == a[0].fds && Flatten(b)[..n] == b[0].fds;
      assert Flatten(a)[n..] == Flatten(a[1..]) && Flatten(b)[n..] == Flatten(b[1..]);
      SplitIsUnique(a[1..], b[1..]);
      assert a == [a[0]] + a[1..] && b == [b[0]] + b[1..];
    }
  }

  /** What the sender puts into its one control message is what the walk finds. */
  lemma OneMessage(header: seq<Byte>, bytes: seq<Byte>)
    requires |header| == HEADER_LEN && |bytes| % FD_SIZE == 0
    ensures var control := header + bytes; var h := Header(0, |control|, true);
            Whole(control, h) && Found(control, [h]) == DecodeFds(bytes)
  {
    var control := header + bytes;
    var h := Header(0, |control|, true);
    assert Payload(control, h) == bytes;
    assert [h][..0] == [];
  }

  /** One rights message carries a non-empty stream across unchanged. */
  method SendAndCollect(header: seq<Byte>, fds: seq<Fd>) returns (received: seq<Fd>)
    requires |header| == HEADER_LEN && fds != [] && forall i :: 0 <= i < |fds| ==> 0 <= fds[i] < TWO_31
    ensures received == fds
  {
    FdsRoundTrip(fds);
    var bytes := EncodeFds(fds);
    OneMessage(header, bytes);
    var control := header + bytes;
    var chain := [Header(0, |control|, true)];
    var outcome, closed := CollectFds(control, chain, false, |fds|, None);
    received := outcome.fds;
  }

  /** End to end: bundles flattened, encoded into one rights message, collected with
      the expected count and split again come back as they were sent. */
  method Transfer(bundles: seq<Bundle>, header: seq<Byte>) returns (adopted: seq<Bundle>)
    requires |header| == HEADER_LEN
    requires forall i :: 0 <= i < |bundles| ==> BundleOk(bundles[i])
    requires forall i :: 0 <= i < |Flatten(bundles)| ==> 0 <= Flatten(bundles)[i] < TWO_31
    ensures adopted == bundles
  {
    FlattenLength(bundles);
    var received := [];
    if Total(Infos(bundles)) > 0 {
      received := SendAndCollect(header, Flatten(bundles));
    }
    adopted := Split(Infos(bundles), received);
    SplitIsUnique(adopted, bundles);
  }

  // ------------------------------------------------------------ pipe bundles

  /** Duplicate a bundle of pipes. A failure part way closes every duplicate already
      made; nothing else is touched. `dups` are the numbers the system hands out for
      stdout, stderr and stdin, absent where duplication fails; the bundle lists them in
      that order. */
  method DupFrom(open: set<Fd>, withStdin: bool, dups: seq<Option<Fd>>) returns (open': set<Fd>, bundle: Option<seq<Fd>>)
    requires |dups| == 3
    requires forall i :: 0 <= i < 3 && dups[i].Some? ==> dups[i].value !in open
    requires forall i, j :: 0 <= i < j < 3 && dups[i].Some? && dups[j].Some? ==> dups[i].value != dups[j].value
    ensures bundle.Some? <==> dups[0].Some? && dups[1].Some? && (withStdin ==> dups[2].Some?)
    ensures bundle.None? ==> open' == open
    ensures bundle.Some? ==>
              && bundle.value == [dups[0].value, dups[1].value] + (if withStdin then [dups[2].value] else [])
              && open' == open + (set fd | fd in bundle.value) && forall fd :: fd in bundle.value ==> fd !in open
  {
    open', bundle := open, None;
    if dups[0].None? { return; }
    var stdout := dups[0].value;
    open' := open' + {stdout};
    if dups[1].None? {
      open' := open' - {stdout};
      return;
    }
    var stderr := dups[1].value;
    open' := open' + {stderr};
    if !withStdin {
      bundle := Some([stdout, stderr]);
      return;
    }
    if dups[2].None? {
      open' := open' - {stdout} - {stderr};
      return;
    }
    open' := open' + {dups[2].value};
    bundle := Some([stdout, stderr, dups[2].value]);
  }
}
