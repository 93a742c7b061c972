/**
 Which bytes of a declared draft can put text at a composer.

 The counting loop is checked against a token grammar of terminal input: every
 byte string is the print of exactly one well-formed token list, and the count is
 the sum of the token weights. Control sequences and control strings follow
 sections 5.4 and 5.6 of ECMA-48.
 */
module DraftBytes {
  import opened Common

  const ESC: Byte := 0x1b
  const BEL: Byte := 0x07
  const DEL: Byte := 0x7f
  const BACKSLASH: Byte := 0x5c
  const BRACKET: Byte := 0x5b     // [
  const LETTER_M: Byte := 0x4d
  const LETTER_O: Byte := 0x4f
  const PASTE_START: seq<Byte> := [0x1b, 0x5b, 0x32, 0x30, 0x30, 0x7e]
  const PASTE_END: seq<Byte> := [0x1b, 0x5b, 0x32, 0x30, 0x31, 0x7e]

  predicate IsInertControl(b: Byte) {
    b <= 0x08 || b == 0x0b || b == 0x0c || b == 0x15 || b == 0x17 || b == 0x1a || 0x1c <= b <= 0x1f || b == DEL
  }

  /** DCS, OSC, SOS, PM and APC. */
  predicate IsIntroducer(b: Byte) {
    b == 0x50 || b == 0x5d || b == 0x58 || b == 0x5e || b == 0x5f
  }

  predicate IsFinal(b: Byte) {
    0x40 <= b <= 0x7e
  }

  /** Cursor up and down recall a line into the composer. */
  predicate RecallsLine(b: Byte) {
    b == 0x41 || b == 0x42
  }

  // ------------------------------------------------------------ the grammar

  datatype Token =
    | Text(byte: Byte)
    | Csi(parameters: seq<Byte>, final: Byte)
    | Mouse(x: Byte, y: Byte, z: Byte)             // ESC [ M and three raw bytes
    | Ss3(final: Byte)
    | Reply(introducer: Byte, payload: seq<Byte>, st: bool)
    | Alt(byte: Byte)
    | AltIntroducer(byte: Byte)                    // an introducer with no terminator
    | Paste(payload: seq<Byte>)
    // Cut off by the end of the write.
    | OpenPaste(payload: seq<Byte>)
    | BareEscape
    | CutCsi(parameters: seq<Byte>)
    | CutMouse(coordinates: seq<Byte>)
    | CutSs3

  function PrintOne(t: Token): seq<Byte> {
    match t
    case Text(b) => [b]
    case Csi(ps, f) => [ESC, BRACKET] + ps + [f]
    case Mouse(x, y, z) => [ESC, BRACKET, LETTER_M, x, y, z]
    case Ss3(f) => [ESC, LETTER_O, f]
    case Reply(i, p, st) => [ESC, i] + p + if st then [ESC, BACKSLASH] else [BEL]
    case Alt(b) => [ESC, b]
    case AltIntroducer(b) => [ESC, b]
    case Paste(p) => PASTE_START + p + PASTE_END
    case OpenPaste(p) => PASTE_START + p
    case BareEscape => [ESC]
    case CutCsi(ps) => [ESC, BRACKET] + ps
    case CutMouse(cs) => [ESC, BRACKET, LETTER_M] + cs
    case CutSs3 => [ESC, LETTER_O]
  }

  function Print(ts: seq<Token>): seq<Byte> {
    if ts == [] then [] else PrintOne(ts[0]) + Print(ts[1..])
  }

  /** What a token can put at the composer. */
  function Weight(t: Token): nat {
    match t
    case Text(b) => if IsInertControl(b) then 0 else 1
    case Csi(ps, f) => if RecallsLine(f) then |ps| + 3 else 0
    case Ss3(f) => if RecallsLine(f) then 3 else 0
    case Paste(p) => |p|
    case OpenPaste(p) => |p|
    case _ => 0
  }

  function Weights(ts: seq<Token>): nat {
    if ts == [] then 0 else Weight(ts[0]) + Weights(ts[1..])
  }

  ghost predicate NoFinal(bytes: seq<Byte>) {
    forall i :: 0 <= i < |bytes| ==> !IsFinal(bytes[i])
  }

  /** The end marker starts at this index. */
  predicate EndAt(bytes: seq<Byte>, i: int) {
    && 0 <= i <= |bytes| - 6
    && bytes[i] == 0x1b && bytes[i + 1] == 0x5b && bytes[i + 2] == 0x32
    && bytes[i + 3] == 0x30 && bytes[i + 4] == 0x31 && bytes[i + 5] == 0x7e
  }

  /** The end marker occurs nowhere in the bytes. */
  ghost predicate NoEnd(bytes: seq<Byte>) {
    forall i :: !EndAt(bytes, i)
  }

  /** Neither BEL nor ESC: the body of a control string. */
  ghost predicate Plain(bytes: seq<Byte>) {
    forall i :: 0 <= i < |bytes| ==> bytes[i] != BEL && bytes[i] != ESC
  }

  /** No terminator ends a control string at these bytes: they run out, or the first
      ESC among them does not begin ST and no BEL comes before it. */
  ghost predicate Unterminated(bytes: seq<Byte>) {
    Plain(bytes) || exists i :: BrokenAt(bytes, i)
  }

  ghost predicate BrokenAt(bytes: seq<Byte>, i: nat) {
    i < |bytes| && Plain(bytes[..i]) && bytes[i] == ESC && (i + 1 == |bytes| || bytes[i + 1] != BACKSLASH)
  }

  /** The token may stand before these bytes. */
  ghost predicate TokenOk(t: Token, rest: seq<Byte>) {
    match t
    case Text(b) => b != ESC
    case Csi(ps, f) => NoFinal(ps) && IsFinal(f) && !(ps == [] && f == LETTER_M) && !(ps == [0x32, 0x30, 0x30] && f == 0x7e)
    case Mouse(_, _, _) => true
    case Ss3(_) => true
    case Reply(i, p, _) => IsIntroducer(i) && Plain(p)
    case Alt(b) => b != BRACKET && b != LETTER_O && !IsIntroducer(b)
    case AltIntroducer(b) => IsIntroducer(b) && Unterminated(rest)
    case Paste(p) => NoEnd(p)
    case OpenPaste(p) => NoEnd(p) && rest == []
    case BareEscape => rest == []
    case CutCsi(ps) => NoFinal(ps) && rest == []
    case CutMouse(cs) => |cs| < 3 && rest == []
    case CutSs3 => rest == []
  }

  ghost predicate WellFormed(ts: seq<Token>) {
    ts != [] ==> TokenOk(ts[0], Print(ts[1..])) && WellFormed(ts[1..])
  }

  // ---------------------------------------------------------------- scanning

  /** First final byte. */
  function FindFinal(bytes: seq<Byte>): (r: Option<nat>)
    ensures r.Some? ==> r.value < |bytes| && IsFinal(bytes[r.value]) && NoFinal(bytes[..r.value])
    ensures r.None? ==> NoFinal(bytes)
  {
    if bytes == [] then None
    else if IsFinal(bytes[0]) then Some(0)
    else
      var r := FindFinal(bytes[1..]);
      if r.None? then None else Some(r.value + 1)
  }

  /** First end-of-paste marker. */
  function FindEnd(bytes: seq<Byte>): (r: Option<nat>)
    ensures r.Some? ==> EndAt(bytes, r.value) && forall i :: i < r.value ==> !EndAt(bytes, i)
    ensures r.None? ==> NoEnd(bytes)
  {
    if |bytes| < 6 then None
    else if EndAt(bytes, 0) then Some(0)
    else
      var r := FindEnd(bytes[1..]);
      assert forall i :: EndAt(bytes, i) && i != 0 ==> EndAt(bytes[1..], i - 1);
      if r.None? then None else Some(r.value + 1)
  }

  datatype Terminator = Terminator(at: nat, st: bool)

  /** Where a control string with this body and rest ends. */
  function FindTerminator(bytes: seq<Byte>): (r: Option<Terminator>)
    ensures r.Some? ==> r.value.at < |bytes| && Plain(bytes[..r.value.at])
    ensures r.Some? && r.value.st ==> r.value.at + 1 < |bytes| && bytes[r.value.at] == ESC && bytes[r.value.at + 1] == BACKSLASH
    ensures r.Some? && !r.value.st ==> bytes[r.value.at] == BEL
  {
    if bytes == [] then None
    else if bytes[0] == BEL then Some(Terminator(0, false))
    else if bytes[0] == ESC then
      if |bytes| > 1 && bytes[1] == BACKSLASH then Some(Terminator(0, true)) else None
    else
      var r := FindTerminator(bytes[1..]);
      if r.None? then None else Some(Terminator(r.value.at + 1, r.value.st))
  }

  lemma {:induction false} NoTerminator(bytes: seq<Byte>)
    ensures FindTerminator(bytes).None? <==> Unterminated(bytes)
  {
    if bytes != [] && bytes[0] != BEL && bytes[0] != ESC {
      NoTerminator(bytes[1..]);
      if i: nat :| BrokenAt(bytes[1..], i) {
        assert bytes[..i + 1] == [bytes[0]] + bytes[1..][..i];
        assert BrokenAt(bytes, i + 1);
      }
      if i: nat :| BrokenAt(bytes, i) {
        assert bytes[1..][..i - 1] == bytes[1..i];
        assert BrokenAt(bytes[1..], i - 1);
      }
    } else if bytes != [] && bytes[0] == ESC {
      assert BrokenAt(bytes, 0) <==> (|bytes| == 1 || bytes[1] != BACKSLASH);
    }
  }

  // -------------------------------------------------------------- tokenizing

  predicate StartsPaste(data: seq<Byte>) {
    PASTE_START <= data
  }

  /** The token an escape begins. */
  function EscapeToken(data: seq<Byte>): Token
    requires data != []
  {
    if |data| == 1 then BareEscape
    else if data[1] == BRACKET then
      var f := FindFinal(data[2..]);
      if f.None? then CutCsi(data[2..])
      else if f.value == 0 && data[2] == LETTER_M then
        if |data| >= 6 then Mouse(data[3], data[4], data[5]) else CutMouse(data[3..])
      else Csi(data[2..2 + f.value], data[2 + f.value])
    else if data[1] == LETTER_O then
      if |data| >= 3 then Ss3(data[2]) else CutSs3
    else if IsIntroducer(data[1]) then
      var t := FindTerminator(data[2..]);
      if t.None? then AltIntroducer(data[1]) else Reply(data[1], data[2..2 + t.value.at], t.value.st)
    else Alt(data[1])
  }

  function First(data: seq<Byte>): Token
    requires data != []
  {
    if StartsPaste(data) then
      var e := FindEnd(data[6..]);
      if e.None? then OpenPaste(data[6..]) else Paste(data[6..6 + e.value])
    else if data[0] == ESC then EscapeToken(data)
    else Text(data[0])
  }

  function Size(t: Token): (n: nat)
    ensures n > 0
  {
    |PrintOne(t)|
  }

  /** The token prints to the front of the data, and may stand before the rest. */
  ghost predicate Fits(t: Token, data: seq<Byte>) {
    PrintOne(t) <= data && TokenOk(t, data[Size(t)..])
  }

  lemma PrefixAfter(a: seq<Byte>, b: seq<Byte>, c: seq<Byte>)
    requires b <= c
    ensures a + b <= a + c
  {
  }

  lemma FinalPrefix(body: seq<Byte>, at: nat)
    requires at < |body|
    ensures body[..at] + [body[at]] <= body
  {
  }

  lemma WholeCsiFits(data: seq<Byte>, at: nat)
    requires |data| > 1 && data[0] == ESC && data[1] == BRACKET && !StartsPaste(data)
    requires FindFinal(data[2..]) == Some(at) && !(at == 0 && data[2] == LETTER_M)
    ensures Fits(Csi(data[2..2 + at], data[2 + at]), data)
  {
    var body := data[2..];
    var ps := body[..at];
    assert data == [ESC, BRACKET] + body && data[2..2 + at] == ps && data[2 + at] == body[at];
    FinalPrefix(body, at);
    PrefixAfter([ESC, BRACKET], ps + [body[at]], body);
    Assoc([ESC, BRACKET], ps, [body[at]]);
    assert at == 3 ==> ps == [body[0], body[1], body[2]] && data[..6] == [ESC, BRACKET] + ps + [body[3]];
  }

  lemma CsiFits(data: seq<Byte>)
    requires |data| > 1 && data[0] == ESC && data[1] == BRACKET && !StartsPaste(data)
    ensures Fits(EscapeToken(data), data)
  {
    var f := FindFinal(data[2..]);
    if f.None? {
      assert data == [ESC, BRACKET] + data[2..];
    } else if f.value == 0 && data[2] == LETTER_M {
      if |data| < 6 {
        assert data == [ESC, BRACKET, LETTER_M] + data[3..];
      }
    } else {
      WholeCsiFits(data, f.value);
    }
  }

  lemma TerminatorPrefix(body: seq<Byte>, at: nat, st: bool)
    requires FindTerminator(body) == Some(Terminator(at, st))
    ensures body[..at] + (if st then [ESC, BACKSLASH] else [BEL]) <= body
  {
  }

  lemma ReplyFits(data: seq<Byte>, at: nat, st: bool)
    requires |data| > 1 && data[0] == ESC && IsIntroducer(data[1])
    requires FindTerminator(data[2..]) == Some(Terminator(at, st))
    ensures Fits(Reply(data[1], data[2..2 + at], st), data)
  {
    var body := data[2..];
    var end := if st then [ESC, BACKSLASH] else [BEL];
    assert data == [ESC, data[1]] + body && data[2..2 + at] == body[..at];
    TerminatorPrefix(body, at, st);
    PrefixAfter([ESC, data[1]], body[..at] + end, body);
    Assoc([ESC, data[1]], body[..at], end);
  }

  lemma EscapeTokenFits(data: seq<Byte>)
    requires data != [] && data[0] == ESC && !StartsPaste(data)
    ensures Fits(EscapeToken(data), data)
  {
    if |data| > 1 {
      if data[1] == BRACKET {
        CsiFits(data);
      } else if IsIntroducer(data[1]) {
        NoTerminator(data[2..]);
        var t := FindTerminator(data[2..]);
        if t.Some? {
          ReplyFits(data, t.value.at, t.value.st);
        }
      }
    }
  }

  lemma MarkerAt(bytes: seq<Byte>, i: nat)
    requires EndAt(bytes, i)
    ensures bytes[i..i + 6] == PASTE_END && bytes[..i] + PASTE_END <= bytes
    ensures (forall j :: j < i ==> !EndAt(bytes, j)) ==> NoEnd(bytes[..i])
  {
    assert bytes[..i] + bytes[i..i + 6] == bytes[..i + 6];
    assert forall j :: EndAt(bytes[..i], j) ==> EndAt(bytes, j) && j < i;
  }

  lemma MarkedOff(start: seq<Byte>, payload: seq<Byte>)
    ensures (start + payload)[..|start|] == start && (start + payload)[|start|..] == payload
  {
  }

  lemma WholePasteFits(payload: seq<Byte>, at: nat)
    requires FindEnd(payload) == Some(at)
    ensures Fits(Paste(payload[..at]), PASTE_START + payload)
  {
    MarkerAt(payload, at);
    PrefixAfter(PASTE_START, payload[..at] + PASTE_END, payload);
    Assoc(PASTE_START, payload[..at], PASTE_END);
  }

  lemma OpenPasteFits(payload: seq<Byte>)
    requires NoEnd(payload)
    ensures Fits(OpenPaste(payload), PASTE_START + payload)
  {
  }

  /** What the first token of a paste is, in terms of what follows its marker. */
  lemma PasteToken(payload: seq<Byte>)
    ensures var data := PASTE_START + payload;
            && StartsPaste(data) && data != []
            && First(data) == if FindEnd(payload).None? then OpenPaste(payload) else Paste(payload[..FindEnd(payload).value])
  {
    var data := PASTE_START + payload;
    MarkedOff(PASTE_START, payload);
    if FindEnd(payload).Some? {
      assert data[6..6 + FindEnd(payload).value] == payload[..FindEnd(payload).value];
    }
  }

  lemma PasteFits(data: seq<Byte>)
    requires StartsPaste(data)
    ensures Fits(First(data), data)
  {
    var payload := data[6..];
    assert data == PASTE_START + payload;
    PasteToken(payload);
    if FindEnd(payload).Some? {
      WholePasteFits(payload, FindEnd(payload).value);
    } else {
      OpenPasteFits(payload);
    }
  }

  lemma FirstFits(data: seq<Byte>)
    requires data != []
    ensures Fits(First(data), data)
  {
    if StartsPaste(data) {
      PasteFits(data);
    } else if data[0] == ESC {
      EscapeTokenFits(data);
    }
  }

  function Tokenize(data: seq<Byte>): seq<Token>
    decreases |data|
  {
    if data == [] then []
    else
      FirstFits(data);
      var t := First(data);
      [t] + Tokenize(data[Size(t)..])
  }

  lemma PrintCons(t: Token, ts: seq<Token>)
    ensures Print([t] + ts) == PrintOne(t) + Print(ts)
  {
    assert ([t] + ts)[1..] == ts;
  }

  lemma Resume(front: seq<Byte>, data: seq<Byte>)
    requires front <= data
    ensures data == front + data[|front|..]
  {
  }

  /** Every byte string is the print of its token list. */
  lemma {:induction false} PrintTokenize(data: seq<Byte>)
    ensures Print(Tokenize(data)) == data
    decreases |data|
  {
    if data != [] {
      FirstFits(data);
      var t := First(data);
      PrintTokenize(data[Size(t)..]);
      PrintCons(t, Tokenize(data[Size(t)..]));
      Resume(PrintOne(t), data);
    }
  }

  /** That list is well-formed. */
  lemma {:induction false} TokenizeWellFormed(data: seq<Byte>)
    ensures WellFormed(Tokenize(data))
    decreases |data|
  {
    if data != [] {
      FirstFits(data);
      var t := First(data);
      TokenizeWellFormed(data[Size(t)..]);
      PrintTokenize(data[Size(t)..]);
      assert Tokenize(data)[1..] == Tokenize(data[Size(t)..]);
    }
  }

  // ----------------------------------------- only one list prints to the data

  /** A token that fits is the first token. */
  lemma {:induction false} FinalIsFirst(ps: seq<Byte>, f: Byte, rest: seq<Byte>)
    requires NoFinal(ps) && IsFinal(f)
    ensures FindFinal(ps + [f] + rest) == Some(|ps|)
  {
    var bytes := ps + [f] + rest;
    if ps != [] {
      assert bytes[1..] == ps[1..] + [f] + rest;
      FinalIsFirst(ps[1..], f, rest);
    }
  }

  lemma {:induction false} NoFinalFound(ps: seq<Byte>)
    requires NoFinal(ps)
    ensures FindFinal(ps).None?
  {
    if ps != [] {
      NoFinalFound(ps[1..]);
    }
  }

  lemma {:induction false} TerminatorIsFirst(p: seq<Byte>, st: bool, rest: seq<Byte>)
    requires Plain(p)
    ensures FindTerminator(p + (if st then [ESC, BACKSLASH] else [BEL]) + rest) == Some(Terminator(|p|, st))
  {
    var end := if st then [ESC, BACKSLASH] else [BEL];
    var bytes := p + end + rest;
    if p != [] {
      assert bytes[1..] == p[1..] + end + rest;
      TerminatorIsFirst(p[1..], st, rest);
    }
  }

  /** The marker cannot begin inside the payload and end inside the marker: only its
      first byte is an ESC. */
  lemma EndIsFirst(p: seq<Byte>, rest: seq<Byte>)
    requires NoEnd(p)
    ensures FindEnd(p + PASTE_END + rest) == Some(|p|)
  {
    var bytes := p + PASTE_END + rest;
    assert EndAt(bytes, |p|);
    assert bytes[|p|] == ESC;
    forall i | i < |p| ensures !EndAt(bytes, i) {
      assert !EndAt(p, i);
    }
    var r := FindEnd(bytes);
  }

  lemma CsiFirst(ps: seq<Byte>, f: Byte, rest: seq<Byte>)
    requires TokenOk(Csi(ps, f), rest)
    ensures First([ESC, BRACKET] + ps + [f] + rest) == Csi(ps, f)
  {
    var data := [ESC, BRACKET] + ps + [f] + rest;
    var body := ps + [f] + rest;
    assert data == [ESC, BRACKET] + body && data[2..] == body;
    FinalIsFirst(ps, f, rest);
    assert body[..|ps|] == ps && body[|ps|] == f;
    if [0x32, 0x30, 0x30, 0x7e] <= body {
      StartIsNoCsi(ps, f, rest);
    }
    PasteNeeds(body);
    assert data[2..2 + |ps|] == body[..|ps|];
  }

  lemma PasteNeeds(body: seq<Byte>)
    ensures StartsPaste([ESC, BRACKET] + body) ==> [0x32, 0x30, 0x30, 0x7e] <= body
  {
    var data := [ESC, BRACKET] + body;
    if StartsPaste(data) {
      assert data[2] == body[0] && data[3] == body[1] && data[4] == body[2] && data[5] == body[3];
    }
  }

  lemma CutCsiFirst(ps: seq<Byte>)
    requires NoFinal(ps)
    ensures First([ESC, BRACKET] + ps) == CutCsi(ps)
  {
    var data := [ESC, BRACKET] + ps;
    assert data[2..] == ps;
    NoFinalFound(ps);
    assert |ps| > 3 ==> data[5] == ps[3];
  }

  lemma MouseFirst(t: Token, rest: seq<Byte>)
    requires (t.Mouse? || t.CutMouse?) && TokenOk(t, rest)
    ensures First(PrintOne(t) + rest) == t
  {
    var data := PrintOne(t) + rest;
    assert data[2] == LETTER_M;
    if t.CutMouse? {
      assert data[3..] == t.coordinates;
    }
  }

  /** Parameters 200 and final ~ are the paste marker, which is no control sequence. */
  lemma StartIsNoCsi(ps: seq<Byte>, f: Byte, rest: seq<Byte>)
    requires NoFinal(ps) && IsFinal(f) && [0x32, 0x30, 0x30, 0x7e] <= ps + [f] + rest
    ensures ps == [0x32, 0x30, 0x30] && f == 0x7e
  {
    var bytes := ps + [f] + rest;
    assert bytes[|ps|] == f;
    assert forall i :: 0 <= i < |ps| ==> bytes[i] == ps[i];
    assert bytes[0] == 0x32 && bytes[1] == 0x30 && bytes[2] == 0x30 && bytes[3] == 0x7e;
    assert |ps| == 3;
  }

  lemma NoPaste(data: seq<Byte>)
    requires data == [] || data[0] != ESC || |data| == 1 || data[1] != BRACKET
    ensures !StartsPaste(data)
  {
    assert PASTE_START[0] == ESC && PASTE_START[1] == BRACKET;
  }

  lemma ReplyToken(i: Byte, p: seq<Byte>, st: bool, body: seq<Byte>)
    requires IsIntroducer(i) && p <= body && FindTerminator(body) == Some(Terminator(|p|, st))
    ensures First([ESC, i] + body) == Reply(i, p, st)
  {
    var data := [ESC, i] + body;
    assert data[0] == ESC && data[1] == i;
    NoPaste(data);
    assert data[2..] == body;
    assert data[2..2 + |p|] == p;
  }

  lemma ReplyFirst(i: Byte, p: seq<Byte>, st: bool, rest: seq<Byte>)
    requires IsIntroducer(i) && Plain(p)
    ensures First(PrintOne(Reply(i, p, st)) + rest) == Reply(i, p, st)
  {
    var end := if st then [ESC, BACKSLASH] else [BEL];
    TerminatorIsFirst(p, st, rest);
    ReplyToken(i, p, st, p + end + rest);
    Assoc([ESC, i] + p, end, rest);
    Assoc([ESC, i], p, end + rest);
    Assoc(p, end, rest);
  }

  lemma ShortFirst(t: Token, rest: seq<Byte>)
    requires t.Text? || t.Ss3? || t.Alt? || t.AltIntroducer? || t.BareEscape? || t.CutSs3?
    requires TokenOk(t, rest)
    ensures First(PrintOne(t) + rest) == t
  {
    var data := PrintOne(t) + rest;
    if t.AltIntroducer? {
      assert data[2..] == rest;
      NoTerminator(rest);
    }
    if t.Text? {
      assert data[0] == t.byte;
    } else if !t.BareEscape? {
      assert data[1] == PrintOne(t)[1];
    }
    NoPaste(data);
  }

  lemma WholePasteFirst(p: seq<Byte>, rest: seq<Byte>)
    requires NoEnd(p)
    ensures First(PASTE_START + (p + PASTE_END + rest)) == Paste(p)
  {
    var payload := p + PASTE_END + rest;
    EndIsFirst(p, rest);
    PasteToken(payload);
    assert payload[..|p|] == p;
  }

  lemma OpenPasteFirst(p: seq<Byte>)
    requires NoEnd(p)
    ensures First(PASTE_START + p) == OpenPaste(p)
  {
    PasteToken(p);
  }

  lemma PasteFirst(t: Token, rest: seq<Byte>)
    requires (t.Paste? || t.OpenPaste?) && TokenOk(t, rest)
    ensures First(PrintOne(t) + rest) == t
  {
    if t.Paste? {
      WholePasteFirst(t.payload, rest);
      Assoc(PASTE_START, t.payload + PASTE_END, rest);
      Assoc(PASTE_START, t.payload, PASTE_END);
    } else {
      OpenPasteFirst(t.payload);
      assert PrintOne(t) + rest == PrintOne(t);
    }
  }

  lemma FirstOfPrint(t: Token, rest: seq<Byte>)
    requires TokenOk(t, rest)
    ensures First(PrintOne(t) + rest) == t
  {
    if t.Csi? {
      CsiFirst(t.parameters, t.final, rest);
    } else if t.CutCsi? {
      CutCsiFirst(t.parameters);
      assert PrintOne(t) + rest == PrintOne(t);
    } else if t.Mouse? || t.CutMouse? {
      MouseFirst(t, rest);
    } else if t.Reply? {
      ReplyFirst(t.introducer, t.payload, t.st, rest);
    } else if t.Paste? || t.OpenPaste? {
      PasteFirst(t, rest);
    } else {
      ShortFirst(t, rest);
    }
  }

  /** A well-formed token list is recovered from its print: the grammar is
      unambiguous. */
  lemma {:induction false} TokenizePrint(ts: seq<Token>)
    requires WellFormed(ts)
    ensures Tokenize(Print(ts)) == ts
  {
    if ts != [] {
      var t, rest := ts[0], Print(ts[1..]);
      FirstOfPrint(t, rest);
      TokenizePrint(ts[1..]);
      assert Print(ts)[Size(t)..] == rest;
      assert ts == [t] + ts[1..];
    }
  }

  lemma WeightWithinSize(t: Token)
    ensures Weight(t) <= Size(t)
  {
  }

  lemma {:induction false} WeightsWithinSize(ts: seq<Token>)
    ensures Weights(ts) <= |Print(ts)|
  {
    if ts != [] {
      WeightWithinSize(ts[0]);
      WeightsWithinSize(ts[1..]);
    }
  }

  /** Terminal replies, mouse reports and Alt chords. */
  predicate IsChatter(t: Token) {
    t.Reply? || t.Mouse? || t.Alt?
  }

  /** The list without them. */
  function Quieted(ts: seq<Token>): seq<Token> {
    if ts == [] then []
    else if IsChatter(ts[0]) then Quieted(ts[1..])
    else [ts[0]] + Quieted(ts[1..])
  }

  lemma {:induction false} ChatterWeighsNothing(ts: seq<Token>)
    ensures Weights(ts) == Weights(Quieted(ts))
  {
    if ts != [] {
      ChatterWeighsNothing(ts[1..]);
      if !IsChatter(ts[0]) {
        assert Quieted(ts)[1..] == Quieted(ts[1..]);
      }
    }
  }

  lemma {:induction false} OnlyChatter(ts: seq<Token>)
    requires forall i :: 0 <= i < |ts| ==> IsChatter(ts[i])
    ensures Quieted(ts) == []
  {
    if ts != [] {
      OnlyChatter(ts[1..]);
    }
  }

  /** What is counted of a well-formed list's bytes is what its other tokens weigh,
      wherever replies, mouse reports and Alt chords fall among them: a burst of nothing
      else counts nothing. */
  lemma RepliesWeighNothing(ts: seq<Token>)
    requires WellFormed(ts)
    ensures Weights(Tokenize(Print(ts))) == Weights(Quieted(ts))
    ensures (forall i :: 0 <= i < |ts| ==> IsChatter(ts[i])) ==> Weights(Tokenize(Print(ts))) == 0
  {
    TokenizePrint(ts);
    ChatterWeighsNothing(ts);
    if forall i :: 0 <= i < |ts| ==> IsChatter(ts[i]) {
      OnlyChatter(ts);
    }
  }

  // ---------------------------------------------------------------- the code

  /** How far a terminated control string starting the data extends. */
  method StringEscapeLen(data: seq<Byte>) returns (len: Option<nat>)
    requires |data| >= 2
    ensures len.None? <==> FindTerminator(data[2..]).None?
    ensures len.Some? ==> var t := FindTerminator(data[2..]).value; len.value == 2 + t.at + if t.st then 2 else 1
  {
    var index := 2;
    while index < |data|
      invariant 2 <= index <= |data|
      invariant FindTerminator(data[index..]).None? <==> FindTerminator(data[2..]).None?
      invariant FindTerminator(data[index..]).Some? ==>
                  var a, b := FindTerminator(data[2..]).value, FindTerminator(data[index..]).value;
                  a.at == b.at + index - 2 && a.st == b.st
    {
      if data[index] == BEL {
        return Some(index + 1);
      }
      if data[index] == ESC {
        return if index + 1 < |data| && data[index + 1] == BACKSLASH then Some(index + 2) else None;
      }
      assert data[index..][1..] == data[index + 1..];
      index := index + 1;
    }
    len := None;
  }

  /** How many bytes the escape takes, and whether it can create content. */
  method EscapeSequence(data: seq<Byte>) returns (consumed: nat, capable: bool)
    requires data != []
    ensures consumed == Size(EscapeToken(data))
    ensures Weight(EscapeToken(data)) == if capable then consumed else 0
  {
    if |data| == 1 {
      return 1, false;
    }
    if data[1] == BRACKET {
      var f := FindFinal(data[2..]);
      if f.None? {
        return |data|, false;
      }
      if f.value == 0 && data[2] == LETTER_M {
        return if |data| < 6 then |data| else 6, false;
      }
      return f.value + 3, RecallsLine(data[2 + f.value]);
    }
    if data[1] == LETTER_O {
      if |data| >= 3 {
        return 3, RecallsLine(data[2]);
      }
      return |data|, false;
    }
    if IsIntroducer(data[1]) {
      var len := StringEscapeLen(data);
      return if len.Some? then len.value else 2, false;
    }
    return 2, false;
  }

  /** One step of the count: how far it advances and what it adds. */
  method CountOne(rest: seq<Byte>) returns (advance: nat, adds: nat)
    requires rest != []
    ensures advance == Size(First(rest)) <= |rest| && adds == Weight(First(rest))
  {
    FirstFits(rest);
    if StartsPaste(rest) {
      var payload := rest[6..];
      var end := FindEnd(payload);
      adds := if end.Some? then end.value else |payload|;
      advance := if 6 + adds + 6 < |rest| then 6 + adds + 6 else |rest|;
    } else if rest[0] == ESC {
      var capable;
      advance, capable := EscapeSequence(rest);
      adds := if capable then advance else 0;
    } else {
      advance, adds := 1, if IsInertControl(rest[0]) then 0 else 1;
    }
  }

  /** The count is the weight of the data's one token list, and so at most its
      length. */
  method DraftContentByteCount(data: seq<Byte>) returns (content: nat)
    ensures content == Weights(Tokenize(data)) <= |data|
    ensures forall ts :: WellFormed(ts) && Print(ts) == data ==> content == Weights(ts)
  {
    var index := 0;
    content := 0;
    while index < |data|
      invariant 0 <= index <= |data|
      invariant content + Weights(Tokenize(data[index..])) == Weights(Tokenize(data))
    {
      var advance, adds := CountOne(data[index..]);
      TokenizeStep(data[index..]);
      assert data[index..][advance..] == data[index + advance..];
      content := content + adds;
      index := index + advance;
    }
    PrintTokenize(data);
    WeightsWithinSize(Tokenize(data));
    forall ts | WellFormed(ts) && Print(ts) == data ensures content == Weights(ts) {
      TokenizePrint(ts);
    }
  }

  lemma TokenizeStep(data: seq<Byte>)
    requires data != []
    ensures Size(First(data)) <= |data|
    ensures Weights(Tokenize(data)) == Weight(First(data)) + Weights(Tokenize(data[Size(First(data))..]))
  {
    FirstFits(data);
    assert Tokenize(data)[1..] == Tokenize(data[Size(First(data))..]);
  }
}
