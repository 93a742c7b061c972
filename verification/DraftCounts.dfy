/**
 What the draft counter counts, said from the bytes, and how a delivered message reads
 back under the same grammar.
 */
module DraftCounts {
  import opened Common
  import opened DraftBytes
  import PtyWriter

  /** What is counted of the data. */
  function Count(data: seq<Byte>): nat {
    Weights(Tokenize(data))
  }

  /** A token that may stand before the rest is counted by itself. */
  lemma CountCons(t: Token, rest: seq<Byte>)
    requires TokenOk(t, rest)
    ensures Count(PrintOne(t) + rest) == Weight(t) + Count(rest)
  {
    var data := PrintOne(t) + rest;
    FirstOfPrint(t, rest);
    TokenizeStep(data);
    assert data[Size(t)..] == rest;
  }

  /** A byte outside an escape counts, unless it is one of the controls that cannot put a
      character at the composer: every printable one, tab and both newlines do. */
  lemma TextCounts(b: Byte, rest: seq<Byte>)
    requires b != ESC
    ensures Count([b] + rest) == Count(rest) + if IsInertControl(b) then 0 else 1
    ensures (b >= 0x20 && b != DEL) || b == 0x09 || b == 0x0a || b == 0x0d ==> Count([b] + rest) == Count(rest) + 1
    ensures b == DEL || b == 0x08 || b == 0x15 || b == 0x17 ==> Count([b] + rest) == Count(rest)
  {
    CountCons(Text(b), rest);
  }

  /** How many bytes of text count. */
  function Typed(data: seq<Byte>): nat {
    if data == [] then 0 else (if IsInertControl(data[0]) then 0 else 1) + Typed(data[1..])
  }

  /** The text of every keystroke. */
  function Keys(data: seq<Byte>): seq<Token> {
    if data == [] then [] else [Text(data[0])] + Keys(data[1..])
  }

  lemma {:induction false} KeysRead(data: seq<Byte>)
    requires ESC !in data
    ensures Tokenize(data) == Keys(data)
  {
    if data != [] {
      KeysRead(data[1..]);
      FirstOfPrint(Text(data[0]), data[1..]);
      assert PrintOne(Text(data[0])) + data[1..] == data;
    }
  }

  lemma {:induction false} KeysWeigh(data: seq<Byte>)
    ensures Weights(Keys(data)) == Typed(data)
  {
    if data != [] {
      KeysWeigh(data[1..]);
      assert Keys(data)[1..] == Keys(data[1..]);
    }
  }

  /** Bytes with no escape among them count one by one. */
  lemma PlainTextCounts(data: seq<Byte>)
    requires ESC !in data
    ensures Count(data) == Typed(data)
  {
    KeysRead(data);
    KeysWeigh(data);
  }

  /** A pasted text counts in full, whatever its bytes are, up to the first end marker;
      what follows the marker is read as if nothing had come before. */
  lemma PasteCounts(payload: seq<Byte>, rest: seq<Byte>)
    requires NoEnd(payload)
    ensures Count(PASTE_START + payload + PASTE_END + rest) == |payload| + Count(rest)
    ensures Count(PASTE_START + payload) == |payload|
  {
    CountCons(Paste(payload), rest);
    CountCons(OpenPaste(payload), []);
    assert PASTE_START + payload + [] == PASTE_START + payload;
  }

  /** A control sequence counts in full if it ends in A or B, cursor up and down, and not
      at all otherwise; mouse reports and paste markers have the same introducer. */
  lemma ControlSequenceCounts(parameters: seq<Byte>, final: Byte, rest: seq<Byte>)
    requires NoFinal(parameters) && 0x40 <= final <= 0x7e
    requires !(parameters == [] && final == 0x4d) && !(parameters == [0x32, 0x30, 0x30] && final == 0x7e)
    ensures Count([ESC, BRACKET] + parameters + [final] + rest) ==
            Count(rest) + if final == 0x41 || final == 0x42 then |parameters| + 3 else 0
  {
    CountCons(Csi(parameters, final), rest);
  }

  lemma ApplicationKeyCounts(final: Byte, rest: seq<Byte>)
    ensures Count([ESC, LETTER_O, final] + rest) == Count(rest) + if final == 0x41 || final == 0x42 then 3 else 0
  {
    CountCons(Ss3(final), rest);
  }

  /** The token puts nothing at a composer. */
  predicate Silent(t: Token) {
    match t
    case Text(b) => b <= 0x08 || b == 0x0b || b == 0x0c || b == 0x15 || b == 0x17 || b == 0x1a || 0x1c <= b <= 0x1f || b == 0x7f
    case Csi(_, f) => f != 0x41 && f != 0x42
    case Ss3(f) => f != 0x41 && f != 0x42
    case Paste(p) => p == []
    case OpenPaste(p) => p == []
    case _ => true
  }

  lemma {:induction false} WeightlessIff(ts: seq<Token>)
    ensures Weights(ts) == 0 <==> forall i :: 0 <= i < |ts| ==> Silent(ts[i])
  {
    if ts != [] {
      WeightlessIff(ts[1..]);
      assert Weight(ts[0]) == 0 <==> Silent(ts[0]);
      if forall i :: 0 <= i < |ts| ==> Silent(ts[i]) {
        assert forall i :: 0 <= i < |ts[1..]| ==> ts[1..][i] == ts[i + 1];
      } else if Weight(ts[0]) == 0 {
        var i :| 0 <= i < |ts| && !Silent(ts[i]);
        assert ts[1..][i - 1] == ts[i];
      }
    }
  }

  /** A write declares nothing if and only if every token of its one reading is inert: no
      other text, no recall key, and no paste but an empty one. */
  lemma DeclaresNothingIff(ts: seq<Token>)
    requires WellFormed(ts)
    ensures Count(Print(ts)) == 0 <==> forall i :: 0 <= i < |ts| ==> Silent(ts[i])
  {
    TokenizePrint(ts);
    WeightlessIff(ts);
  }

  // ------------------------------------------------------- delivered messages

  const ENTER: Token := Text(0x0d)

  lemma EnterAlone()
    ensures Tokenize([0x0d]) == [ENTER]
  {
    assert [0x0d] == PrintOne(ENTER) + [];
    FirstOfPrint(ENTER, []);
    assert [0x0d][1..] == [];
  }

  lemma OnePasteReads(data: seq<Byte>)
    requires NoEnd(data)
    ensures Tokenize(PASTE_START + data + PASTE_END + [0x0d]) == [Paste(data), ENTER]
  {
    var bytes := PASTE_START + data + PASTE_END + [0x0d];
    FirstOfPrint(Paste(data), [0x0d]);
    FirstFits(bytes);
    assert bytes[Size(Paste(data))..] == [0x0d];
    EnterAlone();
  }

  lemma CutPasteReads(data: seq<Byte>)
    requires !NoEnd(data)
    ensures Tokenize(PASTE_START + data + PASTE_END + [0x0d]) != [Paste(data), ENTER]
  {
    var payload := data + PASTE_END + [0x0d];
    var i :| EndAt(data, i);
    assert EndAt(payload, i);
    assert PASTE_START + data + PASTE_END + [0x0d] == PASTE_START + payload;
    PasteToken(payload);
    assert FindEnd(payload).value < |data|;
    assert Tokenize(PASTE_START + payload)[0] == First(PASTE_START + payload);
  }

  /** A message that is long or has several lines, delivered to a terminal that supports
      it, reads back as one paste of exactly the message and one Enter, if and only if it
      does not contain the end marker itself. */
  lemma MessageIsOnePasteIff(data: seq<Byte>)
    requires |data| >= 256 || 0x0d in data || 0x0a in data
    ensures Tokenize(PtyWriter.LogicalBytes(data, true)) == [Paste(data), ENTER] <==> NoEnd(data)
  {
    if NoEnd(data) {
      OnePasteReads(data);
    } else {
      CutPasteReads(data);
    }
  }

  /** Any other message without escapes reads back as its own keystrokes and one Enter. */
  lemma MessageIsTyped(data: seq<Byte>, bracketedPaste: bool)
    requires ESC !in data && (!bracketedPaste || (|data| < 256 && 0x0d !in data && 0x0a !in data))
    ensures Tokenize(PtyWriter.LogicalBytes(data, bracketedPaste)) == Keys(data + [0x0d])
  {
    KeysRead(data + [0x0d]);
  }
}
