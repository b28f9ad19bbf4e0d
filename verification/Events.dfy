/**
 The event layer of the console: elements become events, and text is translated to the upper
 half of the character set while shifted. Translation happens when text is flushed, often long
 after its bytes were fed; the main result is that this is never visible.
 */
module Events {
  import opened Common
  import opened ControlStream

  const SHIFT_IN: byte := 0x0E
  const SHIFT_OUT: byte := 0x0F
  const LINEFEED: byte := 0x0A
  const NEXT_LINE: byte := 0x85
  const H_TAB_SET: byte := 0x88
  const VALID_CONTROLS: seq<byte> := [0x07, 0x08, 0x09, 0x0A, 0x0B, 0x0C, 0x0D, 0x0E, 0x0F, 0x1B, 0x84, 0x85, 0x88, 0x8D, 0x9B]

  datatype Event =
    | TextEvent(txt: seq<byte>)
    | CtlCharEvent(code: byte)
    | ModeEvent(mode: int)
    | TabSetEvent
    | CharAttrEvent(attr: Option<int>, fg: Option<int>, cg: Option<int>, bg: Option<int>)

  // ----- one element -----

  function ShiftByte(shifted: bool, b: byte): byte {
    if shifted && b < 0x80 then b + 0x80 else b
  }

  function ShiftAll(shifted: bool, txt: seq<byte>): seq<byte> {
    seq(|txt|, i requires 0 <= i < |txt| => ShiftByte(shifted, txt[i]))
  }

  function ControlShifts(shifted: bool, c: byte): bool {
    if c == SHIFT_IN then true else if c == SHIFT_OUT then false else shifted
  }

  function ControlEvents(c: byte): seq<Event> {
    if c == SHIFT_IN || c == SHIFT_OUT then []
    else if c == NEXT_LINE then [CtlCharEvent(LINEFEED)]
    else if c == H_TAB_SET then [TabSetEvent]
    else if c in VALID_CONTROLS then [CtlCharEvent(c)]
    else []
  }

  /** The last parameter of a range wins; what it is counted from is the start of the range. */
  function LastOf(params: seq<Option<int>>, pick: int -> Option<int>): Option<int> {
    if params == [] then None
    else
      var p := params[|params| - 1];
      if p.Some? && pick(p.value).Some? then pick(p.value) else LastOf(params[..|params| - 1], pick)
  }

  function PickAttr(p: int): Option<int> { if p < 30 then Some(p) else None }

  function PickFore(p: int): Option<int> { if 30 <= p < 40 then Some(p - 30) else None }

  function PickCell(p: int): Option<int> { if 40 <= p < 50 then Some(p - 40) else None }

  /** A background of zero reads as none given. */
  function BackColor(special: Option<int>): Option<int> {
    if special == Some(0) then None else special
  }

  function SeqEvents(key: byte, params: seq<Option<int>>, special: Option<int>): seq<Event> {
    if key == 0x56 then   // V, the custom mode command
      [ModeEvent(if |params| > 0 && params[0].Some? then params[0].value else 0)]
    else if key == 0x6D then   // m, character attributes
      [CharAttrEvent(LastOf(params, PickAttr), LastOf(params, PickFore), LastOf(params, PickCell), BackColor(special))]
    else []
  }

  function ElementEvents(shifted: bool, e: Element): (bool, seq<Event>) {
    match e
    case Text(txt) => (shifted, [TextEvent(ShiftAll(shifted, txt))])
    case ControlChar(c) => (ControlShifts(shifted, c), ControlEvents(c))
    case ControlSeq(key, params, special) => (shifted, SeqEvents(key, params, special))
  }

  function AllEvents(shifted: bool, es: seq<Element>): (bool, seq<Event>) { Run(ElementEvents, shifted, es) }

  // ----- the event stream -----

  datatype EventState = EventState(stream: Stream, shifted: bool)

  const FreshEvents: EventState := EventState(Fresh, false)

  /** One call: the whole chunk is parsed first, then its elements are turned into events. */
  function FeedChunk(s: EventState, data: seq<byte>): (EventState, seq<Event>) {
    var (st, es) := FeedAll(s.stream, data);
    var (sh, evs) := AllEvents(s.shifted, es);
    (EventState(st, sh), evs)
  }

  /** The parser never leaves a parameter out, so reading the attributes cannot fail. */
  predicate Present(es: seq<Element>) {
    forall i, k :: 0 <= i < |es| && es[i].ControlSeq? && 0 <= k < |es[i].params| ==> es[i].params[k].Some?
  }

  predicate StreamPresent(s: Stream) {
    s.mode.InSeq? ==> forall k :: 0 <= k < |s.mode.parser.params| ==> s.mode.parser.params[k].Some?
  }

  lemma {:induction false} FeedAllPresent(s: Stream, data: seq<byte>)
    requires StreamPresent(s)
    ensures StreamPresent(FeedAll(s, data).0) && Present(FeedAll(s, data).1)
  {
    if data != [] {
      var n := |data| - 1;
      FeedAllPresent(s, data[..n]);
      FeedPresent(FeedAll(s, data[..n]).0, data[n]);
    }
  }

  lemma FeedPresent(s: Stream, b: byte)
    requires StreamPresent(s)
    ensures StreamPresent(StreamFeed(s, b).0) && Present(StreamFeed(s, b).1)
  {
  }

  class ConsoleEventStream {
    const stream: ConsoleStream
    var shifted: bool

    ghost predicate Valid()
      reads this, stream, stream.seqParser
    {
      stream.Valid() && StreamPresent(stream.View())
    }

    ghost function View(): EventState
      reads this, stream, stream.seqParser
      requires Valid()
    {
      EventState(stream.View(), shifted)
    }

    constructor ()
      ensures Valid() && View() == FreshEvents
    {
      stream := new ConsoleStream();
      shifted := false;
    }

    method FeedBytes(data: seq<byte>) returns (result: seq<Event>)
      requires Valid()
      modifies this, stream, stream.seqParser
      ensures Valid()
      ensures (View(), result) == FeedChunk(old(View()), data)
    {
      FeedAllPresent(stream.View(), data);
      var es := stream.FeedBytes(data);
      result := [];
      ghost var sh0 := shifted;
      for i := 0 to |es|
        invariant Valid() && stream.View() == old(FeedAll(stream.View(), data).0)
        invariant (shifted, result) == AllEvents(sh0, es[..i])
      {
        assert es[..i + 1][..i] == es[..i];
        var evs := HandleElement(es[i]);
        result := result + evs;
      }
      assert es[..|es|] == es;
    }

    /** Text is translated in the shift mode of this moment. */
    method HandleElement(e: Element) returns (evs: seq<Event>)
      requires e.ControlSeq? ==> forall k :: 0 <= k < |e.params| ==> e.params[k].Some?
      modifies this`shifted
      ensures (shifted, evs) == ElementEvents(old(shifted), e)
    {
      evs := [];
      match e
      case Text(txt) =>
        if shifted {
          var moved := ShiftText(txt);
          evs := [TextEvent(moved)];
        } else {
          assert ShiftAll(false, txt) == txt;
          evs := [TextEvent(txt)];
        }
      case ControlChar(c) =>
        if c == SHIFT_IN {
          shifted := true;
        } else if c == SHIFT_OUT {
          shifted := false;
        } else {
          evs := ControlEvents(c);
        }
      case ControlSeq(key, params, special) =>
        evs := HandleControlSeq(key, params, special);
    }
  }

  method ShiftText(txt: seq<byte>) returns (b: seq<byte>)
    ensures b == ShiftAll(true, txt)
  {
    b := [];
    for i := 0 to |txt|
      invariant b == ShiftAll(true, txt[..i])
    {
      if txt[i] < 0x80 {
        b := b + [txt[i] + 0x80];
      } else {
        b := b + [txt[i]];
      }
    }
    assert txt[..|txt|] == txt;
  }

  method HandleControlSeq(key: byte, params: seq<Option<int>>, special: Option<int>) returns (evs: seq<Event>)
    requires forall k :: 0 <= k < |params| ==> params[k].Some?
    ensures evs == SeqEvents(key, params, special)
  {
    if key == 0x56 {
      var mode := 0;
      if |params| > 0 {
        mode := params[0].value;
      }
      evs := [ModeEvent(mode)];
    } else if key == 0x6D {
      var back := if special.Some? && special.value != 0 then special else None;
      var e := HandleCharAttr(params, back);
      evs := [e];
    } else {
      evs := [];
    }
  }

  method HandleCharAttr(params: seq<Option<int>>, back: Option<int>) returns (e: Event)
    requires forall k :: 0 <= k < |params| ==> params[k].Some?
    ensures e == CharAttrEvent(LastOf(params, PickAttr), LastOf(params, PickFore), LastOf(params, PickCell), back)
  {
    var attr, fore, cell := None, None, None;
    for i := 0 to |params|
      invariant attr == LastOf(params[..i], PickAttr)
      invariant fore == LastOf(params[..i], PickFore)
      invariant cell == LastOf(params[..i], PickCell)
    {
      assert params[..i + 1][..i] == params[..i];
      var p := params[i].value;
      if p < 30 {
        attr := Some(p);
      } else if p < 40 {
        fore := Some(p - 30);
      } else if p < 50 {
        cell := Some(p - 40);
      }
    }
    assert params[..|params|] == params;
    e := CharAttrEvent(attr, fore, cell, back);
  }

  // ----- translating every byte at the moment it is fed -----

  /** Pending text and the bytes of an open sequence are kept already translated. */
  datatype Eager = Eager(mode: Mode, shifted: bool, text: seq<byte>, raw: seq<byte>)

  const FreshEager: Eager := Eager(Ground, false, [], [])

  function TextEvents(text: seq<byte>): seq<Event> {
    if |text| > 0 then [TextEvent(text)] else []
  }

  function EagerByte(e: Eager, b: byte): (Eager, seq<Event>) {
    if IsControl(b)
    then (Eager(Ground, ControlShifts(e.shifted, b), [], []), TextEvents(e.text) + ControlEvents(b))
    else (Eager(Ground, e.shifted, e.text + [ShiftByte(e.shifted, b)], []), [])
  }

  function EagerFeed(e: Eager, b: byte): (Eager, seq<Event>) {
    match e.mode
    case Ground =>
      if b == ESC then (e.(mode := Escape), [])
      else if b == CSI then (Eager(InSeq(NewParser(true)), e.shifted, [], []), TextEvents(e.text))
      else EagerByte(e, b)
    case Escape =>
      if b == BRACKET
      then (Eager(InSeq(NewParser(false)), e.shifted, [], [ShiftByte(e.shifted, b)]), TextEvents(e.text))
      else if 0x40 <= b < 0x60 then (e.(mode := Ground), ControlEvents(b + 0x40))
      else if IsControl(b) then EagerByte(e, b)
      else (EagerByte(e, b).0, ControlEvents(ESC))
    case InSeq(p) =>
      var raw := e.raw + [ShiftByte(e.shifted, b)];
      match ParserFeed(p, b)
      case More(q) => (e.(mode := InSeq(q), raw := raw), [])
      case Done(elems) =>
        (e.(mode := Ground, raw := []),
         if IsTerminator(b) then SeqEvents(b, elems[0].params, elems[0].special)
         else ControlEvents(if p.withCsi then CSI else ESC) + [TextEvent(raw)])
  }

  function EagerAll(e: Eager, data: seq<byte>): (Eager, seq<Event>) { Run(EagerFeed, e, data) }

  predicate Agrees(s: EventState, e: Eager) {
    && e.mode == s.stream.mode && e.shifted == s.shifted
    && e.text == ShiftAll(s.shifted, s.stream.text)
    && (e.mode.InSeq? ==>
          var p := e.mode.parser;
          e.raw == ShiftAll(s.shifted, (if p.withCsi then [] else [BRACKET]) + p.raw))
    && (!e.mode.InSeq? ==> e.raw == [])
  }

  lemma AllEventsOne(shifted: bool, e: Element)
    ensures AllEvents(shifted, [e]) == ElementEvents(shifted, e)
  {
    RunOne(ElementEvents, shifted, e);
  }

  lemma AllEventsConcat(shifted: bool, a: seq<Element>, b: seq<Element>)
    ensures AllEvents(shifted, a + b) ==
              (AllEvents(AllEvents(shifted, a).0, b).0,
               AllEvents(shifted, a).1 + AllEvents(AllEvents(shifted, a).0, b).1)
  {
    RunSplits(ElementEvents, shifted, a, b);
  }

  lemma FlushEvents(shifted: bool, text: seq<byte>)
    ensures AllEvents(shifted, FlushText(text)) == (shifted, TextEvents(ShiftAll(shifted, text)))
  {
    if |text| > 0 {
      AllEventsOne(shifted, Text(text));
    }
  }

  lemma ShiftAllSnoc(shifted: bool, text: seq<byte>, b: byte)
    ensures ShiftAll(shifted, text + [b]) == ShiftAll(shifted, text) + [ShiftByte(shifted, b)]
  {
  }

  lemma ByteAgrees(s: EventState, e: Eager, b: byte)
    requires Agrees(s, e) && !s.stream.mode.InSeq?
    ensures var (st, es) := AddByte(s.stream.text, b);
            var (sh, evs) := AllEvents(s.shifted, es);
            Agrees(EventState(st, sh), EagerByte(e, b).0) && evs == EagerByte(e, b).1
  {
    ShiftAllSnoc(s.shifted, s.stream.text, b);
    if IsControl(b) {
      FlushEvents(s.shifted, s.stream.text);
      AllEventsConcat(s.shifted, FlushText(s.stream.text), [ControlChar(b)]);
      AllEventsOne(s.shifted, ControlChar(b));
    }
  }

  /** One byte: parsing it and translating what comes out agrees with translating it on arrival. */
  lemma StepAgrees(s: EventState, e: Eager, b: byte)
    requires Agrees(s, e)
    ensures var (st, es) := StreamFeed(s.stream, b);
            var (sh, evs) := AllEvents(s.shifted, es);
            Agrees(EventState(st, sh), EagerFeed(e, b).0) && evs == EagerFeed(e, b).1
  {
    FlushEvents(s.shifted, s.stream.text);
    match s.stream.mode
    case Ground =>
      if b != ESC && b != CSI {
        ByteAgrees(s, e, b);
      }
    case Escape =>
      if 0x40 <= b < 0x60 {
        AllEventsOne(s.shifted, ControlChar(b + 0x40));
        assert ShiftAll(s.shifted, [BRACKET]) == [ShiftByte(s.shifted, BRACKET)];
        assert [BRACKET] + [] == [BRACKET];
      } else {
        ByteAgrees(s, e, b);
        AllEventsOne(s.shifted, ControlChar(ESC));
      }
    case InSeq(p) => SequenceAgrees(s, e, p, b);
  }

  lemma SequenceAgrees(s: EventState, e: Eager, p: Parser, b: byte)
    requires Agrees(s, e) && s.stream.mode == InSeq(p)
    ensures var (st, es) := StreamFeed(s.stream, b);
            var (sh, evs) := AllEvents(s.shifted, es);
            Agrees(EventState(st, sh), EagerFeed(e, b).0) && evs == EagerFeed(e, b).1
  {
    var lead: seq<byte> := if p.withCsi then [] else [BRACKET];
    ShiftAllSnoc(s.shifted, lead + p.raw, b);
    Assoc(lead, p.raw, [b]);
    match ParserFeed(p, b)
    case More(q) =>
    case Done(elems) =>
      if IsTerminator(b) {
        AllEventsOne(s.shifted, elems[0]);
      } else {
        AbortEvents(s.shifted, p.(raw := p.raw + [b]));
      }
  }

  /** An aborted sequence is a control character and text. */
  lemma AbortEvents(shifted: bool, p: Parser)
    ensures var lead: seq<byte> := if p.withCsi then [] else [BRACKET];
            AllEvents(shifted, Abort(p)) ==
              (shifted, ControlEvents(if p.withCsi then CSI else ESC) + [TextEvent(ShiftAll(shifted, lead + p.raw))])
  {
    var elems := Abort(p);
    var lead: seq<byte> := if p.withCsi then [] else [BRACKET];
    assert elems == [elems[0]] + [elems[1]];
    assert [] + p.raw == p.raw;
    AllEventsConcat(shifted, [elems[0]], [elems[1]]);
    AllEventsOne(shifted, elems[0]);
    AllEventsOne(shifted, elems[1]);
    assert elems[1] == Text(lead + p.raw);
  }

  lemma {:induction false} ChunkAgrees(s: EventState, e: Eager, data: seq<byte>)
    requires Agrees(s, e)
    ensures Agrees(FeedChunk(s, data).0, EagerAll(e, data).0) && FeedChunk(s, data).1 == EagerAll(e, data).1
  {
    if data != [] {
      var n := |data| - 1;
      ChunkAgrees(s, e, data[..n]);
      var (st, es) := FeedAll(s.stream, data[..n]);
      AllEventsConcat(s.shifted, es, StreamFeed(st, data[n]).1);
      StepAgrees(FeedChunk(s, data[..n]).0, EagerAll(e, data[..n]).0, data[n]);
    }
  }

  function FeedChunks(s: EventState, chunks: seq<seq<byte>>): (EventState, seq<Event>) {
    if chunks == [] then (s, [])
    else
      var n := |chunks| - 1;
      var (s1, ev1) := FeedChunks(s, chunks[..n]);
      var (s2, ev2) := FeedChunk(s1, chunks[n]);
      (s2, ev1 + ev2)
  }

  /**
   Lazy shift equals eager shift: however the input is cut into calls, the events are those of translating
   each text byte with the shift mode in force when it was fed. So the cutting does not matter either.
   */
  lemma {:induction false} LazyShiftIsEager(chunks: seq<seq<byte>>)
    ensures FeedChunks(FreshEvents, chunks).1 == EagerAll(FreshEager, Flatten(chunks)).1
    ensures Agrees(FeedChunks(FreshEvents, chunks).0, EagerAll(FreshEager, Flatten(chunks)).0)
  {
    if chunks != [] {
      var n := |chunks| - 1;
      LazyShiftIsEager(chunks[..n]);
      ChunkAgrees(FeedChunks(FreshEvents, chunks[..n]).0, EagerAll(FreshEager, Flatten(chunks[..n])).0, chunks[n]);
      RunSplits(EagerFeed, FreshEager, Flatten(chunks[..n]), chunks[n]);
    }
  }
}
