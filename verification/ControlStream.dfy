/**
 The console control-sequence codec: a parser fed one byte at a time and its printer.

 Every class below is specified by a function on a plain value of the same fields; the
 properties of those functions are proved in the modules that import this one.
 */
module ControlStream {
  import opened Common
  import opened Decimal

  const ESC: byte := 0x1B
  const CSI: byte := 0x9B
  const BRACKET: byte := 0x5B
  const SEMICOLON: byte := 0x3B
  const SPACE: byte := 0x20
  const PLUS: byte := 0x2B
  const MINUS: byte := 0x2D
  const GREATER: byte := 0x3E

  /** A parameter that is `None` was left out by whoever built the sequence; the parser never produces one. */
  datatype Element =
    | Text(txt: seq<byte>)
    | ControlChar(code: byte)
    | ControlSeq(key: byte, params: seq<Option<int>>, special: Option<int>)

  predicate IsTerminator(b: byte) { 0x40 <= b <= 0x7F }

  predicate IsDigit(b: byte) { 0x30 <= b <= 0x39 }

  predicate IsControl(b: byte) { b < 32 || 0x80 < b < 0x9F }

  // ----- the sequence parser -----

  datatype Parser = Parser(
    withCsi: bool,
    raw: seq<byte>,
    params: seq<Option<int>>,
    inNumber: bool,
    sign: int,
    cur: int,
    special: Option<int>,
    isSpecial: bool)

  function NewParser(withCsi: bool): Parser {
    Parser(withCsi, [], [], false, 1, 0, None, false)
  }

  datatype ParserResult = More(next: Parser) | Done(elems: seq<Element>)

  function EndParam(p: Parser): Parser {
    var num := p.cur * p.sign;
    var q := if p.isSpecial then p.(special := Some(num)) else p.(params := p.params + [Some(num)]);
    q.(inNumber := false, cur := 0, sign := 1, isSpecial := false)
  }

  function Abort(p: Parser): seq<Element> {
    if p.withCsi then [ControlChar(CSI), Text(p.raw)] else [ControlChar(ESC), Text([BRACKET] + p.raw)]
  }

  function ParserFeed(p: Parser, b: byte): ParserResult {
    if IsTerminator(b) then
      var q := if p.inNumber then EndParam(p) else p;
      Done([ControlSeq(b, q.params, q.special)])
    else
      var q := p.(raw := p.raw + [b]);
      if !q.inNumber then
        if b == MINUS then More(q.(sign := -1, inNumber := true))
        else if b == PLUS then More(q.(sign := 1, inNumber := true))
        else if IsDigit(b) then More(q.(cur := b - 0x30, inNumber := true))
        else if b == SPACE then More(q)
        else if b == SEMICOLON then More(EndParam(q))
        else if b == GREATER then More(q.(isSpecial := true))
        else Done(Abort(q))
      else
        if IsDigit(b) then More(q.(cur := q.cur * 10 + b - 0x30))
        else if b == SPACE then More(q)
        else if b == SEMICOLON then More(EndParam(q))
        else Done(Abort(q))
  }

  class SeqParser {
    var withCsi: bool
    var rawBytes: seq<byte>
    var params: seq<Option<int>>
    var inNumber: bool
    var paramSign: int
    var curNum: int
    var special: Option<int>
    var isSpecial: bool

    ghost function View(): Parser
      reads this
    {
      Parser(withCsi, rawBytes, params, inNumber, paramSign, curNum, special, isSpecial)
    }

    constructor (withCsi: bool)
      ensures View() == NewParser(withCsi)
    {
      this.withCsi := withCsi;
      rawBytes, params, inNumber := [], [], false;
      paramSign, curNum := 1, 0;
      special, isSpecial := None, false;
    }

    method Feed(b: byte) returns (res: Option<seq<Element>>)
      modifies this
      ensures match ParserFeed(old(View()), b)
        case More(next) => res == None && View() == next
        case Done(elems) => res == Some(elems)
    {
      if 0x40 <= b <= 0x7F {
        if inNumber {
          FinishParam();
        }
        return Some([ControlSeq(b, params, special)]);
      }
      // kept in case the sequence gets aborted
      rawBytes := rawBytes + [b];
      if !inNumber {
        if b == MINUS {
          paramSign := -1;
          inNumber := true;
        } else if b == PLUS {
          paramSign := 1;
          inNumber := true;
        } else if 0x30 <= b <= 0x39 {
          curNum := b - 0x30;
          inNumber := true;
        } else if b == SPACE {
        } else if b == SEMICOLON {
          FinishParam();
        } else if b == GREATER {
          isSpecial := true;
        } else {
          var elems := AbortSequence();
          return Some(elems);
        }
      } else {
        if 0x30 <= b <= 0x39 {
          curNum := curNum * 10 + b - 0x30;
        } else if b == SPACE {
        } else if b == SEMICOLON {
          FinishParam();
        } else {
          var elems := AbortSequence();
          return Some(elems);
        }
      }
      return None;
    }

    method FinishParam()
      modifies this
      ensures View() == EndParam(old(View()))
    {
      var num := curNum * paramSign;
      if isSpecial {
        special := Some(num);
      } else {
        params := params + [Some(num)];
      }
      inNumber := false;
      curNum := 0;
      paramSign := 1;
      isSpecial := false;
    }

    /** Hands out all bytes of the sequence unmodified. */
    method AbortSequence() returns (elems: seq<Element>)
      ensures elems == Abort(View())
    {
      if withCsi {
        elems := [ControlChar(CSI)] + [Text(rawBytes)];
      } else {
        elems := [ControlChar(ESC)] + [Text([BRACKET] + rawBytes)];
      }
    }
  }

  // ----- the byte stream -----

  datatype Mode = Ground | Escape | InSeq(parser: Parser)

  datatype Stream = Stream(mode: Mode, text: seq<byte>)

  const Fresh: Stream := Stream(Ground, [])

  function FlushText(text: seq<byte>): seq<Element> {
    if |text| > 0 then [Text(text)] else []
  }

  /** A byte outside any escape: control characters push out the pending text first. */
  function AddByte(text: seq<byte>, b: byte): (Stream, seq<Element>) {
    if IsControl(b) then (Fresh, FlushText(text) + [ControlChar(b)]) else (Stream(Ground, text + [b]), [])
  }

  function StreamFeed(s: Stream, b: byte): (Stream, seq<Element>) {
    match s.mode
    case Ground =>
      if b == ESC then (s.(mode := Escape), [])
      else if b == CSI then (Stream(InSeq(NewParser(true)), []), FlushText(s.text))
      else AddByte(s.text, b)
    case Escape =>
      if 0x40 <= b < 0x60 then
        if b + 0x40 == CSI then (Stream(InSeq(NewParser(false)), []), FlushText(s.text))
        else (s.(mode := Ground), [ControlChar(b + 0x40)])
      else if IsControl(b) then AddByte(s.text, b)   // the escape itself is forgotten
      else (AddByte(s.text, b).0, [ControlChar(ESC)])
    case InSeq(p) =>
      match ParserFeed(p, b)
      case More(q) => (s.(mode := InSeq(q)), [])
      case Done(elems) => (s.(mode := Ground), elems)
  }

  /** The elements produced by a whole run, and the state it ends in. */
  function FeedAll(s: Stream, data: seq<byte>): (Stream, seq<Element>) { Run(StreamFeed, s, data) }

  class ConsoleStream {
    var inEscape: int
    var text: seq<byte>
    var seqParser: SeqParser?

    ghost predicate Valid()
      reads this, seqParser
    {
      && 0 <= inEscape <= 2
      && (inEscape == 2 <==> seqParser != null)
      && (inEscape == 2 ==> text == [])
    }

    ghost function View(): Stream
      reads this, seqParser
      requires Valid()
    {
      Stream(if inEscape == 0 then Ground else if inEscape == 1 then Escape else InSeq(seqParser.View()), text)
    }

    constructor ()
      ensures Valid() && View() == Fresh && fresh(this) && seqParser == null
    {
      inEscape := 0;
      text := [];
      seqParser := null;
    }

    /** An escape that is pending is forgotten. */
    method Flush() returns (res: seq<Element>)
      requires Valid() && inEscape != 2
      modifies this
      ensures Valid() && seqParser == null
      ensures View() == Fresh && res == FlushText(old(text))
    {
      inEscape := 0;
      res := FlushPending();
    }

    method FlushPending() returns (res: seq<Element>)
      modifies this`text
      ensures text == [] && res == FlushText(old(text))
    {
      res := [];
      if |text| > 0 {
        res := [Text(text)];
        text := [];
      }
    }

    method PutByte(b: byte) returns (res: seq<Element>)
      modifies this`text
      ensures (Stream(Ground, text), res) == AddByte(old(text), b)
    {
      res := [];
      if b < 32 || (b > 0x80 && b < 0x9F) {
        res := FlushPending();
        res := res + [ControlChar(b)];
      } else {
        text := text + [b];
      }
    }

    method Feed(b: byte) returns (res: seq<Element>)
      requires Valid()
      modifies this, seqParser
      ensures Valid() && (seqParser == old(seqParser) || seqParser == null || fresh(seqParser))
      ensures (View(), res) == StreamFeed(old(View()), b)
    {
      var needFlush := false;
      var extra: seq<Element> := [];
      if inEscape == 0 {
        if b == ESC {
          inEscape := 1;
        } else if b == CSI {
          inEscape := 2;
          seqParser := new SeqParser(true);
          needFlush := true;
        } else {
          extra := PutByte(b);
        }
      } else if inEscape == 1 {
        // ESC and a byte of 0x40..0x5F is the 7 bit form of an 8 bit control
        if b >= 0x40 && b < 0x60 {
          var c := b + 0x40;
          if c == CSI {
            inEscape := 2;
            seqParser := new SeqParser(false);
            needFlush := true;
          } else {
            inEscape := 0;
            extra := [ControlChar(c)];
          }
        } else {
          inEscape := 0;
          extra := [ControlChar(ESC)];
          var added := PutByte(b);
          if |added| > 0 {
            extra := added;
          }
        }
      } else {
        var ended := seqParser.Feed(b);
        if ended.Some? {
          inEscape := 0;
          seqParser := null;
          return ended.value;
        }
      }
      res := [];
      if needFlush {
        res := FlushPending();
      }
      assert res + [] == res && [] + extra == extra;
      res := res + extra;
    }

    method FeedBytes(data: seq<byte>) returns (result: seq<Element>)
      requires Valid()
      modifies this, seqParser
      ensures Valid() && (seqParser == old(seqParser) || seqParser == null || fresh(seqParser))
      ensures (View(), result) == FeedAll(old(View()), data)
    {
      result := [];
      var i := 0;
      ghost var s0 := View();
      while i < |data|
        invariant 0 <= i <= |data|
        invariant Valid() && (seqParser == old(seqParser) || seqParser == null || fresh(seqParser))
        invariant (View(), result) == FeedAll(s0, data[..i])
      {
        var res := Feed(data[i]);
        assert data[..i + 1][..i] == data[..i];
        result := result + res;
        i := i + 1;
      }
      assert data[..|data|] == data;
    }
  }

  // ----- the printer -----

  function Intro(csi: bool): seq<byte> {
    if csi then [CSI] else [ESC, BRACKET]
  }

  function ParamBytes(p: Option<int>): seq<byte> {
    match p case None => [] case Some(v) => Dec(v)
  }

  /** Parameters separated by semicolons. */
  function JoinParams(params: seq<Option<int>>): seq<byte> {
    if params == [] then []
    else
      var n := |params| - 1;
      JoinParams(params[..n]) + (Separator(n == 0) + ParamBytes(params[n]))
  }

  function SpecialBytes(v: int): seq<byte> { [GREATER] + Dec(v) }

  function Separator(first: bool): seq<byte> { if first then [] else [SEMICOLON] }

  function BodyBytes(params: seq<Option<int>>, special: Option<int>): seq<byte> {
    match special
    case None => JoinParams(params)
    case Some(v) =>
      JoinParams(params) + Separator(params == []) + SpecialBytes(v)
  }

  function SeqBytes(key: byte, params: seq<Option<int>>, special: Option<int>, csi: bool): seq<byte> {
    Intro(csi) + BodyBytes(params, special) + [key]
  }

  method ControlSeqToBytes(key: byte, params: seq<Option<int>>, special: Option<int>, csi: bool)
    returns (res: seq<byte>)
    ensures res == SeqBytes(key, params, special, csi)
  {
    res := if csi then [CSI] else [ESC] + [BRACKET];
    assert res == Intro(csi);
    res := AppendParams(res, params);
    if special.Some? {
      ghost var sep, last := Separator(params == []), SpecialBytes(special.value);
      Assoc(Intro(csi), JoinParams(params), sep + last);
      Assoc(JoinParams(params), sep, last);
      res := AppendSpecial(res, params == [], special.value);
    }
    res := res + [key];
  }

  method AppendParams(sofar: seq<byte>, params: seq<Option<int>>) returns (res: seq<byte>)
    ensures res == sofar + JoinParams(params)
  {
    res := sofar;
    var first := true;
    for i := 0 to |params|
      invariant first == (i == 0)
      invariant res == sofar + JoinParams(params[..i])
    {
      JoinOneMore(params, i);
      Assoc(sofar, JoinParams(params[..i]), Separator(first) + ParamBytes(params[i]));
      res, first := AppendParam(res, first, params[i]);
    }
    assert params[..|params|] == params;
  }

  method AppendSpecial(sofar: seq<byte>, first: bool, v: int) returns (res: seq<byte>)
    ensures res == sofar + (Separator(first) + SpecialBytes(v))
  {
    res := sofar;
    if !first {
      res := res + [SEMICOLON];
    }
    res := res + [GREATER];
    var digits := DecimalText(v);
    res := res + digits;
  }

  method AppendParam(sofar: seq<byte>, wasFirst: bool, p: Option<int>) returns (res: seq<byte>, first: bool)
    ensures res == sofar + (Separator(wasFirst) + ParamBytes(p)) && !first
  {
    res := sofar;
    if !wasFirst {
      res := res + [SEMICOLON];
    }
    if p.Some? {
      var digits := DecimalText(p.value);
      res := res + digits;
    }
    first := false;
  }

  lemma JoinOneMore(params: seq<Option<int>>, i: nat)
    requires i < |params|
    ensures JoinParams(params[..i + 1])
         == JoinParams(params[..i]) + (Separator(i == 0) + ParamBytes(params[i]))
  {
    assert params[..i + 1][..i] == params[..i];
  }

  /** What a list of elements looks like on the wire. A control character is sent as its one byte. */
  function ElementBytes(e: Element, csi: bool): seq<byte> {
    match e
    case Text(txt) => txt
    case ControlChar(c) => [c]
    case ControlSeq(key, params, special) => SeqBytes(key, params, special, csi)
  }

  function Pieces(es: seq<Element>, csi: bool): seq<seq<byte>> {
    seq(|es|, i requires 0 <= i < |es| => ElementBytes(es[i], csi))
  }

  function PrintAll(es: seq<Element>, csi: bool): seq<byte> { Flatten(Pieces(es, csi)) }
}
