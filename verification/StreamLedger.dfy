/** What happens to every single input byte: it is emitted, in order, or still pending. */
module StreamLedger {
  import opened Common
  import opened ControlStream
  import opened SequenceGrammar
  import opened StreamTheorems

  // ----- reachable states -----

  /** Inside a sequence no text is pending and the parser is where its raw bytes say; text holds no control byte. */
  predicate StreamOk(s: Stream) {
    && (forall i :: 0 <= i < |s.text| ==> !IsControl(s.text[i]))
    && (s.mode.InSeq? ==>
          var p := s.mode.parser;
          s.text == [] && BodyOk(p.raw) && p == ParserAt(p.withCsi, p.raw))
  }

  lemma StepStaysOk(s: Stream, b: byte)
    requires StreamOk(s)
    ensures StreamOk(StreamFeed(s, b).0)
  {
    assert BodyOk([]) && !HasNumber([]);
    match s.mode
    case InSeq(p) =>
      if !IsTerminator(b) {
        AcceptedByte(p.withCsi, p.raw, b);
      }
    case _ =>
  }

  lemma {:induction false} AlwaysOk(data: seq<byte>)
    ensures StreamOk(FeedAll(Fresh, data).0)
  {
    if data != [] {
      AlwaysOk(data[..|data| - 1]);
      StepStaysOk(FeedAll(Fresh, data[..|data| - 1]).0, data[|data| - 1]);
    }
  }

  // ----- no byte is lost -----

  /** The input bytes taken in but not yet part of an element. */
  function Pending(s: Stream): seq<byte> {
    match s.mode
    case Ground => s.text
    case Escape => s.text + [ESC]
    case InSeq(p) => s.text + Intro(p.withCsi) + p.raw
  }

  /** Which input bytes may stand for an element. */
  ghost predicate Denotes(src: seq<byte>, e: Element) {
    match e
    case Text(txt) => src == txt
    case ControlChar(c) => src == [c] || (0x80 <= c < 0xA0 && src == [ESC, c - 0x40])
    case ControlSeq(key, _, _) =>
      exists csi, body ::
        BodyOk(body) && IsTerminator(key) && src == Intro(csi) + body + [key] && e == Meaning(body, key)
  }

  /** The input bytes an element emitted in state `s` on byte `b` came from. */
  function SourceOf(s: Stream, b: byte, e: Element): seq<byte> {
    match e
    case Text(txt) => txt
    case ControlChar(c) => if s.mode.Escape? && 0x40 <= b < 0x60 then [ESC, b] else [c]
    case ControlSeq(_, _, _) => if s.mode.InSeq? then Pending(s) + [b] else []
  }

  function StepSources(s: Stream, b: byte): seq<seq<byte>> {
    var es := StreamFeed(s, b).1;
    seq(|es|, i requires 0 <= i < |es| => SourceOf(s, b, es[i]))
  }

  function RunSources(data: seq<byte>): seq<seq<byte>> {
    if data == [] then []
    else
      var n := |data| - 1;
      RunSources(data[..n]) + StepSources(FeedAll(Fresh, data[..n]).0, data[n])
  }

  /** After an ESC: either `[`, or no text is pending and the byte is no control character. */
  predicate EscapeInOrder(s: Stream, b: byte) {
    s.mode.Escape? ==> b == BRACKET || (s.text == [] && !IsControl(b))
  }

  predicate EscapesInOrder(data: seq<byte>) {
    data == [] ||
    var n := |data| - 1;
    EscapesInOrder(data[..n]) && EscapeInOrder(FeedAll(Fresh, data[..n]).0, data[n])
  }

  lemma StepDenotes(s: Stream, b: byte)
    requires StreamOk(s)
    ensures AllDenote(StepSources(s, b), StreamFeed(s, b).1)
  {
    if s.mode.InSeq? && IsTerminator(b) {
      EndDenotes(s, b);
    } else if s.mode.InSeq? {
      AcceptedByte(s.mode.parser.withCsi, s.mode.parser.raw, b);
    }
  }

  lemma EndDenotes(s: Stream, b: byte)
    requires StreamOk(s) && s.mode.InSeq? && IsTerminator(b)
    ensures AllDenote(StepSources(s, b), StreamFeed(s, b).1)
  {
    var p := s.mode.parser;
    ParserMeansFields(p.withCsi, p.raw, b);
    assert Pending(s) + [b] == Intro(p.withCsi) + p.raw + [b];
    assert Denotes(Pending(s) + [b], Meaning(p.raw, b));
  }

  lemma FlushSources(s: Stream, b: byte, more: seq<Element>)
    requires StreamFeed(s, b).1 == FlushText(s.text) + more
    ensures Flatten(StepSources(s, b)) ==
              s.text + Flatten(seq(|more|, i requires 0 <= i < |more| => SourceOf(s, b, more[i])))
  {
    var tail := seq(|more|, i requires 0 <= i < |more| => SourceOf(s, b, more[i]));
    if |s.text| > 0 {
      assert StepSources(s, b) == [s.text] + tail;
      FlattenConcat([s.text], tail);
      FlattenOne(s.text);
    } else {
      assert StepSources(s, b) == tail;
    }
  }

  /** One byte in, the same bytes emitted or pending afterwards: exactly when an escape is in order. */
  lemma StepBalance(s: Stream, b: byte)
    requires StreamOk(s)
    ensures EscapeInOrder(s, b) ==>
              Flatten(StepSources(s, b)) + Pending(StreamFeed(s, b).0) == Pending(s) + [b]
  {
    if EscapeInOrder(s, b) {
      match s.mode
      case Ground => GroundBalance(s, b);
      case Escape => EscapeBalance(s, b);
      case InSeq(p) => SequenceBalance(s, b);
    }
  }

  lemma GroundBalance(s: Stream, b: byte)
    requires s.mode.Ground?
    ensures Flatten(StepSources(s, b)) + Pending(StreamFeed(s, b).0) == Pending(s) + [b]
  {
    if b == ESC {
      assert StepSources(s, b) == [];
    } else if b == CSI {
      assert StreamFeed(s, b).1 == FlushText(s.text) + [];
      FlushSources(s, b, []);
    } else if IsControl(b) {
      FlushSources(s, b, [ControlChar(b)]);
      FlattenOne([b]);
      assert seq(1, i requires 0 <= i < 1 => SourceOf(s, b, [ControlChar(b)][i])) == [[b]];
    } else {
      assert StepSources(s, b) == [];
    }
  }

  lemma EscapeBalance(s: Stream, b: byte)
    requires s.mode.Escape? && EscapeInOrder(s, b)
    ensures Flatten(StepSources(s, b)) + Pending(StreamFeed(s, b).0) == Pending(s) + [b]
  {
    if b == BRACKET {
      assert StreamFeed(s, b).1 == FlushText(s.text) + [];
      FlushSources(s, b, []);
    } else if 0x40 <= b < 0x60 {
      assert StepSources(s, b) == [[ESC, b]];
      FlattenOne([ESC, b]);
    } else {
      assert StepSources(s, b) == [[ESC]];
      FlattenOne([ESC]);
    }
  }

  /** An aborted sequence hands out all its bytes. */
  lemma AbortSources(s: Stream, b: byte, csi: bool, raw: seq<byte>)
    requires s.mode.InSeq? && StreamFeed(s, b).1 == Abort(NewParser(csi).(raw := raw))
    ensures Flatten(StepSources(s, b)) == Intro(csi) + raw
  {
    if csi {
      assert StepSources(s, b) == [[CSI], raw];
      FlattenTwo([CSI], raw);
    } else {
      assert StepSources(s, b) == [[ESC], [BRACKET] + raw];
      FlattenTwo([ESC], [BRACKET] + raw);
    }
  }

  lemma TerminatorBalance(s: Stream, b: byte)
    requires StreamOk(s) && s.mode.InSeq? && IsTerminator(b)
    ensures Flatten(StepSources(s, b)) == Pending(s) + [b] && StreamFeed(s, b).0 == Fresh
  {
    ParserMeansFields(s.mode.parser.withCsi, s.mode.parser.raw, b);
    assert StepSources(s, b) == [Pending(s) + [b]];
    FlattenOne(Pending(s) + [b]);
  }

  lemma BodyBalance(s: Stream, b: byte)
    requires StreamOk(s) && s.mode.InSeq? && !IsTerminator(b)
    ensures Flatten(StepSources(s, b)) + Pending(StreamFeed(s, b).0) == Intro(s.mode.parser.withCsi) + (s.mode.parser.raw + [b])
  {
    var csi, raw := s.mode.parser.withCsi, s.mode.parser.raw + [b];
    BodyFeed(s, b);
    if BodyOk(raw) {
      AcceptBalance(s, b, csi, raw);
    } else {
      AbortSources(s, b, csi, raw);
      assert Pending(Fresh) == [];
    }
  }

  lemma AcceptBalance(s: Stream, b: byte, csi: bool, raw: seq<byte>)
    requires StreamFeed(s, b) == (Stream(InSeq(ParserAt(csi, raw)), []), [])
    ensures Flatten(StepSources(s, b)) + Pending(StreamFeed(s, b).0) == Intro(csi) + raw
  {
    assert StepSources(s, b) == [];
  }

  lemma PendingInSequence(s: Stream, b: byte)
    requires StreamOk(s) && s.mode.InSeq?
    ensures Pending(s) + [b] == Intro(s.mode.parser.withCsi) + (s.mode.parser.raw + [b])
  {
    var intro, raw := Intro(s.mode.parser.withCsi), s.mode.parser.raw;
    assert [] + intro == intro;
    Assoc(intro, raw, [b]);
  }

  lemma SequenceBalance(s: Stream, b: byte)
    requires StreamOk(s) && s.mode.InSeq?
    ensures Flatten(StepSources(s, b)) + Pending(StreamFeed(s, b).0) == Pending(s) + [b]
  {
    if IsTerminator(b) {
      TerminatorBalance(s, b);
      assert Pending(s) + [b] + [] == Pending(s) + [b];
    } else {
      BodyBalance(s, b);
      PendingInSequence(s, b);
    }
  }

  /** A byte inside a sequence is accepted, or ends it with an abort. */
  lemma BodyFeed(s: Stream, b: byte)
    requires StreamOk(s) && s.mode.InSeq? && !IsTerminator(b)
    ensures var csi, raw := s.mode.parser.withCsi, s.mode.parser.raw + [b];
            StreamFeed(s, b) ==
              if BodyOk(raw) then (Stream(InSeq(ParserAt(csi, raw)), []), [])
              else (Fresh, Abort(NewParser(csi).(raw := raw)))
  {
    AcceptedByte(s.mode.parser.withCsi, s.mode.parser.raw, b);
  }

  /** How an escape out of order goes wrong: it is forgotten, or it overtakes the pending text. */
  lemma StepOutOfOrder(s: Stream, b: byte)
    requires StreamOk(s) && !EscapeInOrder(s, b)
    ensures var out := Flatten(StepSources(s, b));
            if IsControl(b) then |out| + |Pending(StreamFeed(s, b).0)| == |Pending(s)|
            else |out| + |Pending(StreamFeed(s, b).0)| == |Pending(s)| + 1 && |out| > 0 && out[0] != Pending(s)[0]
  {
    if IsControl(b) {
      FlushSources(s, b, [ControlChar(b)]);
      FlattenOne([b]);
      assert seq(1, i requires 0 <= i < 1 => SourceOf(s, b, [ControlChar(b)][i])) == [[b]];
    } else if 0x40 <= b < 0x60 {
      assert StepSources(s, b) == [[ESC, b]];
      FlattenOne([ESC, b]);
      assert !IsControl(s.text[0]);
    } else {
      assert StepSources(s, b) == [[ESC]];
      FlattenOne([ESC]);
      assert !IsControl(s.text[0]);
    }
  }

  ghost predicate Misplaced(emitted: seq<byte>, data: seq<byte>) {
    exists k :: 0 <= k < |emitted| && k < |data| && emitted[k] != data[k]
  }

  /** What holds of the bytes emitted and pending after `data`, given whether all escapes were in order. */
  ghost predicate Balanced(inOrder: bool, out: seq<byte>, rest: seq<byte>, data: seq<byte>) {
    && |out| + |rest| <= |data|
    && if inOrder then out + rest == data else |out| + |rest| < |data| || Misplaced(out, data)
  }

  lemma BalanceStep(inOrder: bool, out: seq<byte>, s: Stream, before: seq<byte>, b: byte)
    requires StreamOk(s) && Balanced(inOrder, out, Pending(s), before)
    ensures Balanced(inOrder && EscapeInOrder(s, b), out + Flatten(StepSources(s, b)), Pending(StreamFeed(s, b).0),
                     before + [b])
  {
    var more, rest := Flatten(StepSources(s, b)), Pending(StreamFeed(s, b).0);
    if EscapeInOrder(s, b) {
      StepBalance(s, b);
      Regroup(out, more, rest, Pending(s), b);
      assert |more + rest| == |Pending(s)| + 1;
    } else {
      StepOutOfOrder(s, b);
    }
    if !inOrder && Misplaced(out, before) {
      var k :| 0 <= k < |out| && k < |before| && out[k] != before[k];
      assert (out + more)[k] != (before + [b])[k];
    } else if inOrder && !EscapeInOrder(s, b) && !IsControl(b) {
      assert before[|out|] == Pending(s)[0];
      assert (out + more)[|out|] != (before + [b])[|out|];
    }
  }

  lemma {:induction false} BalanceOrLoss(data: seq<byte>)
    ensures Balanced(EscapesInOrder(data), Flatten(RunSources(data)), Pending(FeedAll(Fresh, data).0), data)
  {
    if data != [] {
      var n := |data| - 1;
      BalanceOrLoss(data[..n]);
      BalanceMore(data[..n], data[n], data);
    }
  }

  lemma BalanceMore(data: seq<byte>, b: byte, more: seq<byte>)
    requires more == data + [b]
    requires Balanced(EscapesInOrder(data), Flatten(RunSources(data)), Pending(FeedAll(Fresh, data).0), data)
    ensures Balanced(EscapesInOrder(more), Flatten(RunSources(more)), Pending(FeedAll(Fresh, more).0), more)
  {
    var s := FeedAll(Fresh, data).0;
    assert more[..|data|] == data;
    AlwaysOk(data);
    BalanceStep(EscapesInOrder(data), Flatten(RunSources(data)), s, data, b);
    FlattenConcat(RunSources(data), StepSources(s, b));
    FeedAllSnoc(Fresh, data, b);
    assert RunSources(more) == RunSources(data) + StepSources(s, b);
  }

  lemma Regroup(out: seq<byte>, more: seq<byte>, rest: seq<byte>, pending: seq<byte>, b: byte)
    requires more + rest == pending + [b]
    ensures (out + more) + rest == (out + pending) + [b]
  {
    Assoc(out, more, rest);
    Assoc(out, pending, [b]);
  }

  /** Every source stands for its element. */
  ghost predicate AllDenote(sources: seq<seq<byte>>, es: seq<Element>) {
    |sources| == |es| && forall i :: 0 <= i < |es| ==> Denotes(sources[i], es[i])
  }

  lemma AllDenoteConcat(a: seq<seq<byte>>, es: seq<Element>, b: seq<seq<byte>>, fs: seq<Element>)
    requires AllDenote(a, es) && AllDenote(b, fs)
    ensures AllDenote(a + b, es + fs)
  {
  }

  lemma {:induction false} RunDenotes(data: seq<byte>)
    ensures AllDenote(RunSources(data), FeedAll(Fresh, data).1)
  {
    if data != [] {
      var n := |data| - 1;
      var (s, es) := FeedAll(Fresh, data[..n]);
      RunDenotes(data[..n]);
      AlwaysOk(data[..n]);
      StepDenotes(s, data[n]);
      AllDenoteConcat(RunSources(data[..n]), es, StepSources(s, data[n]), StreamFeed(s, data[n]).1);
    }
  }

  /**
   Lossless parsing, exactly: the source bytes of the emitted elements, each denoting its element, followed
   by the pending bytes, are the bytes fed if and only if every escape was in order.
   */
  lemma LosslessIff(data: seq<byte>)
    ensures AllDenote(RunSources(data), FeedAll(Fresh, data).1)
    ensures Flatten(RunSources(data)) + Pending(FeedAll(Fresh, data).0) == data <==> EscapesInOrder(data)
  {
    RunDenotes(data);
    BalanceOrLoss(data);
  }

  /** Pending text is overtaken by an escape that turns out to be none. */
  lemma EscapeOvertakes()
    ensures FeedAll(Fresh, [0x61, ESC, 0x37]) == (Stream(Ground, [0x61, 0x37]), [ControlChar(ESC)])
    ensures !EscapesInOrder([0x61, ESC, 0x37])
  {
    var none: seq<Element> := [];
    assert none + none == none && none + [ControlChar(ESC)] == [ControlChar(ESC)];
    FeedAllOne(Fresh, 0x61);
    assert [] + [0x61] == [0x61] && [0x61] + [0x37] == [0x61, 0x37];
    FeedAllSnoc(Fresh, [0x61], ESC);
    assert [0x61] + [ESC] == [0x61, ESC];
    FeedAllSnoc(Fresh, [0x61, ESC], 0x37);
    assert [0x61, ESC] + [0x37] == [0x61, ESC, 0x37];
    assert [0x61, ESC, 0x37][..2] == [0x61, ESC];
  }

  /** An escape before a control byte is dropped. */
  lemma EscapeForgotten()
    ensures FeedAll(Fresh, [ESC, 0x07]) == (Fresh, [ControlChar(0x07)])
    ensures !EscapesInOrder([ESC, 0x07])
  {
    var none: seq<Element> := [];
    assert none + (none + [ControlChar(0x07)]) == [ControlChar(0x07)];
    FeedAllOne(Fresh, ESC);
    FeedAllSnoc(Fresh, [ESC], 0x07);
    assert [ESC] + [0x07] == [ESC, 0x07];
    assert [ESC, 0x07][..1] == [ESC];
  }
}
