/**
 Which lists of elements come back unchanged when they are printed and parsed again: exactly those in the normal form
 below, whichever of the two introducers is printed.
 */
module NormalForms {
  import opened Common
  import opened ControlStream
  import opened SequenceGrammar
  import opened StreamTheorems
  import opened StreamLedger

  predicate Complete(data: seq<byte>) { FeedAll(Fresh, data).0.mode.Ground? }

  /** All elements of a complete input, the text still pending flushed at the end. */
  function ParseWhole(data: seq<byte>): seq<Element> {
    var (s, es) := FeedAll(Fresh, data);
    es + FlushText(s.text)
  }

  /** Printing `es` and parsing it leaves at most its last text to be flushed. */
  predicate Reprints(es: seq<Element>, csi: bool) {
    var printed := PrintAll(es, csi);
    Complete(printed) && ParseWhole(printed) == es
  }

  // ----- the normal form -----

  /**
   What the last elements of a list leave open. Open: text, which more text would run into. Escaped, OpenEscaped: a bare
   escape, without and with such text before it. Introduced: a bare CSI.
   */
  datatype Phase = Clear | Open | Escaped | OpenEscaped | Introduced | Broken

  predicate Calm(q: Phase) { q.Clear? || q.Open? }

  /** The bytes of a sequence up to the one that is refused. */
  predicate AbortBody(raw: seq<byte>) {
    raw != [] && BodyOk(raw[..|raw| - 1]) && !IsTerminator(raw[|raw| - 1]) && !BodyOk(raw)
  }

  predicate PlainText(t: seq<byte>) { t != [] && forall i :: 0 <= i < |t| ==> !IsControl(t[i]) }

  /** The 7 bit half of a control character, behind an escape. */
  predicate IsMapped(b: byte) { 0x40 <= b < 0x60 }

  function AfterBody(raw: seq<byte>): Phase { if AbortBody(raw) then Clear else Broken }

  /** Behind a bare introducer text must be what an aborted sequence gives; elsewhere it must not be taken for one. */
  function AfterText(q: Phase, t: seq<byte>): Phase {
    match q
    case Clear => if PlainText(t) then Open else Broken
    case Introduced => AfterBody(t)
    case Escaped =>
      if t != [] && t[0] == BRACKET then AfterBody(t[1..])
      else if PlainText(t) && !IsMapped(t[0]) then Open else Broken
    case OpenEscaped => if t != [] && t[0] == BRACKET then AfterBody(t[1..]) else Broken
    case _ => Broken
  }

  function AfterControl(q: Phase, c: byte): Phase {
    if !Calm(q) then Broken
    else if c == ESC then if q.Clear? then Escaped else OpenEscaped
    else if c == CSI then Introduced
    else if IsControl(c) then Clear
    else Broken
  }

  predicate AllPresent(params: seq<Option<int>>) { forall i :: 0 <= i < |params| ==> params[i].Some? }

  function Next(q: Phase, e: Element): Phase {
    match e
    case Text(t) => AfterText(q, t)
    case ControlChar(c) => AfterControl(q, c)
    case ControlSeq(key, params, _) => if Calm(q) && IsTerminator(key) && AllPresent(params) then Clear else Broken
  }

  function PhaseOf(es: seq<Element>): Phase {
    if es == [] then Clear else Next(PhaseOf(es[..|es| - 1]), es[|es| - 1])
  }

  predicate Normal(es: seq<Element>) { Calm(PhaseOf(es)) }

  lemma PhaseSnoc(es: seq<Element>, e: Element)
    ensures PhaseOf(es + [e]) == Next(PhaseOf(es), e)
  {
    assert (es + [e])[..|es|] == es;
  }

  lemma PhaseFlushed(es: seq<Element>, text: seq<byte>)
    ensures PhaseOf(es + FlushText(text)) == if text == [] then PhaseOf(es) else AfterText(PhaseOf(es), text)
  {
    if text == [] {
      assert es + [] == es;
    } else {
      PhaseSnoc(es, Text(text));
    }
  }

  lemma {:induction false} BrokenStays(es: seq<Element>, more: seq<Element>)
    requires PhaseOf(es).Broken?
    ensures PhaseOf(es + more).Broken?
  {
    if more == [] {
      assert es + more == es;
    } else {
      var n := |more| - 1;
      BrokenStays(es, more[..n]);
      PhaseSnoc(es + more[..n], more[n]);
      assert es + more == es + more[..n] + [more[n]];
    }
  }

  // ----- lists in normal form reprint -----

  /** What a fresh stream has put out, and where it stands, once a list in this phase has been printed to it. */
  predicate Stands(q: Phase, s: Stream, out: seq<Element>, es: seq<Element>) {
    match q
    case Clear => s == Fresh && out == es
    case Open => s.mode.Ground? && s.text != [] && out + [Text(s.text)] == es
    case Escaped => s == Stream(Escape, []) && out + [ControlChar(ESC)] == es
    case OpenEscaped => s.mode.Escape? && s.text != [] && out + [Text(s.text)] + [ControlChar(ESC)] == es
    case Introduced => s == Stream(InSeq(NewParser(true)), []) && out + [ControlChar(CSI)] == es
    case Broken => false
  }

  lemma CalmStands(q: Phase, s: Stream, out: seq<Element>, es: seq<Element>)
    requires Calm(q) && Stands(q, s, out, es)
    ensures s.mode.Ground? && out + FlushText(s.text) == es
  {
    assert out + [] == out;
  }

  lemma {:induction false} PlainTextFeeds(text: seq<byte>, t: seq<byte>)
    requires forall i :: 0 <= i < |t| ==> !IsControl(t[i])
    ensures FeedAll(Stream(Ground, text), t) == (Stream(Ground, text + t), [])
  {
    if t == [] {
      assert text + t == text;
    } else {
      var n := |t| - 1;
      PlainTextFeeds(text, t[..n]);
      FeedAllSnoc(Stream(Ground, text), t[..n], t[n]);
      var none: seq<Element> := [];
      assert t == t[..n] + [t[n]] && text + t == text + t[..n] + [t[n]] && none + none == none;
    }
  }

  /** An aborted sequence gives its bytes back. */
  lemma AbortFeeds(csi: bool, raw: seq<byte>)
    requires AbortBody(raw)
    ensures FeedAll(Stream(InSeq(NewParser(csi)), []), raw) == (Fresh, Abort(NewParser(csi).(raw := raw)))
  {
    var n := |raw| - 1;
    var s := Stream(InSeq(NewParser(csi)), []);
    assert raw == raw[..n] + [raw[n]];
    ParserTracksFields(csi, raw[..n]);
    FeedAllBody([], NewParser(csi), raw[..n]);
    AcceptedByte(csi, raw[..n], raw[n]);
    FeedAllSnoc(s, raw[..n], raw[n]);
    var out := Abort(NewParser(csi).(raw := raw));
    assert [] + out == out;
  }

  lemma BracketFeeds(text: seq<byte>, raw: seq<byte>)
    requires AbortBody(raw)
    ensures FeedAll(Stream(Escape, text), [BRACKET] + raw) ==
              (Fresh, FlushText(text) + [ControlChar(ESC), Text([BRACKET] + raw)])
  {
    FeedAllOne(Stream(Escape, text), BRACKET);
    FeedAllSplits(Stream(Escape, text), [BRACKET], raw);
    AbortFeeds(false, raw);
  }

  /** A bare escape that stays one, and the text behind it. */
  lemma EscapedTextFeeds(t: seq<byte>)
    requires PlainText(t) && !IsMapped(t[0])
    ensures FeedAll(Stream(Escape, []), t) == (Stream(Ground, t), [ControlChar(ESC)])
  {
    FeedAllOne(Stream(Escape, []), t[0]);
    assert [] + [t[0]] == [t[0]] && t == [t[0]] + t[1..];
    PlainTextFeeds([t[0]], t[1..]);
    FeedAllSplits(Stream(Escape, []), [t[0]], t[1..]);
    assert [ControlChar(ESC)] + [] == [ControlChar(ESC)];
  }

  lemma TextStep(q: Phase, s: Stream, out: seq<Element>, es: seq<Element>, t: seq<byte>)
    requires Stands(q, s, out, es) && !AfterText(q, t).Broken?
    ensures var (s1, more) := FeedAll(s, t); Stands(AfterText(q, t), s1, out + more, es + [Text(t)])
  {
    match q
    case Clear =>
      PlainTextFeeds([], t);
      assert [] + t == t && out + [] == out;
    case Introduced =>
      AbortFeeds(true, t);
      assert out + [ControlChar(CSI), Text(t)] == out + [ControlChar(CSI)] + [Text(t)];
    case Escaped =>
      if t[0] == BRACKET {
        BracketStep(out, [], t);
      } else {
        EscapedTextFeeds(t);
      }
    case OpenEscaped => BracketStep(out, s.text, t);
  }

  lemma BracketStep(out: seq<Element>, text: seq<byte>, t: seq<byte>)
    requires t != [] && t[0] == BRACKET && AbortBody(t[1..])
    ensures var (s1, more) := FeedAll(Stream(Escape, text), t);
            s1 == Fresh && out + more == out + FlushText(text) + [ControlChar(ESC)] + [Text(t)]
    ensures out + FlushText([]) == out
  {
    assert t == [BRACKET] + t[1..];
    BracketFeeds(text, t[1..]);
    assert FlushText(text) + [ControlChar(ESC), Text(t)] == FlushText(text) + [ControlChar(ESC)] + [Text(t)];
    Assoc(out, FlushText(text), [ControlChar(ESC)]);
    Assoc(out, FlushText(text) + [ControlChar(ESC)], [Text(t)]);
  }

  lemma ControlStep(q: Phase, s: Stream, out: seq<Element>, es: seq<Element>, c: byte)
    requires Stands(q, s, out, es) && !AfterControl(q, c).Broken?
    ensures var (s1, more) := FeedAll(s, [c]); Stands(AfterControl(q, c), s1, out + more, es + [ControlChar(c)])
  {
    CalmStands(q, s, out, es);
    FeedAllOne(s, c);
    assert out + [] == out;
    Assoc(out, FlushText(s.text), [ControlChar(c)]);
  }

  lemma PresentReadsBack(params: seq<Option<int>>, special: Option<int>)
    requires AllPresent(params)
    ensures ReadBack(params, special) == params
  {
  }

  lemma SequenceStep(q: Phase, s: Stream, out: seq<Element>, es: seq<Element>, e: Element, csi: bool)
    requires Stands(q, s, out, es) && e.ControlSeq? && !Next(q, e).Broken?
    ensures var (s1, more) := FeedAll(s, ElementBytes(e, csi)); Stands(Next(q, e), s1, out + more, es + [e])
  {
    CalmStands(q, s, out, es);
    PrintParse(s.text, e.key, e.params, e.special, csi);
    PresentReadsBack(e.params, e.special);
    Assoc(out, FlushText(s.text), [e]);
  }

  lemma ElementStep(q: Phase, s: Stream, out: seq<Element>, es: seq<Element>, e: Element, csi: bool)
    requires Stands(q, s, out, es) && !Next(q, e).Broken?
    ensures var (s1, more) := FeedAll(s, ElementBytes(e, csi)); Stands(Next(q, e), s1, out + more, es + [e])
  {
    match e
    case Text(t) => TextStep(q, s, out, es, t);
    case ControlChar(c) => ControlStep(q, s, out, es, c);
    case ControlSeq(_, _, _) => SequenceStep(q, s, out, es, e, csi);
  }

  lemma PrintAllConcat(a: seq<Element>, b: seq<Element>, csi: bool)
    ensures PrintAll(a + b, csi) == PrintAll(a, csi) + PrintAll(b, csi)
  {
    assert Pieces(a + b, csi) == Pieces(a, csi) + Pieces(b, csi);
    FlattenConcat(Pieces(a, csi), Pieces(b, csi));
  }

  lemma PrintOne(e: Element, csi: bool)
    ensures PrintAll([e], csi) == ElementBytes(e, csi)
  {
    assert Pieces([e], csi) == [ElementBytes(e, csi)];
    FlattenOne(ElementBytes(e, csi));
  }

  lemma PrintSnoc(es: seq<Element>, e: Element, csi: bool)
    ensures PrintAll(es + [e], csi) == PrintAll(es, csi) + ElementBytes(e, csi)
  {
    PrintAllConcat(es, [e], csi);
    PrintOne(e, csi);
  }

  lemma {:induction false} PrintedStands(es: seq<Element>, csi: bool)
    requires !PhaseOf(es).Broken?
    ensures var (s, out) := FeedAll(Fresh, PrintAll(es, csi)); Stands(PhaseOf(es), s, out, es)
  {
    if es != [] {
      var n := |es| - 1;
      var e := es[n];
      assert es == es[..n] + [e];
      PrintedStands(es[..n], csi);
      var (s, out) := FeedAll(Fresh, PrintAll(es[..n], csi));
      ElementStep(PhaseOf(es[..n]), s, out, es[..n], e, csi);
      PrintSnoc(es[..n], e, csi);
      FeedAllSplits(Fresh, PrintAll(es[..n], csi), ElementBytes(e, csi));
    }
  }

  lemma NormalReprints(es: seq<Element>, csi: bool)
    requires Normal(es)
    ensures Reprints(es, csi)
  {
    PrintedStands(es, csi);
    var (s, out) := FeedAll(Fresh, PrintAll(es, csi));
    CalmStands(PhaseOf(es), s, out, es);
  }

  /** Printing an aborted sequence gives its introducer and all its bytes. */
  lemma PrintAborted(withCsi: bool, raw: seq<byte>, csi: bool)
    ensures PrintAll(Abort(NewParser(withCsi).(raw := raw)), csi) == Intro(withCsi) + raw
  {
    var out := Abort(NewParser(withCsi).(raw := raw));
    assert out == [out[0]] + [out[1]];
    PrintAllConcat([out[0]], [out[1]], csi);
    PrintOne(out[0], csi);
    PrintOne(out[1], csi);
  }

  // ----- what parses in order is in normal form -----

  /** In order, and not one of the two 7 bit forms whose 8 bit byte counts as text. */
  predicate EscapeReprints(s: Stream, b: byte) {
    EscapeInOrder(s, b) && (s.mode.Escape? ==> b != 0x40 && b != 0x5F)
  }

  predicate EscapesReprint(data: seq<byte>) {
    data == [] ||
    var n := |data| - 1;
    EscapesReprint(data[..n]) && EscapeReprints(FeedAll(Fresh, data[..n]).0, data[n])
  }

  /** The phase of what has been put out and is pending. */
  predicate ParsesNormal(s: Stream, out: seq<Element>) {
    && (s.mode.InSeq? ==> Calm(PhaseOf(out)))
    && (!s.mode.InSeq? ==> PhaseOf(out + FlushText(s.text)) == if s.text == [] then Clear else Open)
  }

  /** Text behind other text, or behind what leaves nothing to say about it. */
  lemma TextGrows(out: seq<Element>, text: seq<byte>, b: byte)
    requires PhaseOf(out + FlushText(text)) == (if text == [] then Clear else Open) && !IsControl(b)
    ensures PhaseOf(out + FlushText(text + [b])) == Open
  {
    PhaseFlushed(out, text);
    PhaseFlushed(out, text + [b]);
    if text != [] {
      assert (text + [b])[0] == text[0];
      assert PlainText(text + [b]);
    }
  }

  lemma ControlParses(out: seq<Element>, text: seq<byte>, c: byte)
    requires Calm(PhaseOf(out + FlushText(text))) && IsControl(c) && c != ESC && c != CSI
    ensures PhaseOf(out + (FlushText(text) + [ControlChar(c)])) == Clear
  {
    Assoc(out, FlushText(text), [ControlChar(c)]);
    PhaseSnoc(out + FlushText(text), ControlChar(c));
  }

  lemma GroundParses(s: Stream, out: seq<Element>, b: byte)
    requires s.mode.Ground? && ParsesNormal(s, out)
    ensures var (t, more) := StreamFeed(s, b); ParsesNormal(t, out + more)
  {
    assert out + [] == out;
    if b != ESC && b != CSI {
      if IsControl(b) {
        ControlParses(out, s.text, b);
        var all := out + (FlushText(s.text) + [ControlChar(b)]);
        assert all + [] == all;
      } else {
        TextGrows(out, s.text, b);
      }
    }
  }

  lemma LoneEscapeParses(out: seq<Element>, b: byte)
    requires PhaseOf(out).Clear? && !IsControl(b) && !IsMapped(b)
    ensures PhaseOf(out + [ControlChar(ESC)] + FlushText([b])) == Open
  {
    PhaseSnoc(out, ControlChar(ESC));
    PhaseFlushed(out + [ControlChar(ESC)], [b]);
  }

  lemma EscapeParses(s: Stream, out: seq<Element>, b: byte)
    requires s.mode.Escape? && ParsesNormal(s, out) && EscapeReprints(s, b)
    ensures var (t, more) := StreamFeed(s, b); ParsesNormal(t, out + more)
  {
    assert out + [] == out;
    if b != BRACKET {
      if IsMapped(b) {
        ControlParses(out, [], b + 0x40);
        var all := out + ([] + [ControlChar(b + 0x40)]);
        assert all + [] == all && [] + [ControlChar(b + 0x40)] == [ControlChar(b + 0x40)];
      } else {
        LoneEscapeParses(out, b);
        assert [] + [b] == [b];
      }
    }
  }

  lemma AbortParses(out: seq<Element>, csi: bool, raw: seq<byte>)
    requires Calm(PhaseOf(out)) && AbortBody(raw)
    ensures PhaseOf(out + Abort(NewParser(csi).(raw := raw))) == Clear
  {
    var more := Abort(NewParser(csi).(raw := raw));
    assert out + more == out + [more[0]] + [more[1]];
    PhaseSnoc(out, more[0]);
    PhaseSnoc(out + [more[0]], more[1]);
    if !csi {
      assert ([BRACKET] + raw)[1..] == raw;
    }
  }

  lemma {:induction false} PlainParamsPresent(fs: seq<seq<byte>>)
    ensures AllPresent(PlainParams(fs))
  {
    if fs != [] {
      PlainParamsPresent(fs[..|fs| - 1]);
    }
  }

  lemma SequenceParses(s: Stream, out: seq<Element>, b: byte)
    requires StreamOk(s) && s.mode.InSeq? && ParsesNormal(s, out)
    ensures var (t, more) := StreamFeed(s, b); ParsesNormal(t, out + more)
  {
    var p := s.mode.parser;
    if IsTerminator(b) {
      var e := Meaning(p.raw, b);
      ParserMeansFields(p.withCsi, p.raw, b);
      PlainParamsPresent(CountedFields(p.raw));
      PhaseSnoc(out, e);
      assert out + [e] + [] == out + [e];
    } else {
      BodyFeed(s, b);
      BodyParses(s, out, b);
    }
  }

  lemma BodyParses(s: Stream, out: seq<Element>, b: byte)
    requires StreamOk(s) && s.mode.InSeq? && !IsTerminator(b) && ParsesNormal(s, out)
    requires var csi, raw := s.mode.parser.withCsi, s.mode.parser.raw + [b];
             StreamFeed(s, b) ==
               if BodyOk(raw) then (Stream(InSeq(ParserAt(csi, raw)), []), [])
               else (Fresh, Abort(NewParser(csi).(raw := raw)))
    ensures var (t, more) := StreamFeed(s, b); ParsesNormal(t, out + more)
  {
    var csi, raw := s.mode.parser.withCsi, s.mode.parser.raw + [b];
    assert out + [] == out;
    if !BodyOk(raw) {
      assert raw[..|raw| - 1] == s.mode.parser.raw;
      AbortParses(out, csi, raw);
      var all := out + Abort(NewParser(csi).(raw := raw));
      assert all + [] == all;
    }
  }

  lemma {:induction false} InOrderParsesNormal(data: seq<byte>)
    requires EscapesReprint(data)
    ensures ParsesNormal(FeedAll(Fresh, data).0, FeedAll(Fresh, data).1)
  {
    if data != [] {
      var n := |data| - 1;
      var (s, out) := FeedAll(Fresh, data[..n]);
      InOrderParsesNormal(data[..n]);
      AlwaysOk(data[..n]);
      match s.mode
      case Ground => GroundParses(s, out, data[n]);
      case Escape => EscapeParses(s, out, data[n]);
      case InSeq(_) => SequenceParses(s, out, data[n]);
    }
  }

  // ----- in a list that reprints no escape is dropped or mapped -----

  /** Escapes and introducers weigh one, the two 8 bit bytes that count as text weigh minus one. */
  function Weight(b: byte): int { if b == ESC || b == CSI then 1 else if b == 0x80 || b == 0x9F then -1 else 0 }

  function WeightOf(data: seq<byte>): int {
    if data == [] then 0 else WeightOf(data[..|data| - 1]) + Weight(data[|data| - 1])
  }

  function ElementWeight(e: Element): int {
    match e
    case Text(t) => WeightOf(t)
    case ControlChar(c) => Weight(c)
    case ControlSeq(key, _, _) => 1 + Weight(key)
  }

  function Weigh(es: seq<Element>): int {
    if es == [] then 0 else Weigh(es[..|es| - 1]) + ElementWeight(es[|es| - 1])
  }

  lemma WeightSnoc(data: seq<byte>, b: byte)
    ensures WeightOf(data + [b]) == WeightOf(data) + Weight(b)
  {
    assert (data + [b])[..|data|] == data;
  }

  lemma {:induction false} WeightConcat(a: seq<byte>, b: seq<byte>)
    ensures WeightOf(a + b) == WeightOf(a) + WeightOf(b)
  {
    if b == [] {
      assert a + b == a;
    } else {
      WeightConcat(a, b[..|b| - 1]);
      assert a + b == a + b[..|b| - 1] + [b[|b| - 1]];
      WeightSnoc(a + b[..|b| - 1], b[|b| - 1]);
    }
  }

  lemma {:induction false} WeighConcat(a: seq<Element>, b: seq<Element>)
    ensures Weigh(a + b) == Weigh(a) + Weigh(b)
  {
    if b == [] {
      assert a + b == a;
    } else {
      WeighConcat(a, b[..|b| - 1]);
      assert (a + b)[..|a + b| - 1] == a + b[..|b| - 1];
    }
  }

  lemma WeighOne(e: Element)
    ensures Weigh([e]) == ElementWeight(e)
  {
    assert [e][..0] == [];
  }

  lemma WeighFlushed(text: seq<byte>)
    ensures Weigh(FlushText(text)) == WeightOf(text)
  {
    if text != [] {
      WeighOne(Text(text));
    }
  }

  lemma IntroWeighs(csi: bool)
    ensures WeightOf(Intro(csi)) == 1
  {
    WeightSnoc([], if csi then CSI else ESC);
    WeightSnoc([ESC], BRACKET);
    assert [] + [CSI] == [CSI] && [] + [ESC] == [ESC] && [ESC] + [BRACKET] == [ESC, BRACKET];
  }

  lemma {:induction false} BodyWeighsNothing(body: seq<byte>)
    requires BodyOk(body)
    ensures WeightOf(body) == 0
  {
    if body != [] {
      var n := |body| - 1;
      assert body == body[..n] + [body[n]];
      BodyOkGrows(body[..n], body[n]);
      BodyWeighsNothing(body[..n]);
    }
  }

  lemma ElementPrintWeighs(e: Element, csi: bool)
    ensures WeightOf(ElementBytes(e, csi)) == ElementWeight(e)
  {
    match e
    case Text(_) =>
    case ControlChar(c) =>
      WeightSnoc([], c);
      assert [] + [c] == [c];
    case ControlSeq(key, params, special) =>
      var body := BodyBytes(params, special);
      BodyMeans(params, special, key);
      BodyWeighsNothing(body);
      IntroWeighs(csi);
      WeightConcat(Intro(csi), body);
      WeightSnoc(Intro(csi) + body, key);
  }

  /** Printing keeps the weight. */
  lemma {:induction false} PrintWeighs(es: seq<Element>, csi: bool)
    ensures WeightOf(PrintAll(es, csi)) == Weigh(es)
  {
    if es != [] {
      var n := |es| - 1;
      assert es == es[..n] + [es[n]];
      PrintWeighs(es[..n], csi);
      PrintSnoc(es[..n], es[n], csi);
      ElementPrintWeighs(es[n], csi);
      WeightConcat(PrintAll(es[..n], csi), ElementBytes(es[n], csi));
    }
  }

  /** An escape is neither dropped nor made part of a control character. */
  predicate Kept(s: Stream, b: byte) { s.mode.Escape? ==> b == BRACKET || (!IsControl(b) && !IsMapped(b)) }

  predicate AllKept(data: seq<byte>) {
    data == [] ||
    var n := |data| - 1;
    AllKept(data[..n]) && Kept(FeedAll(Fresh, data[..n]).0, data[n])
  }

  /** Parsing keeps it as well, or loses some where an escape is not kept. */
  predicate Balances(kept: bool, before: int, after: int) { after <= before && (!kept ==> after < before) }

  lemma FlushWeighs(text: seq<byte>, e: Element)
    ensures Weigh(FlushText(text) + [e]) == WeightOf(text) + ElementWeight(e)
  {
    WeighConcat(FlushText(text), [e]);
    WeighFlushed(text);
    WeighOne(e);
  }

  lemma AddedWeighs(text: seq<byte>, b: byte)
    ensures var (t, es) := AddByte(text, b); Weigh(es) + WeightOf(t.text) == WeightOf(text) + Weight(b)
  {
    FlushWeighs(text, ControlChar(b));
    WeightSnoc(text, b);
  }

  lemma GroundWeighs(s: Stream, b: byte)
    requires s.mode.Ground?
    ensures var (t, es) := StreamFeed(s, b); Weigh(es) + WeightOf(Pending(t)) == WeightOf(Pending(s)) + Weight(b)
  {
    AddedWeighs(s.text, b);
    WeightSnoc(s.text, ESC);
    WeighFlushed(s.text);
    NewWeighs(true);
  }

  lemma NewWeighs(csi: bool)
    ensures WeightOf(Pending(Stream(InSeq(NewParser(csi)), []))) == 1
  {
    IntroWeighs(csi);
    assert [] + Intro(csi) + [] == Intro(csi);
  }

  lemma EscapeWeighs(s: Stream, b: byte)
    requires s.mode.Escape?
    ensures var (t, es) := StreamFeed(s, b);
            Balances(Kept(s, b), WeightOf(Pending(s)) + Weight(b), Weigh(es) + WeightOf(Pending(t)))
  {
    WeightSnoc(s.text, ESC);
    AddedWeighs(s.text, b);
    WeighFlushed(s.text);
    NewWeighs(false);
    WeighOne(ControlChar(ESC));
    if IsMapped(b) {
      WeighOne(ControlChar(b + 0x40));
    }
  }

  lemma AbortWeighs(csi: bool, raw: seq<byte>)
    ensures Weigh(Abort(NewParser(csi).(raw := raw))) == 1 + WeightOf(raw)
  {
    var es := Abort(NewParser(csi).(raw := raw));
    assert es == [es[0]] + [es[1]];
    WeighConcat([es[0]], [es[1]]);
    WeighOne(es[0]);
    WeighOne(es[1]);
    WeightConcat([BRACKET], raw);
    WeightSnoc([], BRACKET);
    assert [] + [BRACKET] == [BRACKET];
  }

  lemma InsideWeighs(csi: bool, raw: seq<byte>)
    ensures WeightOf([] + Intro(csi) + raw) == 1 + WeightOf(raw)
  {
    IntroWeighs(csi);
    assert [] + Intro(csi) == Intro(csi);
    WeightConcat(Intro(csi), raw);
  }

  lemma SequenceWeighs(s: Stream, b: byte)
    requires StreamOk(s) && s.mode.InSeq?
    ensures var (t, es) := StreamFeed(s, b); Weigh(es) + WeightOf(Pending(t)) == WeightOf(Pending(s)) + Weight(b)
  {
    var csi, raw := s.mode.parser.withCsi, s.mode.parser.raw;
    InsideWeighs(csi, raw);
    BodyWeighsNothing(raw);
    if IsTerminator(b) {
      ParserMeansFields(csi, raw, b);
      WeighOne(Meaning(raw, b));
    } else {
      BodyFeed(s, b);
      WeightSnoc(raw, b);
      InsideWeighs(csi, raw + [b]);
      AbortWeighs(csi, raw + [b]);
    }
  }

  lemma {:induction false} ParseWeighs(data: seq<byte>)
    ensures var (s, es) := FeedAll(Fresh, data);
            Balances(AllKept(data), WeightOf(data), Weigh(es) + WeightOf(Pending(s)))
  {
    if data != [] {
      var n := |data| - 1;
      var (s, es) := FeedAll(Fresh, data[..n]);
      ParseWeighs(data[..n]);
      AlwaysOk(data[..n]);
      match s.mode {
        case Ground => GroundWeighs(s, data[n]);
        case Escape => EscapeWeighs(s, data[n]);
        case InSeq(_) => SequenceWeighs(s, data[n]);
      }
      WeighConcat(es, StreamFeed(s, data[n]).1);
    }
  }

  lemma ReprintsKeeps(es: seq<Element>, csi: bool)
    requires Reprints(es, csi)
    ensures AllKept(PrintAll(es, csi))
  {
    var printed := PrintAll(es, csi);
    var (s, out) := FeedAll(Fresh, printed);
    PrintWeighs(es, csi);
    ParseWeighs(printed);
    WeighConcat(out, FlushText(s.text));
    WeighFlushed(s.text);
  }

  // ----- nor does one overtake text -----

  lemma {:induction false} KeptAt(data: seq<byte>, k: nat)
    requires AllKept(data) && k < |data|
    ensures Kept(FeedAll(Fresh, data[..k]).0, data[k])
  {
    var n := |data| - 1;
    if k < n {
      KeptAt(data[..n], k);
      assert data[..n][..k] == data[..k];
    }
  }

  lemma FeedPrefix(data: seq<byte>, k: nat)
    requires k < |data|
    ensures var (s, out) := FeedAll(Fresh, data[..k]);
            FeedAll(Fresh, data[..k + 1]) == (StreamFeed(s, data[k]).0, out + StreamFeed(s, data[k]).1)
  {
    FeedAllSnoc(Fresh, data[..k], data[k]);
    assert data[..k + 1] == data[..k] + [data[k]];
  }

  /** Behind an escape something comes out before the next one. */
  lemma {:induction false} EscapeMoves(data: seq<byte>, i: nat, j: nat)
    requires AllKept(data) && i < j <= |data| && FeedAll(Fresh, data[..i]).0.mode.Escape?
    ensures var before, (s, out) := FeedAll(Fresh, data[..i]).1, FeedAll(Fresh, data[..j]);
            |out| >= |before| && (s.mode.InSeq? || |out| > |before|)
  {
    FeedPrefix(data, j - 1);
    if j == i + 1 {
      KeptAt(data, i);
    } else {
      EscapeMoves(data, i, j - 1);
    }
  }

  lemma {:induction false} FirstFailure(data: seq<byte>) returns (k: nat)
    requires !EscapesReprint(data)
    ensures k < |data| && EscapesReprint(data[..k]) && !EscapeReprints(FeedAll(Fresh, data[..k]).0, data[k])
  {
    var n := |data| - 1;
    if EscapesReprint(data[..n]) {
      k := n;
    } else {
      k := FirstFailure(data[..n]);
      assert data[..n][..k] == data[..k];
    }
  }

  /** An escape that overtakes text is printed right behind what came out before it. */
  lemma EscapePrinted(es: seq<Element>, csi: bool, k: nat, out: seq<Element>)
    requires Reprints(es, csi) && k < |PrintAll(es, csi)|
    requires var printed := PrintAll(es, csi);
             var (s, before) := FeedAll(Fresh, printed[..k]);
             before == out && StreamFeed(s, printed[k]).1 == [ControlChar(ESC)]
    ensures var printed, m := PrintAll(es, csi), |PrintAll(out, csi)|;
            m < |printed| && printed[..m] == PrintAll(out, csi) && printed[m] == ESC
  {
    var printed := PrintAll(es, csi);
    FeedPrefix(printed, k);
    var (s, some) := FeedAll(Fresh, printed[..k + 1]);
    FeedAllSplits(Fresh, printed[..k + 1], printed[k + 1..]);
    assert printed == printed[..k + 1] + printed[k + 1..];
    assert some == out + [ControlChar(ESC)];
    assert some <= ParseWhole(printed);
    assert es == out + [ControlChar(ESC)] + es[|some|..];
    PrintAllConcat(out + [ControlChar(ESC)], es[|some|..], csi);
    PrintSnoc(out, ControlChar(ESC), csi);
  }

  /** What has come out when an escape overtakes text leaves nothing open but that text. */
  lemma BeforeOvertaking(s: Stream, out: seq<Element>)
    requires s.mode.Escape? && s.text != [] && ParsesNormal(s, out)
    ensures PhaseOf(out).Clear? || PhaseOf(out).Escaped?
  {
    PhaseFlushed(out, s.text);
  }

  /** Such an escape would be met a second time, with nothing having come out in between. */
  lemma NoOvertaking(printed: seq<byte>, k: nat, m: nat, out: seq<Element>)
    requires AllKept(printed) && k < |printed| && m < |printed| && printed[m] == ESC
    requires var (s, before) := FeedAll(Fresh, printed[..k]); s.mode.Escape? && before == out
    requires var (s, before) := FeedAll(Fresh, printed[..m]);
             (s == Fresh && before == out) || s == Stream(Escape, [])
    ensures FeedAll(Fresh, printed[..k]).0.text == []
  {
    KeptAt(printed, m);
    FeedPrefix(printed, m);
    assert out + [] == out;
    if k < m + 1 {
      EscapeMoves(printed, k, m + 1);
    } else if m + 1 < k {
      EscapeMoves(printed, m + 1, k);
    }
  }

  lemma ReprintsInOrder(es: seq<Element>, csi: bool)
    requires Reprints(es, csi)
    ensures EscapesReprint(PrintAll(es, csi))
  {
    var printed := PrintAll(es, csi);
    ReprintsKeeps(es, csi);
    if !EscapesReprint(printed) {
      var k := FirstFailure(printed);
      var (s, out) := FeedAll(Fresh, printed[..k]);
      KeptAt(printed, k);
      InOrderParsesNormal(printed[..k]);
      BeforeOvertaking(s, out);
      EscapePrinted(es, csi, k, out);
      PrintedStands(out, csi);
      NoOvertaking(printed, k, |PrintAll(out, csi)|, out);
    }
  }

  // ----- the normal form, exactly -----

  /**
   Any list of elements comes back from printing and parsing if and only if it is in normal form, whichever introducer
   is printed.
   */
  lemma NormalFormIff(es: seq<Element>, csi: bool)
    ensures Reprints(es, csi) <==> Normal(es)
  {
    if Normal(es) {
      NormalReprints(es, csi);
    }
    if Reprints(es, csi) {
      ReprintsInOrder(es, csi);
      InOrderParsesNormal(PrintAll(es, csi));
    }
  }

  /** The byte of the two 7 bit forms that counts as text breaks the normal form. */
  lemma {:induction false} MappedBreaks(data: seq<byte>)
    requires EscapesInOrder(data) && !EscapesReprint(data)
    ensures PhaseOf(FeedAll(Fresh, data).1).Broken?
  {
    var n := |data| - 1;
    var (s, out) := FeedAll(Fresh, data[..n]);
    if EscapesReprint(data[..n]) {
      PhaseSnoc(out, ControlChar(data[n] + 0x40));
    } else {
      MappedBreaks(data[..n]);
      BrokenStays(out, StreamFeed(s, data[n]).1);
    }
  }

  /**
   The elements of a complete input with all escapes in order come back if and only if none of its escapes is followed by
   one of the two bytes whose 8 bit form counts as text.
   */
  lemma InOrderReprintsIff(data: seq<byte>, csi: bool)
    requires Complete(data) && EscapesInOrder(data)
    ensures Reprints(ParseWhole(data), csi) <==> EscapesReprint(data)
  {
    var (s, out) := FeedAll(Fresh, data);
    NormalFormIff(ParseWhole(data), csi);
    if EscapesReprint(data) {
      InOrderParsesNormal(data);
    } else {
      MappedBreaks(data);
      BrokenStays(out, FlushText(s.text));
    }
  }

  // ----- inputs whose elements do not come back -----

  /** ESC `@` comes back as text. */
  lemma MappedTextIsNoNormalForm(csi: bool)
    ensures Complete([ESC, 0x40]) && EscapesInOrder([ESC, 0x40])
    ensures ParseWhole([ESC, 0x40]) == [ControlChar(0x80)]
    ensures ParseWhole(PrintAll([ControlChar(0x80)], csi)) == [Text([0x80])]
    ensures !EscapesReprint([ESC, 0x40])
  {
    FeedAllOne(Fresh, ESC);
    FeedAllSnoc(Fresh, [ESC], 0x40);
    assert [ESC] + [0x40] == [ESC, 0x40];
    assert [ESC, 0x40][..1] == [ESC] && [ESC][..0] == [];
    PrintOne(ControlChar(0x80), csi);
    FeedAllOne(Fresh, 0x80);
  }

  /** An escape before one byte of text and behind another. */
  lemma OvertakenText(b: byte, c: byte)
    requires !IsControl(b) && b != ESC && b != CSI && !IsControl(c) && !IsMapped(c)
    ensures FeedAll(Fresh, [b, ESC, c]) == (Stream(Ground, [b, c]), [ControlChar(ESC)])
    ensures ParseWhole([b, ESC, c]) == [ControlChar(ESC), Text([b, c])]
    ensures PhaseOf(ParseWhole([b, ESC, c])) == AfterText(Escaped, [b, c])
  {
    var none: seq<Element> := [];
    assert none + none == none && none + [ControlChar(ESC)] == [ControlChar(ESC)];
    FeedAllOne(Fresh, b);
    assert [] + [b] == [b] && [b] + [c] == [b, c];
    FeedAllSnoc(Fresh, [b], ESC);
    assert [b] + [ESC] == [b, ESC];
    FeedAllSnoc(Fresh, [b, ESC], c);
    assert [b, ESC] + [c] == [b, ESC, c];
    PhaseSnoc([], ControlChar(ESC));
    assert [] + [ControlChar(ESC)] == [ControlChar(ESC)];
    PhaseSnoc([ControlChar(ESC)], Text([b, c]));
  }

  /** `[ ESC 7` is out of order, and its elements come back as a sequence that has not ended. */
  lemma BracketIsNoNormalForm(csi: bool)
    ensures Complete([BRACKET, ESC, 0x37]) && ParseWhole([BRACKET, ESC, 0x37]) == [ControlChar(ESC), Text([BRACKET, 0x37])]
    ensures !Reprints(ParseWhole([BRACKET, ESC, 0x37]), csi)
    ensures FeedAll(Fresh, [ESC, BRACKET, 0x37]).0.mode.InSeq?
  {
    OvertakenText(BRACKET, 0x37);
    NormalFormIff(ParseWhole([BRACKET, ESC, 0x37]), csi);
    SevenIsNoAbort();
    FeedAllOne(Fresh, ESC);
    FeedAllSnoc(Fresh, [ESC], BRACKET);
    FeedAllSnoc(Fresh, [ESC, BRACKET], 0x37);
    assert [ESC] + [BRACKET] == [ESC, BRACKET] && [ESC, BRACKET] + [0x37] == [ESC, BRACKET, 0x37];
  }

  lemma SevenIsNoAbort()
    ensures !AbortBody([BRACKET, 0x37][1..])
  {
    assert [BRACKET, 0x37][1..] == [0x37] && [] + [0x37] == [0x37];
    assert FieldOk([]) && !HasNumber([]);
    BodyOkGrows([], 0x37);
  }

  /** `a ESC 7` is out of order as well, and comes back. */
  lemma OutOfOrderMayReprint(csi: bool)
    ensures !EscapesInOrder([0x61, ESC, 0x37]) && Reprints(ParseWhole([0x61, ESC, 0x37]), csi)
  {
    EscapeOvertakes();
    OvertakenText(0x61, 0x37);
    NormalFormIff(ParseWhole([0x61, ESC, 0x37]), csi);
  }
}
