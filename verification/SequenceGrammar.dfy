/**
 What a control sequence means, stated on its whole body at once and without a parser:
 the body is cut at the semicolons and every field is read on its own. The incremental
 parser is then shown to accept exactly these bodies and to compute exactly this meaning.
 */
module SequenceGrammar {
  import opened Common
  import opened Decimal
  import opened ControlStream

  function Fields(body: seq<byte>): (fs: seq<seq<byte>>)
    ensures |fs| > 0
  {
    if body == [] then [[]]
    else
      var fs := Fields(body[..|body| - 1]);
      var b := body[|body| - 1];
      if b == SEMICOLON then fs + [[]] else fs[|fs| - 1 := fs[|fs| - 1] + [b]]
  }

  function OpenField(body: seq<byte>): seq<byte> {
    Fields(body)[|Fields(body)| - 1]
  }

  function ClosedFields(body: seq<byte>): seq<seq<byte>> {
    Fields(body)[..|Fields(body)| - 1]
  }

  predicate StartsNumber(b: byte) { IsDigit(b) || b == PLUS || b == MINUS }

  predicate HasNumber(f: seq<byte>) { exists i :: 0 <= i < |f| && StartsNumber(f[i]) }

  /** Before the number: spaces and the special mark. From its sign or first digit on: digits and spaces. */
  predicate MayFollow(before: seq<byte>, b: byte) {
    IsDigit(b) || b == SPACE || (!HasNumber(before) && (b == PLUS || b == MINUS || b == GREATER))
  }

  predicate FieldOk(f: seq<byte>) { forall i :: 0 <= i < |f| ==> MayFollow(f[..i], f[i]) }

  predicate BodyOk(body: seq<byte>) { forall f :: f in Fields(body) ==> FieldOk(f) }

  function Sign(f: seq<byte>): int { if MINUS in f then -1 else 1 }

  function FieldValue(f: seq<byte>): int { DigitsValue(f) * Sign(f) }

  /** The plain parameters are the values of the fields without special mark. */
  function PlainParams(fs: seq<seq<byte>>): seq<Option<int>> {
    if fs == [] then []
    else
      var f := fs[|fs| - 1];
      PlainParams(fs[..|fs| - 1]) + (if GREATER in f then [] else [Some(FieldValue(f))])
  }

  /** The special parameter is the value of the last field that carries the mark. */
  function SpecialParam(fs: seq<seq<byte>>): Option<int> {
    if fs == [] then None
    else if GREATER in fs[|fs| - 1] then Some(FieldValue(fs[|fs| - 1]))
    else SpecialParam(fs[..|fs| - 1])
  }

  /** The last field counts only when it holds a number. */
  function CountedFields(body: seq<byte>): seq<seq<byte>> {
    if HasNumber(OpenField(body)) then Fields(body) else ClosedFields(body)
  }

  function Meaning(body: seq<byte>, key: byte): Element {
    ControlSeq(key, PlainParams(CountedFields(body)), SpecialParam(CountedFields(body)))
  }

  // ----- growing a body by one byte -----

  lemma HasNumberGrows(f: seq<byte>, b: byte)
    ensures HasNumber(f + [b]) <==> HasNumber(f) || StartsNumber(b)
  {
    var g := f + [b];
    if HasNumber(f) {
      var i :| 0 <= i < |f| && StartsNumber(f[i]);
      assert StartsNumber(g[i]);
    }
    if StartsNumber(b) {
      assert StartsNumber(g[|f|]);
    }
  }

  lemma FieldOkGrows(f: seq<byte>, b: byte)
    ensures FieldOk(f + [b]) <==> FieldOk(f) && MayFollow(f, b)
  {
    var g := f + [b];
    assert g[..|f|] == f && g[|f|] == b;
    if FieldOk(g) {
      forall i | 0 <= i < |f| ensures MayFollow(f[..i], f[i]) {
        assert g[..i] == f[..i] && g[i] == f[i];
        assert MayFollow(g[..i], g[i]);
      }
    }
    if FieldOk(f) && MayFollow(f, b) {
      forall i | 0 <= i < |g| ensures MayFollow(g[..i], g[i]) {
        if i < |f| {
          assert g[..i] == f[..i];
        }
      }
    }
  }

  lemma FieldsGrow(body: seq<byte>, b: byte)
    ensures b == SEMICOLON ==> ClosedFields(body + [b]) == Fields(body) && OpenField(body + [b]) == []
    ensures b != SEMICOLON ==>
              ClosedFields(body + [b]) == ClosedFields(body) && OpenField(body + [b]) == OpenField(body) + [b]
  {
    assert (body + [b])[..|body|] == body;
  }

  lemma BodyOkGrows(body: seq<byte>, b: byte)
    ensures BodyOk(body + [b]) <==> BodyOk(body) && (b == SEMICOLON || MayFollow(OpenField(body), b))
  {
    var fs, gs := Fields(body), Fields(body + [b]);
    FieldsGrow(body, b);
    FieldOkGrows(OpenField(body), b);
    assert fs == ClosedFields(body) + [OpenField(body)];
    assert gs == ClosedFields(body + [b]) + [OpenField(body + [b])];
    assert FieldOk([]);
  }

  // ----- the parser computes the meaning -----

  function RunParser(p: Parser, body: seq<byte>): ParserResult {
    if body == [] then More(p)
    else
      match RunParser(p, body[..|body| - 1])
      case More(q) => ParserFeed(q, body[|body| - 1])
      case Done(elems) => Done(elems)
  }

  /** The parser after an accepted body, read off the fields of that body. */
  function ParserAt(csi: bool, body: seq<byte>): Parser { ParserWith(csi, body, ClosedFields(body), OpenField(body)) }

  function ParserWith(csi: bool, body: seq<byte>, closed: seq<seq<byte>>, f: seq<byte>): Parser {
    Parser(csi, body, PlainParams(closed), HasNumber(f), Sign(f), DigitsValue(f), SpecialParam(closed), GREATER in f)
  }

  lemma LastFieldMeans(fs: seq<seq<byte>>, f: seq<byte>)
    ensures PlainParams(fs + [f]) == PlainParams(fs) + (if GREATER in f then [] else [Some(FieldValue(f))])
    ensures SpecialParam(fs + [f]) == if GREATER in f then Some(FieldValue(f)) else SpecialParam(fs)
  {
    assert (fs + [f])[..|fs|] == fs;
  }

  lemma ClosingAField(csi: bool, body: seq<byte>)
    ensures var q := EndParam(ParserAt(csi, body));
            q.params == PlainParams(Fields(body)) && q.special == SpecialParam(Fields(body))
  {
    assert Fields(body) == ClosedFields(body) + [OpenField(body)];
    LastFieldMeans(ClosedFields(body), OpenField(body));
    assert PlainParams(ClosedFields(body)) + [] == PlainParams(ClosedFields(body));
  }

  lemma AcceptedByte(csi: bool, body: seq<byte>, b: byte)
    requires BodyOk(body) && !IsTerminator(b)
    ensures ParserFeed(ParserAt(csi, body), b) ==
              if BodyOk(body + [b]) then More(ParserAt(csi, body + [b]))
              else Done(Abort(NewParser(csi).(raw := body + [b])))
  {
    BodyOkGrows(body, b);
    if b == SEMICOLON {
      FieldsGrow(body, b);
      ClosingAField(csi, body);
      assert !HasNumber([]);
    } else if MayFollow(OpenField(body), b) {
      ByteInField(csi, body, b);
    } else {
      ByteRefused(csi, body, b);
    }
  }

  lemma FieldGrows(f: seq<byte>, b: byte)
    ensures MINUS in f + [b] <==> MINUS in f || b == MINUS
    ensures GREATER in f + [b] <==> GREATER in f || b == GREATER
    ensures DigitsValue(f + [b]) == if IsDigit(b) then DigitsValue(f) * 10 + b - 0x30 else DigitsValue(f)
  {
    assert (f + [b])[..|f|] == f;
  }

  lemma ByteInField(csi: bool, body: seq<byte>, b: byte)
    requires !IsTerminator(b) && b != SEMICOLON && MayFollow(OpenField(body), b)
    ensures ParserFeed(ParserAt(csi, body), b) == More(ParserAt(csi, body + [b]))
  {
    FieldsGrow(body, b);
    FieldByte(csi, body, ClosedFields(body), OpenField(body), b);
  }

  lemma FieldByte(csi: bool, body: seq<byte>, closed: seq<seq<byte>>, f: seq<byte>, b: byte)
    requires !IsTerminator(b) && b != SEMICOLON && MayFollow(f, b)
    ensures ParserFeed(ParserWith(csi, body, closed, f), b) == More(ParserWith(csi, body + [b], closed, f + [b]))
  {
    HasNumberGrows(f, b);
    FieldGrows(f, b);
    NoNumberNoValue(f);
  }

  lemma ByteRefused(csi: bool, body: seq<byte>, b: byte)
    requires !IsTerminator(b) && b != SEMICOLON && !MayFollow(OpenField(body), b)
    ensures ParserFeed(ParserAt(csi, body), b) == Done(Abort(NewParser(csi).(raw := body + [b])))
  {
  }

  lemma {:induction false} NoNumberNoValue(f: seq<byte>)
    ensures !HasNumber(f) ==> DigitsValue(f) == 0 && MINUS !in f
  {
    if f != [] && !HasNumber(f) {
      var g := f[..|f| - 1];
      NoNumberNoValue(g);
      assert f == g + [f[|f| - 1]];
      assert !StartsNumber(f[|f| - 1]);
    }
  }

  /** Byte by byte or all at once: an accepted body leaves the parser in the state its fields describe. */
  lemma {:induction false} ParserTracksFields(csi: bool, body: seq<byte>)
    requires BodyOk(body)
    ensures RunParser(NewParser(csi), body) == More(ParserAt(csi, body))
  {
    if body == [] {
      assert !HasNumber([]);
    } else {
      var n := |body| - 1;
      assert body == body[..n] + [body[n]];
      BodyOkGrows(body[..n], body[n]);
      ParserTracksFields(csi, body[..n]);
      AcceptedByte(csi, body[..n], body[n]);
    }
  }

  /** The terminator turns an accepted body into exactly its meaning. */
  lemma ParserMeansFields(csi: bool, body: seq<byte>, key: byte)
    requires BodyOk(body) && IsTerminator(key)
    ensures RunParser(NewParser(csi), body) == More(ParserAt(csi, body))
    ensures ParserFeed(ParserAt(csi, body), key) == Done([Meaning(body, key)])
  {
    ParserTracksFields(csi, body);
    ClosingAField(csi, body);
  }

  lemma RunOneMore(csi: bool, body: seq<byte>, b: byte)
    requires BodyOk(body)
    ensures RunParser(NewParser(csi), body + [b]) == ParserFeed(ParserAt(csi, body), b)
  {
    ParserTracksFields(csi, body);
    assert (body + [b])[..|body|] == body;
  }

  lemma AbortText(csi: bool, body: seq<byte>, b: byte)
    ensures var intro := if csi then [ControlChar(CSI)] else [ControlChar(ESC)];
            var lead := if csi then [] else [BRACKET];
            Abort(NewParser(csi).(raw := body + [b])) == intro + [Text(lead + body + [b])]
  {
    if csi {
      assert [] + body == body;
    } else {
      Assoc([BRACKET], body, [b]);
    }
  }

  /** A body is refused exactly at the first byte that makes it ill-formed, and given back unmodified. */
  lemma ParserRefusesFields(csi: bool, body: seq<byte>, b: byte)
    requires BodyOk(body) && !IsTerminator(b)
    ensures RunParser(NewParser(csi), body + [b]).Done? <==> !BodyOk(body + [b])
    ensures !BodyOk(body + [b]) ==>
              var intro := if csi then [ControlChar(CSI)] else [ControlChar(ESC)];
              var lead := if csi then [] else [BRACKET];
              RunParser(NewParser(csi), body + [b]) == Done(intro + [Text(lead + body + [b])])
  {
    RunOneMore(csi, body, b);
    AcceptedByte(csi, body, b);
    AbortText(csi, body, b);
  }
}
