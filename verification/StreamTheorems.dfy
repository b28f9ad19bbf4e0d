/**
 Whole-stream properties of the console codec: printing and parsing undo each other, no byte
 of the input is lost or moved, and what the parser produces is a normal form.
 */
module StreamTheorems {
  import opened Common
  import opened Decimal
  import opened ControlStream
  import opened SequenceGrammar

  // ----- feeding in pieces -----

  /** Feeding a stream in any two pieces is feeding it at once. */
  lemma FeedAllSplits(s: Stream, a: seq<byte>, b: seq<byte>)
    ensures FeedAll(s, a + b) ==
              (FeedAll(FeedAll(s, a).0, b).0, FeedAll(s, a).1 + FeedAll(FeedAll(s, a).0, b).1)
  {
    RunSplits(StreamFeed, s, a, b);
  }

  lemma FeedAllOne(s: Stream, b: byte)
    ensures FeedAll(s, [b]) == StreamFeed(s, b)
  {
    RunOne(StreamFeed, s, b);
  }

  lemma FeedAllSnoc(s: Stream, a: seq<byte>, b: byte)
    ensures FeedAll(s, a + [b]) ==
              (StreamFeed(FeedAll(s, a).0, b).0, FeedAll(s, a).1 + StreamFeed(FeedAll(s, a).0, b).1)
  {
    RunSnoc(StreamFeed, s, a, b);
  }

  /** While the parser asks for more, the stream stays inside the sequence and emits nothing. */
  lemma {:induction false} FeedAllBody(text: seq<byte>, p: Parser, body: seq<byte>)
    requires RunParser(p, body).More?
    ensures FeedAll(Stream(InSeq(p), text), body) == (Stream(InSeq(RunParser(p, body).next), text), [])
  {
    if body != [] {
      var n := |body| - 1;
      FeedAllBody(text, p, body[..n]);
      var nothing: seq<Element> := [];
      assert nothing + nothing == nothing;
    }
  }

  // ----- printing a sequence and reading it back -----

  lemma {:induction false} DigitsKeepFieldOk(f: seq<byte>, ds: seq<byte>)
    requires FieldOk(f) && AllDigits(ds)
    ensures FieldOk(f + ds)
  {
    if ds == [] {
      assert f + ds == f;
    } else {
      var n := |ds| - 1;
      DigitsKeepFieldOk(f, ds[..n]);
      FieldOkGrows(f + ds[..n], ds[n]);
      assert f + ds[..n] + [ds[n]] == f + ds;
    }
  }

  /** What may stand before the digits of a printed number. */
  function Lead(v: int, marked: bool): seq<byte> {
    (if marked then [GREATER] else []) + (if v < 0 then [MINUS] else [])
  }

  lemma LeadOk(v: int, marked: bool)
    ensures FieldOk(Lead(v, marked))
  {
    var mark: seq<byte> := if marked then [GREATER] else [];
    MarkOk(marked);
    if v < 0 {
      FieldOkGrows(mark, MINUS);
    } else {
      assert mark + [] == mark;
    }
  }

  lemma MarkOk(marked: bool)
    ensures var mark: seq<byte> := if marked then [GREATER] else []; FieldOk(mark) && !HasNumber(mark)
  {
    assert FieldOk([]) && !HasNumber([]);
    FieldOkGrows([], GREATER);
    HasNumberGrows([], GREATER);
    assert [] + [GREATER] == [GREATER];
  }

  /** A printed number, marked or not, is a well-formed field with that value. */
  lemma NumberField(v: int, marked: bool)
    ensures var f := (if marked then [GREATER] else []) + Dec(v);
            && FieldOk(f) && HasNumber(f) && SEMICOLON !in f
            && FieldValue(f) == v && (GREATER in f <==> marked)
  {
    var m: nat := if v < 0 then -v else v;
    DigitsRoundTrip(m);
    SignedDigits(v, marked, Digits(m));
    LeadThenDigits(v, marked, m);
  }

  lemma LeadThenDigits(v: int, marked: bool, m: nat)
    requires m == if v < 0 then -v else v
    ensures (if marked then [GREATER] else []) + Dec(v) == Lead(v, marked) + Digits(m)
  {
    var mark: seq<byte> := if marked then [GREATER] else [];
    Assoc(mark, [MINUS], Digits(m));
    assert mark + [] == mark;
  }

  lemma SignedDigits(v: int, marked: bool, ds: seq<byte>)
    requires AllDigits(ds) && |ds| > 0 && DigitsValue(ds) == if v < 0 then -v else v
    ensures var f := Lead(v, marked) + ds;
            && FieldOk(f) && HasNumber(f) && SEMICOLON !in f
            && FieldValue(f) == v && (GREATER in f <==> marked)
  {
    var lead := Lead(v, marked);
    LeadOk(v, marked);
    DigitsKeepFieldOk(lead, ds);
    DigitsValueSkips(lead, ds);
    LeadAndDigits(v, marked, ds);
  }

  lemma LeadAndDigits(v: int, marked: bool, ds: seq<byte>)
    requires AllDigits(ds) && |ds| > 0
    ensures var f := Lead(v, marked) + ds;
            && HasNumber(f) && SEMICOLON !in f
            && Sign(f) == (if v < 0 then -1 else 1)
            && (GREATER in f <==> marked)
  {
    var lead := Lead(v, marked);
    var f := lead + ds;
    assert StartsNumber(f[|f| - 1]);
    assert MINUS in lead <==> v < 0;
    assert GREATER in lead <==> marked;
  }

  lemma {:induction false} NoDigitsNoValue(f: seq<byte>)
    requires forall i :: 0 <= i < |f| ==> !IsDigit(f[i])
    ensures DigitsValue(f) == 0
  {
    if f != [] {
      NoDigitsNoValue(f[..|f| - 1]);
    }
  }

  lemma {:induction false} DigitsValueSkips(lead: seq<byte>, ds: seq<byte>)
    requires forall i :: 0 <= i < |lead| ==> !IsDigit(lead[i])
    ensures DigitsValue(lead + ds) == DigitsValue(ds)
  {
    if ds == [] {
      assert lead + ds == lead;
      NoDigitsNoValue(lead);
    } else {
      DigitsValueSkips(lead, ds[..|ds| - 1]);
      assert (lead + ds)[..|lead + ds| - 1] == lead + ds[..|ds| - 1];
    }
  }

  /** Appending semicolon-free bytes only extends the open field. */
  lemma {:induction false} FieldsExtend(body: seq<byte>, more: seq<byte>)
    requires SEMICOLON !in more
    ensures ClosedFields(body + more) == ClosedFields(body) && OpenField(body + more) == OpenField(body) + more
  {
    if more == [] {
      assert body + more == body && OpenField(body) + more == OpenField(body);
    } else {
      var n := |more| - 1;
      FieldsExtend(body, more[..n]);
      FieldsGrow(body + more[..n], more[n]);
      assert body + more[..n] + [more[n]] == body + more;
      assert OpenField(body) + more[..n] + [more[n]] == OpenField(body) + more;
    }
  }

  /** The printed text of each parameter is its own field. */
  function ParamFields(params: seq<Option<int>>): (fs: seq<seq<byte>>)
    ensures |fs| == |params|
  {
    if params == [] then [] else ParamFields(params[..|params| - 1]) + [ParamBytes(params[|params| - 1])]
  }

  lemma ParamIsField(p: Option<int>)
    ensures FieldOk(ParamBytes(p)) && SEMICOLON !in ParamBytes(p) && GREATER !in ParamBytes(p)
    ensures FieldValue(ParamBytes(p)) == (if p.Some? then p.value else 0)
    ensures HasNumber(ParamBytes(p)) <==> p.Some?
  {
    if p.Some? {
      NumberField(p.value, false);
      assert [] + Dec(p.value) == Dec(p.value);
    }
  }

  lemma FieldsAfterSemicolon(joined: seq<byte>, last: seq<byte>)
    requires SEMICOLON !in last
    ensures ClosedFields(joined + [SEMICOLON] + last) == Fields(joined)
    ensures OpenField(joined + [SEMICOLON] + last) == last
    ensures Fields(joined + [SEMICOLON] + last) == Fields(joined) + [last]
  {
    var all := joined + [SEMICOLON] + last;
    FieldsGrow(joined, SEMICOLON);
    FieldsExtend(joined + [SEMICOLON], last);
    assert [] + last == last;
    assert Fields(all) == ClosedFields(all) + [OpenField(all)];
  }

  lemma SingleField(f: seq<byte>)
    requires SEMICOLON !in f
    ensures Fields(f) == [f]
  {
    FieldsExtend([], f);
    assert [] + f == f;
    assert Fields(f) == ClosedFields(f) + [OpenField(f)];
  }

  lemma {:induction false} JoinedFields(params: seq<Option<int>>)
    requires params != []
    ensures Fields(JoinParams(params)) == ParamFields(params)
  {
    var n := |params| - 1;
    ParamIsField(params[n]);
    if n == 0 {
      SingleField(ParamBytes(params[n]));
      assert params[..0] == [] && ParamFields([]) == [];
      assert JoinParams(params) == ParamBytes(params[n]);
    } else {
      JoinedFields(params[..n]);
      FieldsAfterSemicolon(JoinParams(params[..n]), ParamBytes(params[n]));
      Assoc(JoinParams(params[..n]), [SEMICOLON], ParamBytes(params[n]));
    }
  }

  /** A left-out parameter comes back as zero. */
  function Zeroed(params: seq<Option<int>>): seq<Option<int>> {
    seq(|params|, i requires 0 <= i < |params| => if params[i].Some? then params[i] else Some(0))
  }

  /** What printing and parsing make of the parameters: a trailing left-out one with no special is lost. */
  function ReadBack(params: seq<Option<int>>, special: Option<int>): seq<Option<int>> {
    if special.None? && params != [] && params[|params| - 1].None?
    then Zeroed(params[..|params| - 1])
    else Zeroed(params)
  }

  lemma {:induction false} ParamFieldsMean(params: seq<Option<int>>)
    ensures PlainParams(ParamFields(params)) == Zeroed(params)
    ensures SpecialParam(ParamFields(params)) == None
    ensures forall f :: f in ParamFields(params) ==> FieldOk(f)
  {
    if params != [] {
      var n := |params| - 1;
      ParamFieldsMean(params[..n]);
      ParamIsField(params[n]);
      assert ParamFields(params)[..n] == ParamFields(params[..n]);
      assert Zeroed(params) == Zeroed(params[..n]) + [if params[n].Some? then params[n] else Some(0)];
    }
  }

  lemma BodyMeans(params: seq<Option<int>>, special: Option<int>, key: byte)
    ensures BodyOk(BodyBytes(params, special))
    ensures Meaning(BodyBytes(params, special), key) == ControlSeq(key, ReadBack(params, special), special)
  {
    match special
    case None => PlainBodyMeans(params, key);
    case Some(v) => SpecialBodyMeans(params, v, key);
  }

  lemma PlainBodyMeans(params: seq<Option<int>>, key: byte)
    ensures BodyOk(JoinParams(params))
    ensures Meaning(JoinParams(params), key) == ControlSeq(key, ReadBack(params, None), None)
  {
    assert FieldOk([]) && !HasNumber([]);
    if params != [] {
      var n := |params| - 1;
      JoinedFields(params);
      ParamIsField(params[n]);
      ParamFieldsMean(params);
      ParamFieldsMean(params[..n]);
      assert ParamFields(params) == ParamFields(params[..n]) + [ParamBytes(params[n])];
    }
  }

  lemma SpecialFields(params: seq<Option<int>>, last: seq<byte>)
    requires SEMICOLON !in last
    ensures Fields(JoinParams(params) + Separator(params == []) + last) == ParamFields(params) + [last]
  {
    if params == [] {
      SingleField(last);
      assert JoinParams(params) + Separator(params == []) + last == last;
    } else {
      JoinedFields(params);
      FieldsAfterSemicolon(JoinParams(params), last);
    }
  }

  lemma SpecialBodyMeans(params: seq<Option<int>>, v: int, key: byte)
    ensures BodyOk(BodyBytes(params, Some(v)))
    ensures Meaning(BodyBytes(params, Some(v)), key) == ControlSeq(key, Zeroed(params), Some(v))
  {
    NumberField(v, true);
    SpecialFields(params, SpecialBytes(v));
    ParamFieldsMean(params);
    MarkedFieldMeans(BodyBytes(params, Some(v)), ParamFields(params), SpecialBytes(v), key);
  }

  /** A last field with the mark gives the special parameter. */
  lemma MarkedFieldMeans(body: seq<byte>, fs: seq<seq<byte>>, f: seq<byte>, key: byte)
    requires Fields(body) == fs + [f] && FieldOk(f) && HasNumber(f) && GREATER in f
    requires forall g :: g in fs ==> FieldOk(g)
    ensures BodyOk(body) && Meaning(body, key) == ControlSeq(key, PlainParams(fs), Some(FieldValue(f)))
  {
    assert OpenField(body) == f;
    LastFieldMeans(fs, f);
    assert PlainParams(fs) + [] == PlainParams(fs);
  }

  /**
   Print then parse, from ground state with any text pending: the pending text and then exactly the printed
   sequence come out, whatever the parameters, and the stream is back in ground state.
   */
  lemma PrintParse(text: seq<byte>, key: byte, params: seq<Option<int>>, special: Option<int>, csi: bool)
    requires IsTerminator(key)
    ensures FeedAll(Stream(Ground, text), SeqBytes(key, params, special, csi)) ==
              (Fresh, FlushText(text) + [ControlSeq(key, ReadBack(params, special), special)])
  {
    var s0 := Stream(Ground, text);
    var body := BodyBytes(params, special);
    BodyMeans(params, special, key);
    ParserMeansFields(csi, body, key);
    EnterSequence(text, csi);
    var inside := Stream(InSeq(NewParser(csi)), []);
    FeedAllBody([], NewParser(csi), body);
    FeedAllSplits(s0, Intro(csi), body);
    FeedAllSnoc(s0, Intro(csi) + body, key);
    assert FlushText(text) + [] == FlushText(text);
  }

  lemma EnterSequence(text: seq<byte>, csi: bool)
    ensures FeedAll(Stream(Ground, text), Intro(csi)) == (Stream(InSeq(NewParser(csi)), []), FlushText(text))
  {
    var s0 := Stream(Ground, text);
    if csi {
      FeedAllOne(s0, CSI);
    } else {
      FeedAllOne(s0, ESC);
      FeedAllSnoc(s0, [ESC], BRACKET);
      assert [ESC] + [BRACKET] == Intro(false);
      assert [] + FlushText(text) == FlushText(text);
    }
  }

  /** Sequences whose parameters are all present, and only those, survive the round trip unchanged. */
  lemma PrintParseIdentity(key: byte, params: seq<Option<int>>, special: Option<int>, csi: bool)
    requires IsTerminator(key)
    ensures FeedAll(Fresh, SeqBytes(key, params, special, csi)).1 == [ControlSeq(key, params, special)]
            <==> forall i :: 0 <= i < |params| ==> params[i].Some?
  {
    PrintParse([], key, params, special, csi);
    var back := ReadBack(params, special);
    assert FlushText([]) + [ControlSeq(key, back, special)] == [ControlSeq(key, back, special)];
    if back == params {
      assert forall i :: 0 <= i < |params| ==> back[i].Some?;
    }
    if forall i :: 0 <= i < |params| ==> params[i].Some? {
      assert back == params;
    }
  }
}
