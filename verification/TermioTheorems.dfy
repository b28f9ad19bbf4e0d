/** The C tools and the Python console speak the same language: parser against parser, expansion against both. */
module TermioTheorems {
  import opened Common
  import opened Decimal
  import opened ControlStream
  import opened SequenceGrammar
  import opened StreamTheorems
  import opened Termio
  import opened Events

  // ----- the two parsers -----

  function Words(params: seq<Option<int>>): seq<int> {
    seq(|params|, i requires 0 <= i < |params| => if params[i].Some? then Word(params[i].value) else 0)
  }

  /** A 16 bit argument is congruent to the unbounded one, and equal to it in the positive signed range. */
  lemma WordMeans(v: int)
    ensures (Word(v) - v) % 0x10000 == 0
    ensures Word(v) == v <==> -0x8000 <= v < 0x8000
  {
    if -0x8000 <= v < 0 {
      assert v % 0x10000 == v + 0x10000;
    }
  }

  predicate NoEmptyField(body: seq<byte>) {
    forall i :: 0 <= i < |ClosedFields(body)| ==> HasNumber(ClosedFields(body)[i])
  }

  lemma PlainFieldOk(f: seq<byte>)
    requires AllPlain(f) && SEMICOLON !in f
    ensures FieldOk(f) && Sign(f) == 1 && GREATER !in f && FieldValue(f) == DigitsValue(f)
  {
    forall i | 0 <= i < |f| ensures MayFollow(f[..i], f[i]) {
      assert f[i] in f;
    }
    assert MINUS !in f;
  }

  lemma {:induction false} PlainFields(body: seq<byte>)
    requires AllPlain(body)
    ensures forall i :: 0 <= i < |Fields(body)| ==> AllPlain(Fields(body)[i]) && SEMICOLON !in Fields(body)[i]
  {
    if body != [] {
      PlainFields(body[..|body| - 1]);
    }
  }

  lemma PlainBodyOk(body: seq<byte>)
    requires AllPlain(body)
    ensures BodyOk(body)
  {
    PlainFields(body);
    forall f | f in Fields(body) ensures FieldOk(f) {
      PlainFieldOk(f);
    }
  }

  lemma {:induction false} WordsOfPlain(fs: seq<seq<byte>>)
    requires forall i :: 0 <= i < |fs| ==> AllPlain(fs[i]) && SEMICOLON !in fs[i]
    ensures |PlainParams(fs)| == |fs| && |WordArgs(fs)| <= |fs| && SpecialParam(fs) == None
    ensures |WordArgs(fs)| == |fs| ==> WordArgs(fs) == Words(PlainParams(fs))
    ensures |WordArgs(fs)| == |fs| <==> forall i :: 0 <= i < |fs| ==> HasNumber(fs[i])
  {
    if fs != [] {
      var n := |fs| - 1;
      WordsOfPlain(fs[..n]);
      PlainFieldOk(fs[n]);
      assert Words(PlainParams(fs)) == Words(PlainParams(fs[..n])) + [Word(DigitsValue(fs[n]))];
      NumbersToo(fs, n);
    }
  }

  lemma NumbersToo(fs: seq<seq<byte>>, n: nat)
    requires n == |fs| - 1
    ensures (forall i :: 0 <= i < |fs| ==> HasNumber(fs[i])) <==>
              (forall i :: 0 <= i < |fs[..n]| ==> HasNumber(fs[..n][i])) && HasNumber(fs[n])
  {
    assert forall i :: 0 <= i < n ==> fs[..n][i] == fs[i];
  }

  /** What the two parsers return for the same terminated plain body. */
  lemma TerminatedAgree(csi: bool, rest: seq<byte>, start: nat)
    requires PlainPrefix(rest) < |rest| && IsTerminator(rest[PlainPrefix(rest)])
    ensures var body, key := rest[..PlainPrefix(rest)], rest[PlainPrefix(rest)];
            var params := PlainParams(CountedFields(body));
            && FeedAll(Fresh, Intro(csi) + body + [key]) == (Fresh, [ControlSeq(key, params, None)])
            && (CsiSpec(rest, start) == Parsed(key, Words(params), (start + |body|) % 0x10000)
                <==> NoEmptyField(body) && |params| <= MAX_CMD_ARGS)
  {
    var body, key := rest[..PlainPrefix(rest)], rest[PlainPrefix(rest)];
    PlainBodyOk(body);
    PlainMeaning(body, key);
    ReadBody(csi, body, key);
    ArgsAgree(body);
    ClosedArgsFewer(body);
  }

  lemma LoneSemicolon(body: seq<byte>)
    requires body == [SEMICOLON]
    ensures PlainParams(CountedFields(body)) == [Some(0)] && ClosedFields(body) == CountedFields(body)
    ensures WordArgs(CountedFields(body)) == []
  {
    var closed: seq<seq<byte>> := [[]];
    assert body == [] + [SEMICOLON];
    FieldsGrow([], SEMICOLON);
    assert ClosedFields(body) == closed && closed[..0] == [];
    assert !HasNumber([]) && PlainParams(closed[..0]) == [] && FieldValue([]) == 0;
    assert PlainParams(closed) == [] + [Some(0)];
  }

  /** For instance, a lone semicolon is a zero to one parser and nothing to the other. */
  lemma EmptyFieldDisagrees()
    ensures FeedAll(Fresh, [CSI, SEMICOLON, 0x6D]).1 == [ControlSeq(0x6D, [Some(0)], None)]
    ensures CsiSpec([SEMICOLON, 0x6D], 1) == Parsed(0x6D, [], 2)
  {
    var rest: seq<byte> := [SEMICOLON, 0x6D];
    var body := rest[..1];
    LoneSemicolon(body);
    PlainPrefixIs(rest, 1);
    TerminatedAgree(true, rest, 1);
    assert Intro(true) + body + [0x6D] == [CSI, SEMICOLON, 0x6D];
  }

  lemma PlainMeaning(body: seq<byte>, key: byte)
    requires AllPlain(body)
    ensures Meaning(body, key) == ControlSeq(key, PlainParams(CountedFields(body)), None)
  {
    PlainFields(body);
    WordsOfPlain(CountedFields(body));
  }

  lemma ClosedArgsFewer(body: seq<byte>)
    ensures |WordArgs(ClosedFields(body))| <= |WordArgs(CountedFields(body))|
  {
    assert Fields(body)[..|Fields(body)| - 1] == ClosedFields(body);
  }

  /** The C parser keeps all of Python's parameters exactly when no field before a semicolon is empty. */
  lemma ArgsAgree(body: seq<byte>)
    requires AllPlain(body)
    ensures var params := PlainParams(CountedFields(body));
            && |WordArgs(CountedFields(body))| <= |params|
            && (WordArgs(CountedFields(body)) == Words(params) <==> NoEmptyField(body))
            && (|WordArgs(CountedFields(body))| == |params| <==> NoEmptyField(body))
  {
    var fs, closed := CountedFields(body), ClosedFields(body);
    PlainFields(body);
    WordsOfPlain(fs);
    assert forall i :: 0 <= i < |closed| ==> fs[i] == closed[i];
    assert |fs| == |closed| || (|fs| == |closed| + 1 && HasNumber(fs[|closed|]));
  }

  lemma ReadBody(csi: bool, body: seq<byte>, key: byte)
    requires BodyOk(body) && IsTerminator(key)
    ensures FeedAll(Fresh, Intro(csi) + body + [key]) == (Fresh, [Meaning(body, key)])
  {
    InsideBody(csi, body);
    ParserMeansFields(csi, body, key);
    FeedAllSnoc(Fresh, Intro(csi) + body, key);
    var none: seq<Element> := [];
    assert none + [Meaning(body, key)] == [Meaning(body, key)];
  }

  /**
   On a byte that is neither plain nor a terminator the C parser gives up, and so does the Python parser, with
   the input unmodified, except exactly at a sign or special mark that may still open a field.
   */
  lemma RefusedAgree(csi: bool, rest: seq<byte>, start: nat)
    requires PlainPrefix(rest) < |rest| && !IsTerminator(rest[PlainPrefix(rest)])
    ensures CsiSpec(rest, start) == InvalidChar || CsiSpec(rest, start) == TooManyArgs
    ensures var body, b := rest[..PlainPrefix(rest)], rest[PlainPrefix(rest)];
            FeedAll(Fresh, Intro(csi) + body + [b]) == (Fresh, Abort(NewParser(csi).(raw := body + [b])))
            <==> !(b in [PLUS, MINUS, GREATER] && !HasNumber(OpenField(body)))
  {
    RefusedByte(csi, rest[..PlainPrefix(rest)], rest[PlainPrefix(rest)]);
  }

  lemma RefusedByte(csi: bool, body: seq<byte>, b: byte)
    requires AllPlain(body) && !IsPlain(b) && !IsTerminator(b)
    ensures FeedAll(Fresh, Intro(csi) + body + [b]) == (Fresh, Abort(NewParser(csi).(raw := body + [b])))
            <==> !(b in [PLUS, MINUS, GREATER] && !HasNumber(OpenField(body)))
  {
    PlainBodyOk(body);
    BodyOkGrows(body, b);
    OneMoreByte(csi, body, b);
  }

  lemma OneMoreByte(csi: bool, body: seq<byte>, b: byte)
    requires BodyOk(body) && !IsTerminator(b)
    ensures FeedAll(Fresh, Intro(csi) + body + [b]) ==
              if BodyOk(body + [b]) then (Stream(InSeq(ParserAt(csi, body + [b])), []), [])
              else (Fresh, Abort(NewParser(csi).(raw := body + [b])))
  {
    ByteInside(csi, body, b);
    InsideBody(csi, body);
    FeedAllSnoc(Fresh, Intro(csi) + body, b);
    NothingBefore(StreamFeed(Stream(InSeq(ParserAt(csi, body)), []), b).1);
  }

  lemma NothingBefore(es: seq<Element>)
    ensures [] + es == es
  {
  }

  lemma ByteInside(csi: bool, body: seq<byte>, b: byte)
    requires BodyOk(body) && !IsTerminator(b)
    ensures StreamFeed(Stream(InSeq(ParserAt(csi, body)), []), b) ==
              if BodyOk(body + [b]) then (Stream(InSeq(ParserAt(csi, body + [b])), []), [])
              else (Fresh, Abort(NewParser(csi).(raw := body + [b])))
  {
    AcceptedByte(csi, body, b);
  }

  lemma InsideBody(csi: bool, body: seq<byte>)
    requires BodyOk(body)
    ensures FeedAll(Fresh, Intro(csi) + body) == (Stream(InSeq(ParserAt(csi, body)), []), [])
  {
    EnterSequence([], csi);
    ParserTracksFields(csi, body);
    FeedAllBody([], NewParser(csi), body);
    FeedAllSplits(Fresh, Intro(csi), body);
    var none: seq<Element> := [];
    assert FlushText([]) + none == none;
  }

  // ----- expansion read back by both parsers -----

  function JoinArgs(args: seq<seq<byte>>): seq<byte> {
    if args == [] then []
    else
      var n := |args| - 1;
      JoinArgs(args[..n]) + Separator(n == 0) + args[n]
  }

  predicate Numbers(args: seq<seq<byte>>) {
    forall i :: 0 <= i < |args| ==> |args[i]| > 0 && AllDigits(args[i])
  }

  lemma {:induction false} JoinArgsShorter(args: seq<seq<byte>>, k: nat)
    requires k <= |args|
    ensures |JoinArgs(args[..k])| <= |JoinArgs(args)|
    decreases |args|
  {
    if k < |args| {
      JoinArgsShorter(args[..|args| - 1], k);
      assert args[..|args| - 1][..k] == args[..k];
    } else {
      assert args[..k] == args;
    }
  }

  lemma {:induction false} ExpandNumbers(params: seq<byte>, args: seq<seq<byte>>, k: nat, bufLen: int)
    requires k <= |args| <= |params| && Numbers(args)
    requires forall i :: 0 <= i < |params| ==> params[i] == 0x6E
    requires 1 + |JoinArgs(args)| <= bufLen
    ensures ExpandParams(params, args, k, 1, bufLen) == Expanded(JoinArgs(args[..k]))
  {
    if k > 0 {
      ExpandNumbers(params, args, k - 1, bufLen);
      JoinArgsShorter(args, k);
      assert args[..k][..k - 1] == args[..k - 1];
      ExpandNumber(args[k - 1], k == 1, JoinArgs(args[..k - 1]), bufLen);
    }
  }

  lemma ExpandNumber(input: seq<byte>, first: bool, before: seq<byte>, bufLen: int)
    requires |input| > 0 && AllDigits(input) && 1 + |before + Separator(first) + input| <= bufLen
    ensures ExpandNextSpec(0x6E, input, 1, first, before, bufLen) == Expanded(before + Separator(first) + input)
  {
    assert input[..|input|] == input;
  }

  lemma DigitsField(f: seq<byte>)
    requires |f| > 0 && AllDigits(f)
    ensures AllPlain(f) && SEMICOLON !in f && HasNumber(f)
  {
    assert StartsNumber(f[0]);
  }

  lemma {:induction false} JoinedArgFields(args: seq<seq<byte>>)
    requires Numbers(args) && args != []
    ensures Fields(JoinArgs(args)) == args && AllPlain(JoinArgs(args))
  {
    var n := |args| - 1;
    DigitsField(args[n]);
    if n == 0 {
      SingleField(args[0]);
      assert args[..0] == [] && JoinArgs(args) == args[0];
    } else {
      JoinedArgFields(args[..n]);
      JoinedNext(args, n);
    }
  }

  lemma LastApart<T>(s: seq<T>, n: nat)
    requires n == |s| - 1
    ensures s == s[..n] + [s[n]]
  {
  }

  lemma JoinedNext(args: seq<seq<byte>>, n: nat)
    requires 0 < n == |args| - 1 && AllPlain(args[n]) && SEMICOLON !in args[n]
    requires Fields(JoinArgs(args[..n])) == args[..n] && AllPlain(JoinArgs(args[..n]))
    ensures Fields(JoinArgs(args)) == args && AllPlain(JoinArgs(args))
  {
    JoinedLast(args, n);
    LastApart(args, n);
    JoinedOneMore(args[..n], JoinArgs(args[..n]), args[n], args, JoinArgs(args));
  }

  lemma JoinedLast(args: seq<seq<byte>>, n: nat)
    requires 0 < n == |args| - 1
    ensures JoinArgs(args) == JoinArgs(args[..n]) + [SEMICOLON] + args[n]
  {
    assert Separator(n == 0) == [SEMICOLON];
  }

  lemma JoinedOneMore(fs: seq<seq<byte>>, before: seq<byte>, last: seq<byte>, all: seq<seq<byte>>, joined: seq<byte>)
    requires Fields(before) == fs && SEMICOLON !in last && AllPlain(before) && AllPlain(last)
    requires all == fs + [last] && joined == before + [SEMICOLON] + last
    ensures Fields(joined) == all && AllPlain(joined)
  {
    FieldsAfterSemicolon(before, last);
    PlainJoin(before, last);
  }

  lemma PlainJoin(a: seq<byte>, b: seq<byte>)
    requires AllPlain(a) && AllPlain(b)
    ensures AllPlain(a + [SEMICOLON] + b)
  {
  }

  function Values(args: seq<seq<byte>>): seq<Option<int>> {
    seq(|args|, i requires 0 <= i < |args| => Some(DigitsValue(args[i])))
  }

  lemma {:induction false} PlainParamsAreValues(args: seq<seq<byte>>)
    requires forall i :: 0 <= i < |args| ==> AllPlain(args[i]) && SEMICOLON !in args[i]
    ensures PlainParams(args) == Values(args)
  {
    if args != [] {
      PlainParamsAreValues(args[..|args| - 1]);
      PlainFieldOk(args[|args| - 1]);
    }
  }

  lemma NumbersCounted(args: seq<seq<byte>>)
    requires Numbers(args)
    ensures var body := JoinArgs(args);
            AllPlain(body) && CountedFields(body) == args && NoEmptyField(body) && PlainParams(args) == Values(args)
  {
    forall i | 0 <= i < |args| ensures AllPlain(args[i]) && SEMICOLON !in args[i] && HasNumber(args[i]) {
      DigitsField(args[i]);
    }
    PlainParamsAreValues(args);
    if args == [] {
      assert !HasNumber([]);
    } else {
      JoinedArgFields(args);
    }
  }

  /**
   A numeric template expanded into a large enough buffer reads back, in the Python parser as the decimal values
   of its arguments, and in the C parser as the same values in 16 bits as long as there are at most eight.
   */
  lemma ExpandParses(key: byte, params: seq<byte>, args: seq<seq<byte>>, bufLen: int)
    requires IsTerminator(key) && Numbers(args) && |args| <= |params|
    requires forall i :: 0 <= i < |params| ==> params[i] == 0x6E
    requires 2 + |JoinArgs(args)| <= bufLen
    ensures var e := ExpandSpec([CSI, key], params, args, bufLen);
            && e.Expanded?
            && FeedAll(Fresh, e.out) == (Fresh, [ControlSeq(key, Values(args), None)])
            && |e.out| > 0 && e.out[0] == CSI
            && (|args| <= MAX_CMD_ARGS ==>
                  CsiSpec(e.out[1..], 1) == Parsed(key, Words(Values(args)), (|e.out| - 1) % 0x10000))
  {
    var body := JoinArgs(args);
    NumericExpansion(key, params, args, bufLen);
    NumbersCounted(args);
    BothParse(key, body, args, [CSI] + body + [key]);
  }

  lemma BothParse(key: byte, body: seq<byte>, args: seq<seq<byte>>, out: seq<byte>)
    requires IsTerminator(key) && AllPlain(body) && CountedFields(body) == args && NoEmptyField(body)
    requires PlainParams(args) == Values(args) && out == [CSI] + body + [key]
    ensures FeedAll(Fresh, out) == (Fresh, [ControlSeq(key, Values(args), None)])
    ensures |args| <= MAX_CMD_ARGS ==> CsiSpec(out[1..], 1) == Parsed(key, Words(Values(args)), (|out| - 1) % 0x10000)
  {
    PlainRead(key, body, out);
    Assoc([CSI], body, [key]);
    assert out == [CSI] + (body + [key]);
    WordsParse(key, body, args, out[1..]);
  }

  lemma PlainRead(key: byte, body: seq<byte>, out: seq<byte>)
    requires IsTerminator(key) && AllPlain(body) && out == Intro(true) + body + [key]
    ensures FeedAll(Fresh, out) == (Fresh, [ControlSeq(key, PlainParams(CountedFields(body)), None)])
  {
    PlainBodyOk(body);
    PlainMeaning(body, key);
    ReadBody(true, body, key);
  }

  lemma WordsParse(key: byte, body: seq<byte>, args: seq<seq<byte>>, rest: seq<byte>)
    requires IsTerminator(key) && AllPlain(body) && CountedFields(body) == args && NoEmptyField(body)
    requires PlainParams(args) == Values(args) && rest == body + [key]
    ensures |args| <= MAX_CMD_ARGS ==> CsiSpec(rest, 1) == Parsed(key, Words(Values(args)), |rest| % 0x10000)
  {
    WholeBody(rest, body, key);
    TerminatedAgree(true, rest, 1);
  }

  lemma WholeBody(rest: seq<byte>, body: seq<byte>, key: byte)
    requires AllPlain(body) && IsTerminator(key) && rest == body + [key]
    ensures PlainPrefix(rest) == |body| < |rest| && rest[..|body|] == body && rest[|body|] == key
  {
    assert rest[..|body|] == body;
    PlainPrefixIs(rest, |body|);
  }

  lemma NumericExpansion(key: byte, params: seq<byte>, args: seq<seq<byte>>, bufLen: int)
    requires Numbers(args) && |args| <= |params|
    requires forall i :: 0 <= i < |params| ==> params[i] == 0x6E
    requires 2 + |JoinArgs(args)| <= bufLen
    ensures ExpandSpec([CSI, key], params, args, bufLen) == Expanded([CSI] + JoinArgs(args) + [key])
  {
    ExpandNumbers(params, args, |args|, bufLen);
    assert args[..|args|] == args;
    assert [CSI, key][1..] == [key] && [key][..1] == [key];
  }

  // ----- the attribute command, through to its event -----

  function FourBody(f1: seq<byte>, f2: seq<byte>, f3: seq<byte>, f4: seq<byte>): seq<byte> {
    f1 + [SEMICOLON] + f2 + [SEMICOLON] + f3 + [SEMICOLON] + f4
  }

  function Two(a: byte, b: byte): seq<byte> { [a, b] }

  /** The body `n;3f;4c;>b` for digits f, c and b. */
  function AttrBody(n: seq<byte>, f: byte, c: byte, b: byte): seq<byte> {
    FourBody(n, Two(0x33, f), Two(0x34, c), Two(GREATER, b))
  }

  lemma TwoDigits(a: byte, b: byte)
    requires IsDigit(a) && IsDigit(b)
    ensures AllPlain([a, b]) && SEMICOLON !in [a, b] && HasNumber([a, b])
    ensures DigitsValue([a, b]) == (a - 0x30) * 10 + (b - 0x30)
  {
    DigitsField([a, b]);
    OneDigit([], a);
    OneDigit([a], b);
    assert [] + [a] == [a] && [a] + [b] == [a, b];
  }

  lemma OneDigit(f: seq<byte>, d: byte)
    requires IsDigit(d)
    ensures DigitsValue(f + [d]) == DigitsValue(f) * 10 + (d - 0x30)
  {
    assert (f + [d])[..|f|] == f;
  }

  lemma MarkedDigit(b: byte)
    requires IsDigit(b)
    ensures var f := Two(GREATER, b);
            FieldOk(f) && HasNumber(f) && SEMICOLON !in f && GREATER in f && FieldValue(f) == b - 0x30
  {
    var f := [GREATER, b];
    assert StartsNumber(f[1]);
    OneDigit([GREATER], b);
    NoDigitsNoValue([GREATER]);
    assert FieldOk(f) by {
      assert FieldOk([]);
      FieldOkGrows([], GREATER);
      assert [] + [GREATER] == [GREATER] && [GREATER] + [b] == f;
      FieldOkGrows([GREATER], b);
    }
    assert MINUS !in f;
  }

  /** The fields of `body` are well-formed and read as these parameters. */
  ghost predicate Reads(body: seq<byte>, params: seq<Option<int>>, special: Option<int>) {
    && BodyOk(body)
    && PlainParams(Fields(body)) == params
    && SpecialParam(Fields(body)) == special
  }

  lemma ReadsFirst(f: seq<byte>)
    requires FieldOk(f) && SEMICOLON !in f && GREATER !in f
    ensures Reads(f, [Some(FieldValue(f))], None)
  {
    SingleField(f);
    LastFieldMeans([], f);
    assert [] + [f] == [f] && [] + [Some(FieldValue(f))] == [Some(FieldValue(f))];
  }

  lemma ReadsNext(body: seq<byte>, params: seq<Option<int>>, f: seq<byte>)
    requires Reads(body, params, None) && FieldOk(f) && SEMICOLON !in f
    ensures GREATER !in f ==> Reads(body + [SEMICOLON] + f, params + [Some(FieldValue(f))], None)
    ensures GREATER in f ==> Reads(body + [SEMICOLON] + f, params, Some(FieldValue(f)))
    ensures OpenField(body + [SEMICOLON] + f) == f
  {
    FieldsAfterSemicolon(body, f);
    LastFieldMeans(Fields(body), f);
    var none: seq<Option<int>> := [];
    assert params + none == params;
  }

  lemma FourFields(f1: seq<byte>, f2: seq<byte>, f3: seq<byte>, f4: seq<byte>, v: seq<int>, key: byte)
    requires FieldOk(f1) && FieldOk(f2) && FieldOk(f3) && FieldOk(f4) && HasNumber(f4)
    requires SEMICOLON !in f1 && SEMICOLON !in f2 && SEMICOLON !in f3 && SEMICOLON !in f4
    requires GREATER !in f1 && GREATER !in f2 && GREATER !in f3 && GREATER in f4
    requires v == [FieldValue(f1), FieldValue(f2), FieldValue(f3), FieldValue(f4)]
    ensures BodyOk(FourBody(f1, f2, f3, f4))
    ensures Meaning(FourBody(f1, f2, f3, f4), key) == ControlSeq(key, [Some(v[0]), Some(v[1]), Some(v[2])], Some(v[3]))
  {
    var p1 := [Some(v[0])];
    var p2 := p1 + [Some(v[1])];
    var p3 := p2 + [Some(v[2])];
    ReadsFirst(f1);
    ReadsNext(f1, p1, f2);
    ReadsNext(f1 + [SEMICOLON] + f2, p2, f3);
    ReadsNext(f1 + [SEMICOLON] + f2 + [SEMICOLON] + f3, p3, f4);
    assert p3 == [Some(v[0]), Some(v[1]), Some(v[2])];
  }

  /** The attributes n, f, c and b as numbers, the colors counted from 30, 40 and 0. */
  function AttrValues(n: seq<byte>, f: byte, c: byte, b: byte): seq<int> {
    [DigitsValue(n), 30 + (f - 0x30), 40 + (c - 0x30), b - 0x30]
  }

  lemma AttrMeaning(n: seq<byte>, f: byte, c: byte, b: byte, key: byte)
    requires |n| > 0 && AllDigits(n) && IsDigit(f) && IsDigit(c) && IsDigit(b)
    ensures var v := AttrValues(n, f, c, b);
            && BodyOk(AttrBody(n, f, c, b))
            && Meaning(AttrBody(n, f, c, b), key) == ControlSeq(key, [Some(v[0]), Some(v[1]), Some(v[2])], Some(v[3]))
  {
    DigitsField(n);
    PlainFieldOk(n);
    ColorField(0x33, f);
    ColorField(0x34, c);
    MarkedDigit(b);
    FourFields(n, Two(0x33, f), Two(0x34, c), Two(GREATER, b), AttrValues(n, f, c, b), key);
  }

  lemma ColorField(lead: byte, d: byte)
    requires IsDigit(lead) && IsDigit(d)
    ensures var f := Two(lead, d);
            && FieldOk(f) && SEMICOLON !in f && GREATER !in f && FieldValue(f) == (lead - 0x30) * 10 + (d - 0x30)
  {
    TwoDigits(lead, d);
    PlainFieldOk([lead, d]);
  }

  lemma AttrExpands(n: seq<byte>, f: seq<byte>, c: seq<byte>, b: seq<byte>, bufLen: int)
    requires |n| > 0 && AllDigits(n) && f != [] && c != [] && b != []
    requires IsDigit(f[0]) && IsDigit(c[0]) && IsDigit(b[0]) && |n| + 11 <= bufLen
    ensures ExpandSpec([CSI, 0x6D], [0x6E, 0x66, 0x63, 0x62], [n, f, c, b], bufLen) ==
              Expanded([CSI] + AttrBody(n, f[0], c[0], b[0]) + [0x6D])
  {
    var params: seq<byte>, args := [0x6E, 0x66, 0x63, 0x62], [n, f, c, b];
    assert n[..|n|] == n;
    var none: seq<byte> := [];
    assert ExpandParams(params, args, 0, 1, bufLen) == Expanded(none);
    assert ExpandParams(params, args, 1, 1, bufLen) == Expanded(none + Separator(true) + n);
    assert none + Separator(true) + n == n;
    assert ExpandParams(params, args, 2, 1, bufLen) == Expanded(n + [SEMICOLON] + [0x33, f[0]]);
    assert ExpandParams(params, args, 3, 1, bufLen) ==
             Expanded(n + [SEMICOLON] + [0x33, f[0]] + [SEMICOLON] + [0x34, c[0]]);
    assert ExpandParams(params, args, 4, 1, bufLen) == Expanded(AttrBody(n, f[0], c[0], b[0]));
    assert [CSI, 0x6D][1..] == [0x6D] && [0x6D][..1] == [0x6D];
  }

  /**
   Expanding `attr` with a style below 30 and three color digits decodes, in the event layer, to exactly these
   attributes; a background of zero decodes to none.
   */
  lemma AttrDecodes(n: seq<byte>, f: seq<byte>, c: seq<byte>, b: seq<byte>, bufLen: int)
    requires |n| > 0 && AllDigits(n) && DigitsValue(n) < 30 && f != [] && c != [] && b != []
    requires IsDigit(f[0]) && IsDigit(c[0]) && IsDigit(b[0]) && |n| + 11 <= bufLen
    ensures var e := ExpandSpec([CSI, 0x6D], [0x6E, 0x66, 0x63, 0x62], [n, f, c, b], bufLen);
            && e.Expanded?
            && FeedChunk(FreshEvents, e.out).1 ==
                 [CharAttrEvent(Some(DigitsValue(n)), Some(f[0] - 0x30), Some(c[0] - 0x30),
                                if b[0] == 0x30 then None else Some(b[0] - 0x30))]
  {
    AttrExpands(n, f, c, b, bufLen);
    AttrMeaning(n, f[0], c[0], b[0], 0x6D);
    ReadBody(true, AttrBody(n, f[0], c[0], b[0]), 0x6D);
    AttrEvent(DigitsValue(n), f[0] - 0x30, c[0] - 0x30, b[0] - 0x30);
    var v := AttrValues(n, f[0], c[0], b[0]);
    AllEventsOne(false, ControlSeq(0x6D, [Some(v[0]), Some(v[1]), Some(v[2])], Some(v[3])));
  }

  lemma AttrEvent(n: int, f: int, c: int, b: int)
    requires n < 30 && 0 <= f < 10 && 0 <= c < 10
    ensures SeqEvents(0x6D, [Some(n), Some(30 + f), Some(40 + c)], Some(b)) ==
              [CharAttrEvent(Some(n), Some(f), Some(c), if b == 0 then None else Some(b))]
  {
    LastOfThree(Some(n), Some(30 + f), Some(40 + c), PickAttr);
    LastOfThree(Some(n), Some(30 + f), Some(40 + c), PickFore);
    LastOfThree(Some(n), Some(30 + f), Some(40 + c), PickCell);
  }

  lemma LastOfThree(p: Option<int>, q: Option<int>, r: Option<int>, pick: int -> Option<int>)
    requires p.Some? && q.Some? && r.Some?
    ensures LastOf([p, q, r], pick) ==
              if pick(r.value).Some? then pick(r.value)
              else if pick(q.value).Some? then pick(q.value)
              else pick(p.value)
  {
    assert [p, q, r][..2] == [p, q] && [p, q][..1] == [p] && [p][..0] == [];
    assert LastOf([], pick) == None;
    assert pick(p.value).None? ==> pick(p.value) == None;
    assert LastOf([p], pick) == pick(p.value);
    assert LastOf([p, q], pick) == if pick(q.value).Some? then pick(q.value) else pick(p.value);
  }
}
