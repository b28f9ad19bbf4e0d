/** What single bytes do to the stream, in numbers. */
module StreamBytes {
  import opened Common
  import opened Decimal
  import opened ControlStream
  import opened SequenceGrammar
  import opened StreamTheorems
  import opened StreamLedger

  // ----- outside a sequence -----

  function Flushed(text: seq<byte>): seq<Element> { if text == [] then [] else [Text(text)] }

  /** Control characters are the bytes below 32 and those between 0x80 and 0x9F, both excluded; two of them open something. */
  lemma GroundControl(text: seq<byte>, b: byte)
    requires b < 32 || 0x80 < b < 0x9F
    ensures StreamFeed(Stream(Ground, text), b) ==
              if b == 0x1B then (Stream(Escape, text), [])
              else if b == 0x9B then (Stream(InSeq(Parser(true, [], [], false, 1, 0, None, false)), []), Flushed(text))
              else (Stream(Ground, []), Flushed(text) + [ControlChar(b)])
  {
  }

  lemma GroundText(text: seq<byte>, b: byte)
    requires 32 <= b <= 0x80 || 0x9F <= b
    ensures StreamFeed(Stream(Ground, text), b) == (Stream(Ground, text + [b]), [])
  {
  }

  /** Behind an escape 64 to 95 stand for control characters, `[` opens a sequence, and a control byte replaces the escape. */
  lemma EscapeByte(text: seq<byte>, b: byte)
    ensures StreamFeed(Stream(Escape, text), b) ==
              if b == 0x5B then (Stream(InSeq(Parser(false, [], [], false, 1, 0, None, false)), []), Flushed(text))
              else if 64 <= b <= 95 then (Stream(Ground, text), [ControlChar(b + 64)])
              else if b < 32 || 0x80 < b < 0x9F then (Stream(Ground, []), Flushed(text) + [ControlChar(b)])
              else (Stream(Ground, text + [b]), [ControlChar(0x1B)])
  {
  }

  /** Whatever comes in, no control byte is ever pending as text. */
  lemma PendingIsText(data: seq<byte>, i: nat)
    requires i < |FeedAll(Fresh, data).0.text|
    ensures var b := FeedAll(Fresh, data).0.text[i]; 32 <= b <= 0x80 || 0x9F <= b
  {
    AlwaysOk(data);
  }

  // ----- inside a sequence -----

  function Aborted(csi: bool, raw: seq<byte>): seq<Element> {
    if csi then [ControlChar(0x9B), Text(raw)] else [ControlChar(0x1B), Text([0x5B] + raw)]
  }

  /** 64 to 127 end the sequence; digits, spaces and semicolons always go on, `+`, `-` and `>` only before the number. */
  lemma SequenceByte(p: Parser, b: byte)
    ensures var (t, es) := StreamFeed(Stream(InSeq(p), []), b);
            && (64 <= b <= 127 ==> t == Stream(Ground, []) && |es| == 1 && es[0].ControlSeq? && es[0].key == b)
            && (b < 64 || b > 127 ==>
                  if 0x30 <= b <= 0x39 || b == 0x20 || b == 0x3B || (!p.inNumber && (b == 0x2B || b == 0x2D || b == 0x3E))
                  then t.mode.InSeq? && t.text == [] && es == [] && t.mode.parser.raw == p.raw + [b]
                  else t == Stream(Ground, []) && es == Aborted(p.withCsi, p.raw + [b]))
  {
  }

  /** A short sequence: the parser's answer to its bytes in turn. */
  lemma ShortSequence(csi: bool, x: byte, y: byte, z: byte, key: byte, q: Parser, r: Parser, t: Parser)
    requires ParserFeed(NewParser(csi), x) == More(q) && ParserFeed(q, y) == More(r) && ParserFeed(r, z) == More(t)
    requires 64 <= key <= 127
    ensures FeedAll(Fresh, Opening(csi) + [x, y, z] + [key]) == StreamFeed(Stream(InSeq(t), []), key)
  {
    var p := NewParser(csi);
    assert [x][..0] == [] && [x, y][..1] == [x] && [x, y, z][..2] == [x, y];
    assert RunParser(p, [x]) == More(q);
    assert RunParser(p, [x, y]) == More(r);
    assert RunParser(p, [x, y, z]) == More(t);
    EnterSequence([], csi);
    FeedAllBody([], p, [x, y, z]);
    FeedAllSplits(Fresh, Opening(csi), [x, y, z]);
    FeedAllSnoc(Fresh, Opening(csi) + [x, y, z], key);
    var es := StreamFeed(Stream(InSeq(t), []), key).1;
    assert [] + es == es;
  }

  function Opening(csi: bool): seq<byte> { if csi then [0x9B] else [0x1B, 0x5B] }

  predicate Digit(b: byte) { 0x30 <= b <= 0x39 }

  /** A number of three digits. */
  lemma NumberRead(csi: bool, a: byte, b: byte, c: byte, key: byte)
    requires Digit(a) && Digit(b) && Digit(c) && 64 <= key <= 127
    ensures FeedAll(Fresh, Opening(csi) + [a, b, c] + [key]) ==
              (Stream(Ground, []), [ControlSeq(key, [Some((a - 48) * 100 + (b - 48) * 10 + (c - 48))], None)])
  {
    ShortSequence(csi, a, b, c, key, Parser(csi, [a], [], true, 1, a - 48, None, false),
                  Parser(csi, [a, b], [], true, 1, (a - 48) * 10 + b - 48, None, false),
                  Parser(csi, [a, b, c], [], true, 1, ((a - 48) * 10 + b - 48) * 10 + c - 48, None, false));
    var n: Option<int> := Some((a - 48) * 100 + (b - 48) * 10 + (c - 48));
    assert [] + [n] == [n];
  }

  /** A number with a sign, and spaces that count for nothing. */
  lemma SignRead(csi: bool, minus: bool, a: byte, key: byte)
    requires Digit(a) && 64 <= key <= 127
    ensures FeedAll(Fresh, Opening(csi) + [0x20, if minus then 0x2D else 0x2B, a] + [key]) ==
              (Stream(Ground, []), [ControlSeq(key, [Some(if minus then 48 - a else a - 48)], None)])
  {
    var b: byte, sign := if minus then 0x2D else 0x2B, if minus then -1 else 1;
    ShortSequence(csi, 0x20, b, a, key, Parser(csi, [0x20], [], false, 1, 0, None, false),
                  Parser(csi, [0x20, b], [], true, sign, 0, None, false),
                  Parser(csi, [0x20, b, a], [], true, sign, a - 48, None, false));
    var n: Option<int> := Some(if minus then 48 - a else a - 48);
    assert [] + [n] == [n];
  }

  /** Two numbers. */
  lemma TwoNumbersRead(csi: bool, a: byte, b: byte, key: byte)
    requires Digit(a) && Digit(b) && 64 <= key <= 127
    ensures FeedAll(Fresh, Opening(csi) + [a, 0x3B, b] + [key]) ==
              (Stream(Ground, []), [ControlSeq(key, [Some(a - 48), Some(b - 48)], None)])
  {
    ShortSequence(csi, a, 0x3B, b, key, Parser(csi, [a], [], true, 1, a - 48, None, false),
                  Parser(csi, [a, 0x3B], [Some(a - 48)], false, 1, 0, None, false),
                  Parser(csi, [a, 0x3B, b], [Some(a - 48)], true, 1, b - 48, None, false));
    var m: Option<int>, n: Option<int> := Some(a - 48), Some(b - 48);
    assert [m] + [n] == [m, n];
  }

  /** An empty number counts as zero once it is closed; behind it a special one. */
  lemma SpecialRead(csi: bool, a: byte, key: byte)
    requires Digit(a) && 64 <= key <= 127
    ensures FeedAll(Fresh, Opening(csi) + [0x3B, 0x3E, a] + [key]) ==
              (Stream(Ground, []), [ControlSeq(key, [Some(0)], Some(a - 48))])
  {
    ShortSequence(csi, 0x3B, 0x3E, a, key, Parser(csi, [0x3B], [Some(0)], false, 1, 0, None, false),
                  Parser(csi, [0x3B, 0x3E], [Some(0)], false, 1, 0, None, true),
                  Parser(csi, [0x3B, 0x3E, a], [Some(0)], true, 1, a - 48, None, true));
  }

  // ----- printing -----

  /** Numerals are the shortest ones: no digit too many in front. */
  lemma {:induction false} NoLeadingZero(n: nat)
    ensures n > 0 ==> 0x31 <= Digits(n)[0] <= 0x39
    ensures n < 10 ==> Digits(n) == [48 + n]
  {
    if n >= 10 {
      NoLeadingZero(n / 10);
    }
  }

  function Three(a: int, c: int): seq<Option<int>> { [Some(a), None, Some(c)] }

  /** The printed form of a sequence with a number left out, byte by byte. */
  lemma NumbersPrinted(csi: bool, a: nat, c: int, d: nat, key: byte)
    requires a < 10 && 0 < c < 10 && d < 10
    ensures SeqBytes(key, Three(a, -c), Some(d), csi) ==
              Opening(csi) + [48 + a, 0x3B, 0x3B, 0x2D, 48 + c, 0x3B, 0x3E, 48 + d, key]
  {
    var params := Three(a, -c);
    assert params[..2] == [Some(a), None] && params[..2][..1] == [Some(a)] && params[..1] == [Some(a)];
    NoLeadingZero(a);
    NoLeadingZero(c);
    NoLeadingZero(d);
    assert JoinParams([Some(a)]) == [48 + a];
    assert JoinParams(params[..2]) == [48 + a, 0x3B];
    assert JoinParams(params) == [48 + a, 0x3B, 0x3B, 0x2D, 48 + c];
    assert BodyBytes(params, Some(d)) == [48 + a, 0x3B, 0x3B, 0x2D, 48 + c, 0x3B, 0x3E, 48 + d];
  }
}
