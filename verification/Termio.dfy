/**
 The command-line tools' side of the codec: a C parser with 16 bit arithmetic over a byte buffer,
 and the expansion of command templates into such a buffer.
 */
module Termio {
  import opened Common
  import opened Decimal
  import opened ControlStream
  import opened SequenceGrammar

  const MAX_CMD_ARGS := 8

  // ----- parsing -----

  datatype CsiResult =
    | NoCsi
    | TooManyArgs
    | InvalidChar
    | SeqTooShort
    | Parsed(cmd: byte, args: seq<int>, lenBytes: nat)

  /** An unsigned 16 bit accumulator, stored in a signed 16 bit slot. */
  function Word(v: int): int {
    var w := v % 0x10000;
    if w < 0x8000 then w else w - 0x10000
  }

  predicate IsPlain(b: byte) { IsDigit(b) || b == SPACE || b == SEMICOLON }

  predicate AllPlain(s: seq<byte>) { forall i :: 0 <= i < |s| ==> IsPlain(s[i]) }

  /** How many bytes at the start are digits, spaces and semicolons. */
  function PlainPrefix(s: seq<byte>): (n: nat)
    ensures n <= |s| && AllPlain(s[..n]) && (n < |s| ==> !IsPlain(s[n]))
  {
    if s == [] || !IsPlain(s[0]) then 0 else 1 + PlainPrefix(s[1..])
  }

  /** The arguments are the fields that hold a number; empty fields are skipped. */
  function WordArgs(fs: seq<seq<byte>>): seq<int> {
    if fs == [] then []
    else
      var f := fs[|fs| - 1];
      WordArgs(fs[..|fs| - 1]) + (if HasNumber(f) then [Word(DigitsValue(f))] else [])
  }

  /** What the parser makes of the bytes after the introducer, `start` bytes into the buffer. */
  function CsiSpec(rest: seq<byte>, start: nat): CsiResult {
    var n := PlainPrefix(rest);
    var body := rest[..n];
    if |WordArgs(ClosedFields(body))| > MAX_CMD_ARGS then TooManyArgs
    else if n == |rest| then SeqTooShort
    else if !IsTerminator(rest[n]) then InvalidChar
    else if |WordArgs(CountedFields(body))| > MAX_CMD_ARGS then TooManyArgs
    else Parsed(rest[n], WordArgs(CountedFields(body)), (start + n) % 0x10000)
  }

  lemma {:induction false} PlainPrefixIs(s: seq<byte>, n: nat)
    requires n <= |s| && AllPlain(s[..n]) && (n < |s| ==> !IsPlain(s[n]))
    ensures PlainPrefix(s) == n
  {
    if n > 0 {
      assert s[..n][0] == s[0] && s[1..][..n - 1] == s[..n][1..];
      PlainPrefixIs(s[1..], n - 1);
    }
  }

  /** More bytes never take an argument away. */
  lemma {:induction false} ArgsOnlyGrow(body: seq<byte>, more: seq<byte>)
    ensures |WordArgs(ClosedFields(body + more))| >= |WordArgs(ClosedFields(body))|
    ensures |more| > 0 && more[0] == SEMICOLON ==>
              |WordArgs(ClosedFields(body + more))| >= |WordArgs(Fields(body))|
  {
    if more == [] {
      assert body + more == body;
    } else {
      var n := |more| - 1;
      ArgsOnlyGrow(body, more[..n]);
      var all := body + more[..n];
      FieldsGrow(all, more[n]);
      assert body + more == all + [more[n]];
      assert Fields(all)[..|Fields(all)| - 1] == ClosedFields(all);
      if n == 0 {
        assert all == body;
      }
    }
  }

  /** One byte of a parameter, as the loop accumulates it. */
  lemma PlainByte(body: seq<byte>, b: byte)
    requires IsPlain(b)
    ensures b == SEMICOLON ==>
              WordArgs(ClosedFields(body + [b])) == WordArgs(CountedFields(body)) && !HasNumber(OpenField(body + [b]))
    ensures b != SEMICOLON ==> WordArgs(ClosedFields(body + [b])) == WordArgs(ClosedFields(body))
    ensures IsDigit(b) ==>
              && HasNumber(OpenField(body + [b]))
              && DigitsValue(OpenField(body + [b])) == DigitsValue(OpenField(body)) * 10 + (b - 0x30)
    ensures b == SPACE ==>
              && (HasNumber(OpenField(body + [b])) <==> HasNumber(OpenField(body)))
              && DigitsValue(OpenField(body + [b])) == DigitsValue(OpenField(body))
  {
    var f := OpenField(body);
    FieldsGrow(body, b);
    HasNumberGrows(f, b);
    assert (f + [b])[..|f|] == f;
    assert Fields(body)[..|Fields(body)| - 1] == ClosedFields(body);
  }

  lemma WordSteps(v: nat, w: nat, d: nat)
    requires w == v % 0x10000
    ensures (w * 10 % 0x10000 + d) % 0x10000 == (v * 10 + d) % 0x10000
  {
  }

  /**
   `size` may exceed what was filled in by the caller only as far as the buffer goes; the first byte, and the
   one after an ESC, are read whatever `size` says.
   */
  method ParseCsi(buf: seq<byte>, size: int) returns (res: CsiResult)
    requires 1 <= |buf| && (buf[0] == ESC ==> 2 <= |buf|) && size <= |buf|
    ensures var start := if buf[0] == CSI then 1 else if buf[0] == ESC && buf[1] == BRACKET then 2 else 0;
            res == if start == 0 then NoCsi else CsiSpec(if start <= size then buf[start..size] else [], start)
  {
    var left := size;
    var pos := 0;
    if buf[pos] == CSI {
      left := left - 1;
      pos := pos + 1;
    } else if buf[pos] == ESC {
      pos := pos + 1;
      left := left - 1;
      if buf[pos] == BRACKET {
        pos := pos + 1;
        left := left - 1;
      } else {
        return NoCsi;
      }
    } else {
      return NoCsi;
    }
    res := ScanBody(if left > 0 then buf[pos..size] else [], pos);
  }

  /** What the scanning loop knows after `body`. */
  ghost predicate Scanned(body: seq<byte>, args: seq<int>, inParam: bool, curParam: int) {
    && AllPlain(body)
    && args == WordArgs(ClosedFields(body)) && |args| <= MAX_CMD_ARGS
    && inParam == HasNumber(OpenField(body))
    && 0 <= curParam
    && (inParam ==> curParam == DigitsValue(OpenField(body)) % 0x10000)
  }

  /** Storing the open parameter closes its field. */
  function Stored(args: seq<int>, inParam: bool, curParam: int): seq<int> {
    if inParam then args + [if curParam < 0x8000 then curParam else curParam - 0x10000] else args
  }

  lemma StoredIsCounted(body: seq<byte>, args: seq<int>, inParam: bool, curParam: int)
    requires Scanned(body, args, inParam, curParam)
    ensures Stored(args, inParam, curParam) == WordArgs(CountedFields(body))
  {
    assert Fields(body)[..|Fields(body)| - 1] == ClosedFields(body);
  }

  lemma ScanSeparator(body: seq<byte>, args: seq<int>, inParam: bool, curParam: int)
    requires Scanned(body, args, inParam, curParam) && |Stored(args, inParam, curParam)| <= MAX_CMD_ARGS
    ensures Scanned(body + [SEMICOLON], Stored(args, inParam, curParam), false, curParam)
  {
    PlainByte(body, SEMICOLON);
    StoredIsCounted(body, args, inParam, curParam);
  }

  lemma ScanSpace(body: seq<byte>, args: seq<int>, inParam: bool, curParam: int)
    requires Scanned(body, args, inParam, curParam)
    ensures Scanned(body + [SPACE], args, inParam, curParam)
  {
    PlainByte(body, SPACE);
  }

  /** The accumulator after one more digit. */
  function Shifted(inParam: bool, curParam: int, d: nat): int {
    ((if inParam then curParam * 10 % 0x10000 else 0) + d) % 0x10000
  }

  lemma ScanDigit(body: seq<byte>, args: seq<int>, inParam: bool, curParam: int, b: byte)
    requires Scanned(body, args, inParam, curParam) && IsDigit(b)
    ensures Scanned(body + [b], args, true, Shifted(inParam, curParam, b - 0x30))
  {
    PlainByte(body, b);
    DigitValue(OpenField(body), curParam, b - 0x30, DigitsValue(OpenField(body + [b])));
    PlainGrows(body, b);
  }

  lemma DigitValue(f: seq<byte>, curParam: int, d: nat, v: nat)
    requires 0 <= curParam && (HasNumber(f) ==> curParam == DigitsValue(f) % 0x10000)
    requires v == DigitsValue(f) * 10 + d
    ensures Shifted(HasNumber(f), curParam, d) == v % 0x10000 >= 0
  {
    if HasNumber(f) {
      WordSteps(DigitsValue(f), curParam, d);
    } else {
      NoNumberNoValue(f);
    }
  }

  lemma PlainGrows(body: seq<byte>, b: byte)
    requires AllPlain(body) && IsPlain(b)
    ensures AllPlain(body + [b])
  {
  }

  lemma ScanStops(rest: seq<byte>, n: nat, start: nat, args: seq<int>, inParam: bool, curParam: int)
    requires n <= |rest| && Scanned(rest[..n], args, inParam, curParam) && (n < |rest| ==> !IsPlain(rest[n]))
    requires n < |rest| && IsTerminator(rest[n]) ==> |Stored(args, inParam, curParam)| <= MAX_CMD_ARGS
    ensures CsiSpec(rest, start) ==
              if n == |rest| then SeqTooShort
              else if !IsTerminator(rest[n]) then InvalidChar
              else Parsed(rest[n], Stored(args, inParam, curParam), (start + n) % 0x10000)
  {
    PlainPrefixIs(rest, n);
    StoredIsCounted(rest[..n], args, inParam, curParam);
  }

  /** The 16 bit parameter is stored as a signed one. */
  method StoreParam(args: seq<int>, curParam: int) returns (stored: seq<int>)
    ensures stored == Stored(args, true, curParam)
  {
    stored := args + [if curParam < 0x8000 then curParam else curParam - 0x10000];
  }

  method AddDigit(inParam: bool, curParam: int, ch: byte) returns (cur: int)
    requires IsDigit(ch)
    ensures cur == Shifted(inParam, curParam, ch - 0x30)
  {
    cur := 0;
    if inParam {
      cur := curParam * 10 % 0x10000;
    }
    cur := (cur + (ch - 0x30)) % 0x10000;
  }

  method ScanBody(rest: seq<byte>, start: nat) returns (res: CsiResult)
    ensures res == CsiSpec(rest, start)
  {
    var args: seq<int> := [];
    var curParam: int := 0;
    var inParam := false;
    var n := 0;
    assert Scanned([], args, inParam, curParam) && rest[..0] == [];
    while n < |rest|
      invariant n <= |rest|
      invariant Scanned(rest[..n], args, inParam, curParam)
    {
      var ch := rest[n];
      assert rest[..n + 1] == rest[..n] + [ch];
      var isCmd := ch >= 0x40 && ch <= 0x7F;
      var isSep := ch == SEMICOLON;
      var isNum := ch >= 0x30 && ch <= 0x39;
      ghost var args0, inParam0, curParam0 := args, inParam, curParam;
      if (isCmd || isSep) && inParam {
        if |args| == MAX_CMD_ARGS {
          TooManyAt(rest, n);
          return TooManyArgs;
        }
        args := StoreParam(args, curParam);
        inParam := false;
      }
      if isCmd {
        ScanStops(rest, n, start, args0, inParam0, curParam0);
        return Parsed(ch, args, (start + n) % 0x10000);
      } else if isNum {
        ScanDigit(rest[..n], args, inParam, curParam, ch);
        curParam := AddDigit(inParam, curParam, ch);
        inParam := true;
      } else if !isSep && ch != SPACE {
        ScanStops(rest, n, start, args0, inParam0, curParam0);
        return InvalidChar;
      } else if isSep {
        ScanSeparator(rest[..n], args0, inParam0, curParam0);
      } else {
        ScanSpace(rest[..n], args, inParam, curParam);
      }
      n := n + 1;
    }
    ScanStops(rest, n, start, args, inParam, curParam);
    res := SeqTooShort;
  }

  /** The ninth argument is refused where it ends, whatever follows. */
  lemma TooManyAt(rest: seq<byte>, n: nat)
    requires n < |rest| && AllPlain(rest[..n]) && (IsTerminator(rest[n]) || rest[n] == SEMICOLON)
    requires HasNumber(OpenField(rest[..n])) && |WordArgs(ClosedFields(rest[..n]))| == MAX_CMD_ARGS
    ensures forall start :: CsiSpec(rest, start) == TooManyArgs
  {
    var body := rest[..n];
    assert Fields(body)[..|Fields(body)| - 1] == ClosedFields(body);
    if IsTerminator(rest[n]) {
      PlainPrefixIs(rest, n);
    } else {
      TooManyBehind(rest, n, PlainPrefix(rest));
    }
  }

  lemma TooManyBehind(rest: seq<byte>, n: nat, m: nat)
    requires n < |rest| && AllPlain(rest[..n]) && rest[n] == SEMICOLON && m == PlainPrefix(rest)
    requires |WordArgs(Fields(rest[..n]))| > MAX_CMD_ARGS
    ensures |WordArgs(ClosedFields(rest[..m]))| > MAX_CMD_ARGS
  {
    if m <= n {
      assert false;
    }
    ArgsOnlyGrow(rest[..n], rest[n..m]);
    assert rest[..m] == rest[..n] + rest[n..m];
  }

  // ----- expanding a command template -----

  datatype Expansion = Expanded(out: seq<byte>) | ParamNoNumber | ParamEmpty

  function Least(a: int, b: int): int { if a < b then a else b }

  /** How much of an argument fits. */
  function Fits(input: seq<byte>, room: int): (n: nat)
    ensures n <= |input|
  {
    if room <= 0 then 0 else Least(|input|, room)
  }

  /** A color parameter is one digit with a lead byte, whatever room there is; others are copied as far as they fit. */
  function ExpandOne(code: byte, input: seq<byte>, room: int): Expansion {
    if input == [] then ParamEmpty
    else if code == 0x66 || code == 0x63 || code == 0x62 then
      if !IsDigit(input[0]) then ParamNoNumber
      else Expanded([if code == 0x66 then 0x33 else if code == 0x63 then 0x34 else GREATER, input[0]])
    else
      var n := Fits(input, room);
      if code == 0x6E && !AllDigits(input[..n]) then ParamNoNumber else Expanded(input[..n])
  }

  /** One more argument behind the `lead` bytes of the introducer and the expansions `before`. */
  function ExpandNextSpec(code: byte, input: seq<byte>, lead: nat, first: bool, before: seq<byte>, bufLen: int): Expansion {
    var sofar := before + Separator(first);
    match ExpandOne(code, input, bufLen - (lead + |sofar|))
    case Expanded(one) => Expanded(sofar + one)
    case err => err
  }

  function ExpandParams(params: seq<byte>, args: seq<seq<byte>>, k: nat, lead: nat, bufLen: int): Expansion
    requires k <= |params| && k <= |args|
  {
    if k == 0 then Expanded([])
    else
      match ExpandParams(params, args, k - 1, lead, bufLen)
      case Expanded(before) => ExpandNextSpec(params[k - 1], args[k - 1], lead, k == 1, before, bufLen)
      case err => err
  }

  function ExpandSpec(tpl: seq<byte>, params: seq<byte>, args: seq<seq<byte>>, bufLen: int): Expansion {
    var lead := if |tpl| > 0 && tpl[0] == CSI then [CSI] else [];
    var tail := tpl[|lead|..];
    match ExpandParams(params, args, Least(|args|, |params|), |lead|, bufLen)
    case Expanded(mid) => Expanded(lead + mid + tail[..Fits(tail, bufLen - |lead| - |mid|)])
    case err => err
  }

  /** Room that no expansion can overrun. */
  function Needed(tpl: seq<byte>, args: seq<seq<byte>>): nat {
    |tpl| + ArgRoom(args) + 1
  }

  function ArgRoom(args: seq<seq<byte>>): nat {
    if args == [] then 0 else |args[0]| + 3 + ArgRoom(args[1..])
  }

  predicate IsColor(code: byte) { code == 0x66 || code == 0x63 || code == 0x62 }

  /** Writes one expanded argument at `at`; bytes before that stay. */
  method ExpandParam(code: byte, input: seq<byte>, buf: array<byte>, at: nat, room: int) returns (res: Expansion)
    requires at + (if IsColor(code) then 2 else Fits(input, room)) <= buf.Length
    modifies buf
    ensures res == ExpandOne(code, input, room)
    ensures buf[..at] == old(buf[..at])
    ensures res.Expanded? ==> at + |res.out| <= buf.Length && buf[..at + |res.out|] == old(buf[..at]) + res.out
  {
    if input == [] {
      return ParamEmpty;
    }
    if code == 0x66 || code == 0x63 || code == 0x62 {
      if input[0] < 0x30 || input[0] > 0x39 {
        return ParamNoNumber;
      }
      buf[at] := if code == 0x66 then 0x33 else if code == 0x63 then 0x34 else GREATER;
      buf[at + 1] := 0x30 + (input[0] - 0x30);
      return Expanded([buf[at], buf[at + 1]]);
    }
    var n := 0;
    while n < |input| && n < room
      invariant 0 <= n <= |input| && (room <= 0 ==> n == 0) && (room > 0 ==> n <= room)
      invariant buf[..at + n] == old(buf[..at]) + input[..n]
      invariant code == 0x6E ==> AllDigits(input[..n])
    {
      if code == 0x6E {
        if input[n] < 0x30 || input[n] > 0x39 {
          assert !AllDigits(input[..Fits(input, room)]) by {
            assert input[..Fits(input, room)][n] == input[n];
          }
          return ParamNoNumber;
        }
      }
      buf[at + n] := input[n];
      n := n + 1;
    }
    return Expanded(input[..n]);
  }

  /** On success the buffer holds the expansion, zero-terminated, and its length is returned. */
  method ExpandCmdCode(tpl: seq<byte>, params: seq<byte>, args: seq<seq<byte>>, buf: array<byte>, bufLen: int)
    returns (res: Expansion)
    requires Needed(tpl, args) <= buf.Length
    modifies buf
    ensures res == ExpandSpec(tpl, params, args, bufLen)
    ensures res.Expanded? ==> |res.out| < buf.Length && buf[..|res.out|] == res.out && buf[|res.out|] == 0
  {
    var from := PutIntroducer(tpl, buf);
    ghost var lead := buf[..from];
    var mid := ExpandAll(params, args, buf, from, bufLen);
    if !mid.Expanded? {
      return mid;
    }
    var at := from + |mid.out|;
    var len := CopyTail(tpl[from..], buf, at, bufLen);
    res := Expanded(buf[..len]);
    assert res.out == lead + mid.out + tpl[from..][..Fits(tpl[from..], bufLen - at)];
    buf[len] := 0;
  }

  /** The introducer goes first. */
  method PutIntroducer(tpl: seq<byte>, buf: array<byte>) returns (from: nat)
    requires buf.Length > 0
    modifies buf
    ensures from == (if |tpl| > 0 && tpl[0] == CSI then 1 else 0)
    ensures buf[..from] == if from == 1 then [CSI] else []
  {
    from := 0;
    if |tpl| > 0 && tpl[0] == CSI {
      buf[0] := CSI;
      from := 1;
    }
  }

  method ExpandAll(params: seq<byte>, args: seq<seq<byte>>, buf: array<byte>, lead: nat, bufLen: int)
    returns (res: Expansion)
    requires lead + ArgRoom(args) <= buf.Length
    modifies buf
    ensures res == ExpandParams(params, args, Least(|args|, |params|), lead, bufLen)
    ensures res.Expanded? ==> |res.out| <= ArgRoom(args) && buf[..lead + |res.out|] == old(buf[..lead]) + res.out
  {
    var k := 0;
    res := Expanded([]);
    ghost var start := buf[..lead];
    assert args[0..] == args && start + [] == start;
    while k < |args| && k < |params|
      invariant k <= |args| && k <= |params| && res.Expanded?
      invariant |res.out| + ArgRoom(args[k..]) <= ArgRoom(args)
      invariant buf[..lead + |res.out|] == start + res.out
      invariant ExpandParams(params, args, k, lead, bufLen) == res
    {
      assert args[k..][1..] == args[k + 1..];
      res := ExpandNext(params[k], args[k], buf, lead, start, k == 0, res.out, bufLen);
      if !res.Expanded? {
        FirstErrorStays(params, args, k + 1, Least(|args|, |params|), lead, bufLen);
        return;
      }
      k := k + 1;
    }
  }

  /** One more parameter behind `before`, with its separator. */
  method ExpandNext(code: byte, input: seq<byte>, buf: array<byte>, lead: nat, ghost start: seq<byte>, first: bool, before: seq<byte>, bufLen: int)
    returns (res: Expansion)
    requires |start| == lead && lead + |before| + |input| + 3 <= buf.Length && buf[..|start| + |before|] == start + before
    modifies buf
    ensures res == ExpandNextSpec(code, input, |start|, first, before, bufLen)
    ensures res.Expanded? ==> |res.out| <= |before| + |input| + 3 && buf[..|start| + |res.out|] == start + res.out
  {
    var len := PutSeparator(buf, lead + |before|, first);
    ghost var sofar := before + Separator(first);
    Assoc(start, before, Separator(first));
    res := ExpandParam(code, input, buf, len, bufLen - len);
    if res.Expanded? {
      Assoc(start, sofar, res.out);
      res := Expanded(before + Separator(first) + res.out);
    }
  }

  method PutSeparator(buf: array<byte>, at: nat, first: bool) returns (len: nat)
    requires at < buf.Length
    modifies buf
    ensures len == at + |Separator(first)| && buf[..len] == old(buf[..at]) + Separator(first)
  {
    len := at;
    if !first {
      buf[len] := SEMICOLON;
      len := len + 1;
    }
  }

  method CopyTail(tail: seq<byte>, buf: array<byte>, at: nat, bufLen: int) returns (len: nat)
    requires at + |tail| < buf.Length
    modifies buf
    ensures len == at + Fits(tail, bufLen - at)
    ensures buf[..len] == old(buf[..at]) + tail[..Fits(tail, bufLen - at)]
  {
    len := at;
    var k := 0;
    while k < |tail| && len < bufLen
      invariant k <= Fits(tail, bufLen - at) && len == at + k
      invariant buf[..len] == old(buf[..at]) + tail[..k]
    {
      buf[len] := tail[k];
      len := len + 1;
      k := k + 1;
    }
  }

  lemma {:induction false} FirstErrorStays(params: seq<byte>, args: seq<seq<byte>>, k: nat, m: nat, lead: nat, bufLen: int)
    requires k <= m <= |params| && m <= |args| && !ExpandParams(params, args, k, lead, bufLen).Expanded?
    ensures ExpandParams(params, args, m, lead, bufLen) == ExpandParams(params, args, k, lead, bufLen)
  {
    if k < m {
      FirstErrorStays(params, args, k, m - 1, lead, bufLen);
    }
  }
}
