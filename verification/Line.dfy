/**
 Reading a line through the socket service: a loop that waits for characters, receives what there is, and looks for a
 newline. What arrives is a script of replies, in batches as the message port hands them out.
 */
module Line {
  import opened Common

  const NEWLINE: byte := 0x0A
  const RET_OK := 0
  const RET_ERROR := -1
  const RET_TIMEOUT := -2

  /** `next` says whether the service accepts the request made upon this reply. */
  datatype Reply =
    | CharReply(avail: bool, next: bool)
    | RecvReply(chunk: seq<byte>, next: bool)
    | ErrorReply

  /** `pushed` is what was pushed back behind the line. */
  datatype Progress = Progress(text: seq<byte>, result: int, stay: bool, pushed: seq<byte>)

  const BEGIN := Progress([], RET_ERROR, true, [])

  function NewlineAt(data: seq<byte>): (n: nat)
    ensures n <= |data|
  {
    if data == [] then 0 else if data[0] == NEWLINE then 0 else 1 + NewlineAt(data[1..])
  }

  /** As many bytes as are left over, taken from one place too early: from where the newline was made a zero. */
  function PushedFor(rest: seq<byte>): seq<byte> { if rest == [] then [] else [0] + rest[..|rest| - 1] }

  function Handle(p: Progress, r: Reply): Progress {
    match r
    case CharReply(avail, next) => if avail then p.(stay := p.stay && next) else p.(stay := false, result := RET_TIMEOUT)
    case RecvReply(chunk, next) =>
      var n := NewlineAt(chunk);
      if n < |chunk| then Progress(p.text + chunk[..n], |p.text| + n, false, PushedFor(chunk[n + 1..]))
      else p.(text := p.text + chunk, stay := p.stay && next)
    case ErrorReply => p.(stay := false)
  }

  function HandleAll(p: Progress, rs: seq<Reply>): Progress {
    if rs == [] then p else Handle(HandleAll(p, rs[..|rs| - 1]), rs[|rs| - 1])
  }

  /** Everything that was received. */
  function Stream(rs: seq<Reply>): seq<byte> {
    if rs == [] then []
    else Stream(rs[..|rs| - 1]) + (if rs[|rs| - 1].RecvReply? then rs[|rs| - 1].chunk else [])
  }

  // ----- the line does not depend on how it came in -----

  lemma {:induction false} NewlineAtConcat(a: seq<byte>, b: seq<byte>)
    ensures NewlineAt(a) < |a| ==> NewlineAt(a + b) == NewlineAt(a)
    ensures NewlineAt(a) == |a| ==> NewlineAt(a + b) == |a| + NewlineAt(b)
  {
    if a == [] {
      assert a + b == b;
    } else {
      NewlineAtConcat(a[1..], b);
      assert (a + b)[1..] == a[1..] + b;
    }
  }

  /** With one request outstanding at a time, only error notes come after the answer. */
  predicate Orderly(rs: seq<Reply>) {
    forall i :: 0 <= i < |rs| && !HandleAll(BEGIN, rs[..i]).stay ==> rs[i].ErrorReply?
  }

  /** The text is what comes before the first newline, and its length is reported exactly once there is one. */
  predicate Reads(p: Progress, data: seq<byte>) {
    && p.text == data[..NewlineAt(data)]
    && (p.result >= 0 <==> NewlineAt(data) < |data|)
    && (p.result >= 0 ==> p.result == NewlineAt(data) && !p.stay)
    && p.pushed == if NewlineAt(data) < |data| then PushedFor(data[NewlineAt(data) + 1..]) else []
  }

  lemma ChunkReads(p: Progress, data: seq<byte>, chunk: seq<byte>, next: bool)
    requires Reads(p, data) && p.stay
    ensures Reads(Handle(p, RecvReply(chunk, next)), data + chunk)
  {
    NewlineAtConcat(data, chunk);
    assert p.text == data;
    assert data + chunk[..NewlineAt(chunk)] == (data + chunk)[..|data| + NewlineAt(chunk)];
    if NewlineAt(chunk) < |chunk| {
      assert chunk[NewlineAt(chunk) + 1..] == (data + chunk)[|data| + NewlineAt(chunk) + 1..];
    }
  }

  /** What is pushed back is what was left over if and only if that is nothing or all zeros. */
  lemma {:induction false} PushedIsRestIff(rest: seq<byte>)
    ensures PushedFor(rest) == rest <==> forall i :: 0 <= i < |rest| ==> rest[i] == 0
  {
    if PushedFor(rest) == rest {
      forall i | 0 <= i < |rest| ensures rest[i] == 0 {
        ZeroFrom(rest, i);
      }
    } else {
      assert exists i :: 0 <= i < |rest| && PushedFor(rest)[i] != rest[i];
    }
  }

  lemma {:induction false} ZeroFrom(rest: seq<byte>, i: nat)
    requires i < |rest| && PushedFor(rest) == rest
    ensures rest[i] == 0
  {
    assert rest[i] == PushedFor(rest)[i];
    if i > 0 {
      ZeroFrom(rest, i - 1);
    }
  }

  /** For instance a line and two bytes: a zero and the first of them go back, the second is gone. */
  lemma LeftOverShifted(next: bool)
    ensures HandleAll(BEGIN, [RecvReply([0x61, NEWLINE, 0x62, 0x63], next)]) == Progress([0x61], 1, false, [0, 0x62])
  {
    var chunk := [0x61, NEWLINE, 0x62, 0x63];
    assert chunk[1..][0] == NEWLINE && NewlineAt(chunk) == 1 + NewlineAt(chunk[1..]) == 1;
    assert chunk[2..] == [0x62, 0x63] && PushedFor([0x62, 0x63]) == [0, 0x62];
    assert [] + chunk[..1] == [0x61] && [RecvReply(chunk, next)][..0] == [];
  }

  /**
   The result depends on the received bytes only, not on their chunks: it is the place of the first newline, and the
   text is what comes before it. As long as there is no newline the text is everything received, and no length is reported.
   */
  lemma {:induction false} ReadsFirstLine(rs: seq<Reply>)
    requires Orderly(rs)
    ensures Reads(HandleAll(BEGIN, rs), Stream(rs))
  {
    if rs != [] {
      var k := |rs| - 1;
      forall i | 0 <= i < k && !HandleAll(BEGIN, rs[..k][..i]).stay ensures rs[..k][i].ErrorReply? {
        assert rs[..k][..i] == rs[..i];
      }
      ReadsFirstLine(rs[..k]);
      var p := HandleAll(BEGIN, rs[..k]);
      if rs[k].RecvReply? {
        ChunkReads(p, Stream(rs[..k]), rs[k].chunk, rs[k].next);
      } else {
        assert Stream(rs) == Stream(rs[..k]) + [] == Stream(rs[..k]);
      }
    }
  }

  /** Two ways for the same bytes to come in give the same line. */
  lemma ChunksDoNotMatter(rs: seq<Reply>, qs: seq<Reply>)
    requires Orderly(rs) && Orderly(qs) && Stream(rs) == Stream(qs)
    ensures var p, q := HandleAll(BEGIN, rs), HandleAll(BEGIN, qs);
            p.text == q.text && (p.result >= 0 <==> q.result >= 0) && (p.result >= 0 ==> p.result == q.result)
  {
    ReadsFirstLine(rs);
    ReadsFirstLine(qs);
  }

  // ----- in numbers -----

  /** The place of the first byte 10. */
  lemma {:induction false} NewlineIs(data: seq<byte>)
    ensures forall i :: 0 <= i < NewlineAt(data) ==> data[i] != 10
    ensures NewlineAt(data) < |data| ==> data[NewlineAt(data)] == 10
  {
    if data != [] && data[0] != 10 {
      NewlineIs(data[1..]);
      forall i | 0 <= i < NewlineAt(data) ensures data[i] != 10 {
        assert i > 0 ==> data[i] == data[1..][i - 1];
      }
    }
  }

  /** Without a newline the code is -2 if a wait timed out and -1 if not. */
  lemma {:induction false} FailureCode(rs: seq<Reply>)
    requires 10 !in Stream(rs)
    ensures HandleAll(BEGIN, rs).result == if exists i :: 0 <= i < |rs| && rs[i].CharReply? && !rs[i].avail then -2 else -1
  {
    if rs != [] {
      var n := |rs| - 1;
      FailureCode(rs[..n]);
      assert rs == rs[..n] + [rs[n]];
      if rs[n].RecvReply? {
        NewlineIs(rs[n].chunk);
      }
      assert rs[n].CharReply? && !rs[n].avail ==> rs[n] in rs;
      if i :| 0 <= i < |rs| && rs[i].CharReply? && !rs[i].avail && i < n {
        assert rs[..n][i] == rs[i];
      }
    }
  }

  /** What a check returns: the character, 0, or the code of a failure. */
  lemma CheckCodes(rs: seq<Reply>, special: seq<byte>)
    requires OrderlyCheck(rs, special)
    ensures var c := CheckAll(rs, special);
            if exists k :: 0 <= k < |rs| && rs[k].RecvReply? then c.result >= 0 && (c.pushed != [] ==> c.result == 0)
            else c.pushed == [] && c.result == if exists i :: 0 <= i < |rs| && rs[i].CharReply? && !rs[i].avail then -2 else -1
  {
    ChecksCharacter(rs, special);
  }

  // ----- the loop -----

  /** The buffer holds the text so far; once a line is complete it is zero-terminated. */
  ghost predicate Shows(buf: array<byte>, got: nat, p: Progress)
    reads buf
  {
    && got == |p.text| && got <= buf.Length && buf[..got] == p.text
    && (p.result >= 0 ==> p.result == got && got < buf.Length && buf[got] == 0)
  }

  /** The replies leave room for the terminator. */
  predicate Room(p: Progress, rs: seq<Reply>, size: nat) {
    forall i :: 0 <= i < |rs| && rs[i].RecvReply? ==> |HandleAll(p, rs[..i]).text| + |rs[i].chunk| < size
  }

  /** Where the first newline of the received bytes is, which are in the buffer behind the text. */
  method FindNewline(buf: array<byte>, got: nat, chunk: seq<byte>) returns (pos: nat)
    requires got + |chunk| <= buf.Length && buf[got..got + |chunk|] == chunk
    ensures pos == NewlineAt(chunk)
  {
    pos := 0;
    while pos < |chunk| && buf[got + pos] != NEWLINE
      invariant pos <= |chunk| && NewlineAt(chunk) == pos + NewlineAt(chunk[pos..])
    {
      assert buf[got + pos] == buf[got..got + |chunk|][pos];
      assert chunk[pos..][1..] == chunk[pos + 1..];
      pos := pos + 1;
    }
    assert pos < |chunk| ==> buf[got + pos] == buf[got..got + |chunk|][pos];
  }

  /** The newline becomes the terminator, and what is left over is pushed back from there. */
  method EndLine(buf: array<byte>, got: nat, chunk: seq<byte>, pos: nat) returns (pushed: seq<byte>)
    requires got + |chunk| < buf.Length && buf[got..got + |chunk|] == chunk && pos < |chunk|
    modifies buf
    ensures buf[..got + pos] == old(buf[..got]) + chunk[..pos] && buf[got + pos] == 0
    ensures pushed == PushedFor(chunk[pos + 1..])
  {
    assert buf[..got + pos] == buf[..got] + buf[got..got + |chunk|][..pos];
    assert buf[got + pos + 1..got + |chunk|] == buf[got..got + |chunk|][pos + 1..];
    buf[got + pos] := 0;
    assert buf[got + pos + 1..got + |chunk|] == chunk[pos + 1..];
    pushed := [];
    if pos + 1 < |chunk| {
      pushed := buf[got + pos..got + |chunk| - 1];
      assert pushed == [0] + buf[got + pos + 1..got + |chunk|][..|chunk| - pos - 2];
    }
  }

  /** Received bytes go to the buffer behind the text; finds the newline and ends the text there. */
  method HandleChunk(buf: array<byte>, got: nat, chunk: seq<byte>, ghost p: Progress)
    returns (total: nat, found: bool, pushed: seq<byte>)
    requires Shows(buf, got, p) && got + |chunk| < buf.Length
    modifies buf
    ensures found <==> NewlineAt(chunk) < |chunk|
    ensures pushed == if found then PushedFor(chunk[NewlineAt(chunk) + 1..]) else []
    ensures Shows(buf, total, Handle(p.(result := RET_ERROR), RecvReply(chunk, true)))
  {
    CopyMem(chunk, buf, got);
    var pos := FindNewline(buf, got, chunk);
    found, total, pushed := pos < |chunk|, got + pos, [];
    if found {
      pushed := EndLine(buf, got, chunk, pos);
    } else {
      assert buf[..got + pos] == buf[..got] + buf[got..got + |chunk|];
    }
  }

  method HandleReply(buf: array<byte>, got: nat, result: int, stay: bool, pushed: seq<byte>, r: Reply)
    returns (got': nat, result': int, stay': bool, pushed': seq<byte>)
    requires got <= buf.Length && (result >= 0 ==> result == got && got < buf.Length && buf[got] == 0)
    requires r.RecvReply? ==> got + |r.chunk| < buf.Length && result < 0
    modifies buf
    ensures var p := Handle(Progress(old(buf[..got]), result, stay, pushed), r);
            Shows(buf, got', p) && result' == p.result && stay' == p.stay && pushed' == p.pushed
  {
    got', result', stay', pushed' := got, result, stay, pushed;
    match r
    case CharReply(avail, next) =>
      if avail {
        stay' := stay && next;
      } else {
        stay', result' := false, RET_TIMEOUT;
      }
    case RecvReply(chunk, next) =>
      var found, back;
      got', found, back := HandleChunk(buf, got, chunk, Progress(buf[..got], result, stay, pushed));
      if found {
        result', stay', pushed' := got', false, back;
      } else {
        stay' := stay && next;
      }
    case ErrorReply =>
      stay' := false;
  }

  /** Replies as the socket service gives them, which leave room for the terminator. */
  predicate Fine(rs: seq<Reply>, size: nat) { Orderly(rs) && Room(BEGIN, rs, size) }

  lemma OrderlyPrefix(rs: seq<Reply>, k: nat)
    requires k <= |rs| && Orderly(rs)
    ensures Orderly(rs[..k])
  {
    forall i | 0 <= i < k && !HandleAll(BEGIN, rs[..k][..i]).stay ensures rs[..k][i].ErrorReply? {
      assert rs[..k][..i] == rs[..i];
    }
  }

  lemma RoomPrefix(p: Progress, rs: seq<Reply>, k: nat, size: nat)
    requires k <= |rs| && Room(p, rs, size)
    ensures Room(p, rs[..k], size)
  {
    forall i | 0 <= i < k && rs[..k][i].RecvReply? ensures |HandleAll(p, rs[..k][..i]).text| + |rs[..k][i].chunk| < size {
      assert rs[..k][..i] == rs[..i];
    }
  }

  lemma FinePrefix(rs: seq<Reply>, k: nat, size: nat)
    requires k <= |rs| && Fine(rs, size)
    ensures Fine(rs[..k], size)
  {
    OrderlyPrefix(rs, k);
    RoomPrefix(BEGIN, rs, k, size);
  }

  lemma FlattenSplit(batches: seq<seq<Reply>>, k: nat)
    requires k <= |batches|
    ensures var rs, head := Flatten(batches), Flatten(batches[..k]);
            && |head| <= |rs| && rs[..|head|] == head
            && (k < |batches| ==> Flatten(batches[..k + 1]) == head + batches[k])
  {
    assert batches == batches[..k] + batches[k..];
    FlattenConcat(batches[..k], batches[k..]);
    if k < |batches| {
      assert batches[..k + 1][..k] == batches[..k];
    }
  }

  lemma FineBatches(batches: seq<seq<Reply>>, k: nat, size: nat)
    requires k <= |batches| && Fine(Flatten(batches), size)
    ensures Fine(Flatten(batches[..k]), size)
    ensures k < |batches| ==> Flatten(batches[..k + 1]) == Flatten(batches[..k]) + batches[k]
  {
    FlattenSplit(batches, k);
    FinePrefix(Flatten(batches), |Flatten(batches[..k])|, size);
  }

  /** The line in the buffer and what went back, or the reason there is none. */
  ghost predicate Returned(buf: array<byte>, rs: seq<Reply>, result: int, pushed: seq<byte>)
    reads buf
  {
    var n := NewlineAt(Stream(rs));
    if result >= 0 then
      && result == n < |Stream(rs)| && n < buf.Length && buf[..n] == Stream(rs)[..n] && buf[n] == 0
      && pushed == PushedFor(Stream(rs)[n + 1..])
    else n == |Stream(rs)| && result == HandleAll(BEGIN, rs).result && pushed == []
  }

  /** Reads a line into the buffer. The loop takes batches until one ends it; `used` says how many. */
  method ReadLine(buf: array<byte>, started: bool, batches: seq<seq<Reply>>)
    returns (result: int, used: nat, pushed: seq<byte>)
    requires Fine(Flatten(batches), buf.Length)
    modifies buf
    ensures used <= |batches| && Returned(buf, Flatten(batches[..used]), result, pushed)
    ensures started && used < |batches| ==> !HandleAll(BEGIN, Flatten(batches[..used])).stay
    ensures !started ==> used == 0
  {
    var got: nat, stay := 0, true;
    result, used, pushed := RET_ERROR, 0, [];
    if !started {
      assert Flatten(batches[..0]) == [];
      return;
    }
    assert buf[..0] == [];
    ghost var rs := Flatten(batches[..0]);
    while stay && used < |batches|
      invariant used <= |batches| && rs == Flatten(batches[..used])
      invariant var p := HandleAll(BEGIN, rs); Shows(buf, got, p) && result == p.result && stay == p.stay && pushed == p.pushed
    {
      FineBatches(batches, used, buf.Length);
      FineBatches(batches, used + 1, buf.Length);
      got, result, stay, pushed := HandleBatch(buf, got, result, stay, pushed, rs, batches[used]);
      rs := rs + batches[used];
      used := used + 1;
    }
    FineBatches(batches, used, buf.Length);
    ReadsFirstLine(rs);
  }

  /** All replies of one batch, even those behind the end of the line. */
  method HandleBatch(buf: array<byte>, got: nat, result: int, stay: bool, pushed: seq<byte>, ghost before: seq<Reply>, batch: seq<Reply>)
    returns (got': nat, result': int, stay': bool, pushed': seq<byte>)
    requires var p := HandleAll(BEGIN, before); Shows(buf, got, p) && result == p.result && stay == p.stay && pushed == p.pushed
    requires Fine(before + batch, buf.Length)
    modifies buf
    ensures var p := HandleAll(BEGIN, before + batch);
            Shows(buf, got', p) && result' == p.result && stay' == p.stay && pushed' == p.pushed
  {
    got', result', stay', pushed' := got, result, stay, pushed;
    assert before + batch[..0] == before;
    for i := 0 to |batch|
      invariant var p := HandleAll(BEGIN, before + batch[..i]);
                Shows(buf, got', p) && result' == p.result && stay' == p.stay && pushed' == p.pushed
    {
      ghost var sofar := before + batch[..i];
      OneMore(before, batch, i, buf.Length);
      got', result', stay', pushed' := HandleReply(buf, got', result', stay', pushed', batch[i]);
    }
    assert batch[..|batch|] == batch;
  }

  lemma HandleOneMore(before: seq<Reply>, batch: seq<Reply>, i: nat)
    requires i < |batch|
    ensures HandleAll(BEGIN, before + batch[..i + 1]) == Handle(HandleAll(BEGIN, before + batch[..i]), batch[i])
  {
    var more := before + batch[..i + 1];
    assert more[..|more| - 1] == before + batch[..i] && more[|more| - 1] == batch[i];
  }

  lemma NextFits(rs: seq<Reply>, k: nat, size: nat)
    requires k < |rs| && Fine(rs, size)
    ensures var p := HandleAll(BEGIN, rs[..k]); rs[k].RecvReply? ==> |p.text| + |rs[k].chunk| < size && p.result < 0
  {
    OrderlyPrefix(rs, k);
    ReadsFirstLine(rs[..k]);
  }

  /** The next reply of a batch: there is room for it, and nothing is received once the line is complete. */
  lemma OneMore(before: seq<Reply>, batch: seq<Reply>, i: nat, size: nat)
    requires i < |batch| && Fine(before + batch, size)
    ensures var p := HandleAll(BEGIN, before + batch[..i]);
            && HandleAll(BEGIN, before + batch[..i + 1]) == Handle(p, batch[i])
            && (batch[i].RecvReply? ==> |p.text| + |batch[i].chunk| < size && p.result < 0)
  {
    HandleOneMore(before, batch, i);
    assert (before + batch)[..|before| + i] == before + batch[..i];
    NextFits(before + batch, |before| + i, size);
  }

  // ----- a single character -----

  /** `last` is what the one byte buffer holds, zero at first; `pushed` lists what was pushed back. */
  datatype Check = Check(last: byte, result: int, stay: bool, pushed: seq<byte>)

  const CHECK := Check(0, RET_ERROR, true, [])

  /** A special character is reported and so consumed, any other is pushed back. */
  function Judge(c: Check, special: seq<byte>): Check {
    if c.last in special then c.(result := c.last, stay := false)
    else c.(result := RET_OK, stay := false, pushed := c.pushed + [c.last])
  }

  function HandleCheck(c: Check, r: Reply, special: seq<byte>): Check {
    match r
    case CharReply(avail, next) => if avail then c.(stay := c.stay && next) else c.(stay := false, result := RET_TIMEOUT)
    case RecvReply(chunk, _) => Judge(if chunk == [] then c else c.(last := chunk[0]), special)
    case ErrorReply => c.(stay := false)
  }

  function CheckAll(rs: seq<Reply>, special: seq<byte>): Check {
    if rs == [] then CHECK else HandleCheck(CheckAll(rs[..|rs| - 1], special), rs[|rs| - 1], special)
  }

  /** With one request outstanding at a time, only error notes come after the answer. */
  predicate OrderlyCheck(rs: seq<Reply>, special: seq<byte>) {
    forall i :: 0 <= i < |rs| && !CheckAll(rs[..i], special).stay ==> rs[i].ErrorReply?
  }

  /** The character of a reply; the end of the file looks like a zero byte. */
  function CharOf(r: Reply): byte
    requires r.RecvReply?
  {
    if r.chunk == [] then 0 else r.chunk[0]
  }

  /**
   At most one receive is answered. Its character is reported if it is special and otherwise pushed back, never both;
   without one nothing is pushed back, and a wait that timed out is reported as that.
   */
  ghost predicate Checked(rs: seq<Reply>, special: seq<byte>, result: int, pushed: seq<byte>) {
    || (exists k :: 0 <= k < |rs| && rs[k].RecvReply? && (forall i :: 0 <= i < |rs| && rs[i].RecvReply? ==> i == k) &&
          if CharOf(rs[k]) in special then result == CharOf(rs[k]) && pushed == []
          else result == RET_OK && pushed == [CharOf(rs[k])])
    || ((forall i :: 0 <= i < |rs| ==> !rs[i].RecvReply?) && pushed == [] &&
          result == if exists i :: 0 <= i < |rs| && rs[i].CharReply? && !rs[i].avail then RET_TIMEOUT else RET_ERROR)
  }

  lemma OrderlyCheckPrefix(rs: seq<Reply>, special: seq<byte>, k: nat)
    requires k <= |rs| && OrderlyCheck(rs, special)
    ensures OrderlyCheck(rs[..k], special)
  {
    forall i | 0 <= i < k && !CheckAll(rs[..k][..i], special).stay ensures rs[..k][i].ErrorReply? {
      assert rs[..k][..i] == rs[..i];
    }
  }

  /** As long as the loop goes on nothing has been received and no wait has timed out. */
  lemma {:induction false} StaysUntilAnswered(rs: seq<Reply>, special: seq<byte>)
    requires CheckAll(rs, special).stay
    ensures CheckAll(rs, special) == CHECK && forall i :: 0 <= i < |rs| ==> rs[i].CharReply? && rs[i].avail
  {
    if rs != [] {
      StaysUntilAnswered(rs[..|rs| - 1], special);
    }
  }

  /** An error note after the answer changes nothing about it. */
  lemma NoteKeepsChecked(rs: seq<Reply>, special: seq<byte>, result: int, pushed: seq<byte>)
    requires Checked(rs, special, result, pushed)
    ensures Checked(rs + [ErrorReply], special, result, pushed)
  {
    var more := rs + [ErrorReply];
    if k :| 0 <= k < |rs| && rs[k].RecvReply? {
      assert more[k] == rs[k];
    } else {
      assert forall i :: 0 <= i < |more| ==> !more[i].RecvReply?;
      if exists i :: 0 <= i < |rs| && rs[i].CharReply? && !rs[i].avail {
        var i :| 0 <= i < |rs| && rs[i].CharReply? && !rs[i].avail;
        assert more[i].CharReply? && !more[i].avail;
      }
    }
  }

  lemma AnswerIsChecked(rs: seq<Reply>, r: Reply, special: seq<byte>)
    requires CheckAll(rs, special).stay
    ensures var c := HandleCheck(CheckAll(rs, special), r, special); Checked(rs + [r], special, c.result, c.pushed)
  {
    StaysUntilAnswered(rs, special);
    var more := rs + [r];
    assert more[|rs|] == r;
  }

  /** What the loop finds out, whatever notes follow. */
  lemma {:induction false} ChecksCharacter(rs: seq<Reply>, special: seq<byte>)
    requires OrderlyCheck(rs, special)
    ensures var c := CheckAll(rs, special); Checked(rs, special, c.result, c.pushed)
  {
    if rs != [] {
      var n := |rs| - 1;
      assert rs == rs[..n] + [rs[n]];
      OrderlyCheckPrefix(rs, special, n);
      ChecksCharacter(rs[..n], special);
      if CheckAll(rs[..n], special).stay {
        AnswerIsChecked(rs[..n], rs[n], special);
      } else {
        NoteKeepsChecked(rs[..n], special, CheckAll(rs[..n], special).result, CheckAll(rs[..n], special).pushed);
      }
    }
  }

  /** The end of the file: the zero the buffer was cleared with is taken for a character and pushed back. */
  lemma ZeroAtEndOfFile(special: seq<byte>, next: bool)
    requires 0 !in special
    ensures CheckAll([CharReply(true, true), RecvReply([], next)], special) == Check(0, RET_OK, false, [0])
  {
    var r, eof := CharReply(true, true), RecvReply([], next);
    assert [r, eof][..1] == [r] && [r][..0] == [];
    assert CheckAll([r], special) == CHECK;
  }

  /** The character that was reported or pushed back. */
  function Judged(c: Check): int { if c.pushed != [] then c.pushed[0] else c.result }

  lemma {:induction false} OnlyChunk(rs: seq<Reply>, k: nat)
    requires k < |rs| && rs[k].RecvReply? && forall i :: 0 <= i < |rs| && rs[i].RecvReply? ==> i == k
    ensures Stream(rs) == rs[k].chunk
  {
    var n := |rs| - 1;
    if k < n {
      OnlyChunk(rs[..n], k);
    } else {
      NoChunk(rs[..n]);
    }
  }

  lemma {:induction false} NoChunk(rs: seq<Reply>)
    requires forall i :: 0 <= i < |rs| ==> !rs[i].RecvReply?
    ensures Stream(rs) == []
  {
    if rs != [] {
      NoChunk(rs[..|rs| - 1]);
    }
  }

  /** What is reported or pushed back is a byte that was received if and only if the receive that was answered had data. */
  lemma JudgesReceivedIff(rs: seq<Reply>, special: seq<byte>, k: nat)
    requires OrderlyCheck(rs, special) && k < |rs| && rs[k].RecvReply?
    ensures Judged(CheckAll(rs, special)) in Stream(rs) <==> rs[k].chunk != []
  {
    ChecksCharacter(rs, special);
    OnlyChunk(rs, k);
    assert Judged(CheckAll(rs, special)) == CharOf(rs[k]);
  }

  /** The character that was read is looked up among the special ones. */
  method JudgeChar(last: byte, special: seq<byte>) returns (result: int)
    requires forall i :: 0 <= i < |special| ==> 0 < special[i] < 0x80
    ensures result == if last in special then last else RET_OK
  {
    result := RET_OK;
    var i := 0;
    while i < |special| && last != special[i]
      invariant i <= |special| && last !in special[..i]
    {
      i := i + 1;
    }
    if i < |special| {
      result := special[i];
    }
  }

  /** Waits for a character and looks at it. The loop takes batches until one ends it; `used` says how many. */
  method CheckChar(started: bool, batches: seq<seq<Reply>>, special: seq<byte>) returns (result: int, pushed: seq<byte>, used: nat)
    requires forall i :: 0 <= i < |special| ==> 0 < special[i] < 0x80
    requires OrderlyCheck(Flatten(batches), special)
    ensures used <= |batches| && Checked(Flatten(batches[..used]), special, result, pushed)
    ensures started && used < |batches| ==> !CheckAll(Flatten(batches[..used]), special).stay
    ensures !started ==> used == 0
  {
    result, pushed, used := RET_ERROR, [], 0;
    assert Flatten(batches[..0]) == [];
    if !started {
      return;
    }
    var last: byte, stay := 0, true;
    ghost var rs := Flatten(batches[..0]);
    while stay && used < |batches|
      invariant used <= |batches| && rs == Flatten(batches[..used])
      invariant Check(last, result, stay, pushed) == CheckAll(rs, special)
    {
      FlattenSplit(batches, used);
      last, result, stay, pushed := CheckBatch(last, result, stay, pushed, rs, batches[used], special);
      rs := rs + batches[used];
      used := used + 1;
    }
    FlattenSplit(batches, used);
    OrderlyCheckPrefix(Flatten(batches), special, |rs|);
    ChecksCharacter(rs, special);
  }

  method CheckBatch(last: byte, result: int, stay: bool, pushed: seq<byte>, ghost before: seq<Reply>, batch: seq<Reply>, special: seq<byte>)
    returns (last': byte, result': int, stay': bool, pushed': seq<byte>)
    requires forall i :: 0 <= i < |special| ==> 0 < special[i] < 0x80
    requires Check(last, result, stay, pushed) == CheckAll(before, special)
    ensures Check(last', result', stay', pushed') == CheckAll(before + batch, special)
  {
    last', result', stay', pushed' := last, result, stay, pushed;
    assert before + batch[..0] == before;
    for i := 0 to |batch|
      invariant Check(last', result', stay', pushed') == CheckAll(before + batch[..i], special)
    {
      ghost var more := before + batch[..i + 1];
      assert more[..|more| - 1] == before + batch[..i] && more[|more| - 1] == batch[i];
      match batch[i]
      case CharReply(avail, next) =>
        if avail {
          stay' := stay' && next;
        } else {
          stay', result' := false, RET_TIMEOUT;
        }
      case RecvReply(chunk, _) =>
        if chunk != [] {
          last' := chunk[0];
        }
        result' := JudgeChar(last', special);
        if result' == RET_OK {
          pushed' := pushed' + [last'];
        }
        stay' := false;
      case ErrorReply =>
        stay' := false;
    }
    assert batch[..|batch|] == batch;
  }
}
