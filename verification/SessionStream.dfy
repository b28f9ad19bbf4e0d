/**
 The read stream end to end: from the bytes the network delivers, through line splitting, push-back and signal
 filtering, to the data in the answers of read packets.
 */
module SessionStream {
  import opened Common
  import opened SignalBytes
  import opened SockioSpec
  import opened SockioStreams
  import opened SockioReplies
  import opened VconSpec
  import opened SessionSpec

  // ----- data on its way -----

  function ReadData<U>(r: Reply<U>): seq<byte> { if r.RecvDone? then r.data else [] }

  /** The data of answered receives the session has not looked at yet. */
  function DataOf<U>(out: seq<Reply<U>>): seq<byte> {
    if out == [] then [] else DataOf(out[..|out| - 1]) + ReadData(out[|out| - 1])
  }

  function ReplyData(replies: seq<VReply>): seq<byte> {
    if replies == [] then []
    else ReplyData(replies[..|replies| - 1]) + ReplyBytes(replies[|replies| - 1])
  }

  function ReplyBytes(r: VReply): seq<byte> { if r.result.ReadDone? then r.result.data else [] }

  function AnswerData(answers: seq<Answer>): seq<byte> {
    if answers == [] then [] else AnswerData(answers[..|answers| - 1]) + answers[|answers| - 1].data
  }

  lemma DataOfSnoc<U>(out: seq<Reply<U>>, r: Reply<U>)
    ensures DataOf(out + [r]) == DataOf(out) + ReadData(r)
  {
    assert (out + [r])[..|out|] == out;
  }

  lemma {:induction false} DataOfConcat<U>(a: seq<Reply<U>>, b: seq<Reply<U>>)
    ensures DataOf(a + b) == DataOf(a) + DataOf(b)
  {
    if b == [] {
      assert a + b == a && DataOf(a) + [] == DataOf(a);
    } else {
      var n := |b| - 1;
      DataOfConcat(a, b[..n]);
      assert a + b == (a + b[..n]) + [b[n]];
      DataOfSnoc(a + b[..n], b[n]);
      Reassoc(DataOf(a), DataOf(b[..n]), ReadData(b[n]));
    }
  }

  lemma DataOfHead<U>(out: seq<Reply<U>>)
    requires out != []
    ensures DataOf(out) == ReadData(out[0]) + DataOf(out[1..])
  {
    assert out == [out[0]] + out[1..];
    DataOfConcat([out[0]], out[1..]);
    assert [out[0]][..0] == [];
  }

  lemma {:induction false} NoData<U>(rs: seq<Reply<U>>)
    requires forall i :: 0 <= i < |rs| ==> ReadData(rs[i]) == []
    ensures DataOf(rs) == []
  {
    if rs != [] {
      NoData(rs[..|rs| - 1]);
    }
  }

  // ----- what a wait step delivers is what it answers -----

  /** All delivered data is looked at (`c`) or waiting in a reply. */
  predicate Delivered<U>(s: Sio<U>, c: seq<byte>) { s.hist.kept == c + DataOf(s.out) }

  lemma CompleteKeepsDelivered<U>(s: Sio<U>, c: seq<byte>)
    requires s.recv != [] && Delivered(s, c)
    ensures Delivered(CompleteRecv(s), c) && Delivered(DropHead(s), c)
  {
    DataOfSnoc(s.out, RecvDone(s.recv[0].id, s.partial, s.recv[0].user));
    DataOfSnoc(s.out, RecvDone(s.recv[0].id, [], s.recv[0].user));
    Reassoc(c, DataOf(s.out), s.partial);
    Reassoc(c, DataOf(s.out), []);
  }

  /** Replies without data change nothing. */
  lemma EmptyRepliesKeepDelivered<U>(s: Sio<U>, t: Sio<U>, more: seq<Reply<U>>, c: seq<byte>)
    requires Delivered(s, c) && t.out == s.out + more && t.hist.kept == s.hist.kept
    requires forall i :: 0 <= i < |more| ==> ReadData(more[i]) == []
    ensures Delivered(t, c)
  {
    DataOfConcat(s.out, more);
    NoData(more);
    assert DataOf(s.out) + [] == DataOf(s.out);
  }

  lemma FlushKeepsDelivered<U>(s: Sio<U>, c: seq<byte>)
    requires Delivered(s, c)
    ensures Delivered(FlushRecv(s), c) && Delivered(FlushSend(s), c)
  {
    assert FlushRecv(s).out == s.out + (EofReplies(s.recv) + TimeoutReplies(s.wait));
    EmptyRepliesKeepDelivered(s, FlushRecv(s), EofReplies(s.recv) + TimeoutReplies(s.wait), c);
    EmptyRepliesKeepDelivered(s, FlushSend(s), SendReplies(s.send), c);
  }

  lemma FailKeepsDelivered<U>(s: Sio<U>, code: nat, c: seq<byte>)
    requires Delivered(s, c)
    ensures Delivered(FailAll(s, code), c)
  {
    FlushKeepsDelivered(s, c);
    FlushKeepsDelivered(FlushSend(s), c);
    var f := FlushRecv(FlushSend(s));
    if f.free != [] {
      EmptyRepliesKeepDelivered(f, FailAll(s, code), [ErrorNote(f.free[0], code, None)], c);
    }
  }

  lemma {:induction false} ExpireKeepsDelivered<U>(s: Sio<U>, jids: seq<nat>, c: seq<byte>)
    requires Delivered(s, c)
    ensures Delivered(Expire(s, jids), c)
  {
    if jids != [] {
      var before, jid := Expire(s, jids[..|jids| - 1]), jids[|jids| - 1];
      ExpireKeepsDelivered(s, jids[..|jids| - 1], c);
      var k := WaiterOf(before.wait, jid);
      if k < |before.wait| {
        EmptyRepliesKeepDelivered(before, ExpireOne(before, jid),
                                  [WaitDone(before.wait[k].id, false, before.wait[k].user)], c);
      }
    }
  }

  lemma SignalsKeepDelivered<U>(s: Sio<U>, e: Env, c: seq<byte>)
    requires Delivered(s, c)
    ensures Delivered(Signals(s, e), c)
  {
    ExpireKeepsDelivered(if e.msgSig then Drain(s) else s, e.expired, c);
  }

  lemma PrepareKeepsDelivered<U>(s: Sio<U>, c: seq<byte>)
    requires Delivered(s, c)
    ensures Delivered(Prepare(s).0, c)
  {
    FlushKeepsDelivered(s, c);
    FlushKeepsDelivered(FlushSend(s), c);
    PushedKeepsDelivered(FlushForState(s), c);
  }

  lemma PushedKeepsDelivered<U>(s: Sio<U>, c: seq<byte>)
    requires Delivered(s, c)
    ensures Delivered(ServePushBack(s).0, c)
  {
    if s.recv != [] && s.push != [] {
      var room := s.recv[0].cap - |s.partial|;
      var n := if room <= 0 then 0 else if |s.push| > room then room else |s.push|;
      CompleteKeepsDelivered(s.(partial := s.partial + s.push[..n], push := s.push[n..]), c);
    }
  }

  lemma ServeKeepsDelivered<U>(s: Sio<U>, p: Plan<U>, e: Env, c: seq<byte>)
    requires Delivered(s, c) && Servable(s, p, e)
    ensures Delivered(Serve(s, p, e), c)
  {
    var s1 := ServeWait(s, p, e);
    if p.wait.Some? && SeenReadable(p, e) {
      EmptyRepliesKeepDelivered(s, s1, [WaitDone(s.wait[0].id, true, s.wait[0].user)], c);
    }
    if p.rx.Some? {
      RxKeepsDelivered(s1, p.rx.value.min, p.read && SeenReadable(p, e), e.rx, c);
    }
    var s2 := ServeRx(s, p, e).0;
    if p.tx.Some? {
      TxKeepsDelivered(s2, p.write && e.writable, e.tx, c);
    }
    FailKeepsDelivered(ServeTx(s, p, e).0, ERROR_IO, c);
  }

  lemma RxKeepsDelivered<U>(s: Sio<U>, min: nat, read: bool, res: RecvResult, c: seq<byte>)
    requires Delivered(s, c) && s.recv != []
    ensures Delivered(RxPhase(s, min, read, res).0, c)
  {
    CompleteKeepsDelivered(s, c);
    if read && res.Data? {
      CompleteKeepsDelivered(s.(partial := s.partial + res.chunk, hist := s.hist.(received := s.hist.received + res.chunk)), c);
    }
  }

  lemma TxKeepsDelivered<U>(s: Sio<U>, write: bool, res: SendResult, c: seq<byte>)
    requires Delivered(s, c) && s.send != [] && (write && res.Sent? ==> s.tx + res.n <= |Payload(s, s.send[0])|)
    ensures Delivered(TxPhase(s, write, res).0, c)
  {
    var m := s.send[0];
    var t := TxPhase(s, write, res).0;
    if t.send != s.send {
      EmptyRepliesKeepDelivered(s, t, [SendDone(m.id, m.user)], c);
    }
  }

  lemma WaitKeepsDelivered<U>(s: Sio<U>, e: Env, c: seq<byte>)
    requires EnvOk(s, e) && Delivered(s, c)
    ensures Delivered(WaitStep(s, e), c)
  {
    var (s1, p) := Prepare(s);
    PrepareKeepsDelivered(s, c);
    FailKeepsDelivered(s1, ERROR_WAIT, c);
    SignalsKeepDelivered(s1, e, c);
    if e.outcome == SocketReady {
      PickedStaysHead(s, e);
      ServeKeepsDelivered(Signals(s1, e), p, e, c);
    }
  }

  // ----- every receive has a reader -----

  /** The console message waiting for received data is a read; with `n > 0` no read asks for more than that. */
  predicate ReaderOk(u: Option<VReq>, n: nat) {
    u.Some? && u.value.op.VRead? && u.value.pkt.Some? && (n > 0 ==> u.value.op.size <= n)
  }

  /** A receive is made for its read: the same buffer, the size its message says unless that has been cleared, one byte at least. */
  predicate ReadReqOk(r: RecvReq<VReq>, n: nat) {
    && ReaderOk(r.user, n) && r.min == 1 && (n > 0 ==> r.cap <= n)
    && var op := r.user.value.op; r.buf == op.buf && (op.size == 0 || r.cap == op.size)
  }

  predicate ReadReplyOk(r: Reply<VReq>, n: nat) {
    r.RecvDone? ==>
      && ReaderOk(r.user, n) && (n > 0 ==> |r.data| <= n)
      && var size := r.user.value.op.size; size == 0 || |r.data| <= size
  }

  predicate ReadersOk(s: Sio<VReq>, n: nat) {
    && (forall i :: 0 <= i < |s.recv| ==> ReadReqOk(s.recv[i], n))
    && (forall i :: 0 <= i < |s.port| && s.port[i].Rx? ==> ReadReqOk(s.port[i].recv, n))
    && (forall i :: 0 <= i < |s.out| ==> ReadReplyOk(s.out[i], n))
  }

  lemma {:induction false} RecvsOfReadersOk(port: seq<Req<VReq>>, n: nat)
    requires forall i :: 0 <= i < |port| && port[i].Rx? ==> ReadReqOk(port[i].recv, n)
    ensures forall i :: 0 <= i < |RecvsOf(port)| ==> ReadReqOk(RecvsOf(port)[i], n)
  {
    if port != [] {
      RecvsOfReadersOk(port[..|port| - 1], n);
    }
  }

  /** Receives of one byte at least never keep bytes back between two waits. */
  lemma NothingPartial(s: Sio<VReq>, n: nat)
    requires Ledger(s) && ReadersOk(s, n)
    ensures s.partial == []
  {
  }

  lemma SignalsKeepReaders(s: Sio<VReq>, e: Env, n: nat)
    requires ReadersOk(s, n)
    ensures ReadersOk(Signals(s, e), n)
  {
    RecvsOfReadersOk(s.port, n);
    var s1 := if e.msgSig then Drain(s) else s;
    assert ReadersOk(s1, n);
    if e.timerSig {
      ExpireKeeps(s1, e.expired);
      ExpireRepliesNoRead(s1, e.expired);
      var t := Expire(s1, e.expired);
      forall i | 0 <= i < |t.out| ensures ReadReplyOk(t.out[i], n) {
        if i < |s1.out| {
          assert t.out[i] == t.out[..|s1.out|][i];
        }
      }
    }
  }

  lemma FailKeepsReaders(s: Sio<VReq>, code: nat, n: nat)
    requires ReadersOk(s, n)
    ensures ReadersOk(FailAll(s, code), n)
  {
  }

  lemma PrepareKeepsReaders(s: Sio<VReq>, n: nat)
    requires ReadersOk(s, n) && Ledger(s) && RecvsOk(s)
    ensures ReadersOk(Prepare(s).0, n)
  {
    NothingPartial(s, n);
    var s0 := FlushForState(s);
    assert ReadersOk(s0, n);
  }

  lemma RxKeepsReaders(s: Sio<VReq>, read: bool, res: RecvResult, n: nat)
    requires ReadersOk(s, n) && s.recv != [] && |s.partial| <= s.recv[0].cap
    requires read && res.Data? ==> |s.partial| + |res.chunk| <= s.recv[0].cap
    ensures ReadersOk(RxPhase(s, s.recv[0].min, read, res).0, n)
  {
  }

  lemma TxKeepsReaders(s: Sio<VReq>, write: bool, res: SendResult, n: nat)
    requires ReadersOk(s, n) && s.send != [] && (write && res.Sent? ==> s.tx + res.n <= |Payload(s, s.send[0])|)
    ensures ReadersOk(TxPhase(s, write, res).0, n)
  {
    TxPhaseFrame(s, write, res);
  }

  lemma ServeKeepsReaders(s: Sio<VReq>, p: Plan<VReq>, e: Env, n: nat)
    requires ReadersOk(s, n) && Servable(s, p, e) && ReadPlanned(s, p, e) && s.partial == []
    ensures ReadersOk(Serve(s, p, e), n)
  {
    ServeRxKeepsReaders(s, p, e, n);
    if p.tx.Some? {
      RxTouches(s, p, e);
      TxKeepsReaders(ServeRx(s, p, e).0, p.write && e.writable, e.tx, n);
    }
    FailKeepsReaders(ServeTx(s, p, e).0, ERROR_IO, n);
  }

  lemma ServeRxKeepsReaders(s: Sio<VReq>, p: Plan<VReq>, e: Env, n: nat)
    requires ReadersOk(s, n) && Servable(s, p, e) && ReadPlanned(s, p, e) && s.partial == []
    ensures ReadersOk(ServeRx(s, p, e).0, n)
  {
    var s1 := ServeWait(s, p, e);
    assert ReadersOk(s1, n);
    if p.rx.Some? {
      RxKeepsReaders(s1, p.read && SeenReadable(p, e), e.rx, n);
    }
  }

  lemma WaitKeepsReaders(s: Sio<VReq>, e: Env, n: nat)
    requires EnvOk(s, e) && ReadersOk(s, n) && Ledger(s) && RecvsOk(s)
    ensures ReadersOk(WaitStep(s, e), n)
  {
    var (s1, p) := Prepare(s);
    PrepareKeepsReaders(s, n);
    PrepareKeepsLedger(s);
    FailKeepsReaders(s1, ERROR_WAIT, n);
    SignalsKeepReaders(s1, e, n);
    NothingPartial(s1, n);
    if e.outcome == SocketReady {
      PickedStaysHead(s, e);
      ServeKeepsReaders(Signals(s1, e), p, e, n);
    }
  }

  // ----- the stream invariant of a session -----

  /**
   What was received is what has been looked at, what waits in replies, what sits in the head buffer and what is
   pushed back, in this order.
   */
  ghost predicate BackOk(sio: Sio<VReq>, consumed: seq<byte>, n: nat) {
    RecvsOk(sio) && Ledger(sio) && ReadersOk(sio, n) && Delivered(sio, consumed)
  }

  /**
   The data of the answers, given and on their way and still to come as `more`, is what was looked at without its
   signal bytes; and each of these signal bytes has been posted once.
   */
  ghost predicate FrontWith(s: Session, more: seq<byte>) {
    && AnswerData(s.vcon.answers) + (ReplyData(s.vcon.replies) + more) == Shown(s, s.consumed)
    && BytesPosted(s.posted) == (if s.parseSignals then SignalsIn(s.consumed) else [])
  }

  ghost predicate FrontOk(s: Session) { FrontWith(s, []) }

  ghost predicate StreamOk(s: Session, n: nat) { BackOk(s.sio, s.consumed, n) && FrontOk(s) }

  /**
   What pushing back the tail of the head reply needs: nothing else pushed back, room, and data delivered behind it,
   if any, that reads the same before and after the tail.
   */
  predicate GoesBack(sio: Sio<VReq>, tail: seq<byte>)
    requires sio.out != []
  {
    sio.push == [] && |tail| <= sio.pushMax && tail + DataOf(sio.out[1..]) == DataOf(sio.out[1..]) + tail
  }

  predicate SplitSafe(s: Session) {
    s.sio.out != [] && s.sio.out[0].RecvDone? && Rest(s, s.sio.out[0].data) != [] ==>
      GoesBack(s.sio, Rest(s, s.sio.out[0].data))
  }

  lemma SplitParts(s: Session, data: seq<byte>)
    ensures Looked(s, data) + Rest(s, data) == data
    ensures data != [] ==> Looked(s, data) != [] && |Rest(s, data)| < |data|
  {
  }

  lemma {:induction false} LineEndIs(data: seq<byte>)
    ensures forall i :: 0 <= i < LineEnd(data) - 1 ==> data[i] != 0x0A
    ensures LineEnd(data) < |data| ==> data[LineEnd(data) - 1] == 0x0A && LineEnd(data) > 0
  {
    if data != [] && data[0] != 0x0A {
      LineEndIs(data[1..]);
      assert forall i :: 0 < i < |data| ==> data[i] == data[1..][i - 1];
    }
  }

  /**
   A split keeps all bytes, delivers at least one, and leaves at most one byte behind the first newline of what it
   delivers; it happens exactly when two or more bytes follow the first newline.
   */
  lemma SplitAtLine(data: seq<byte>)
    requires data != []
    ensures LineOf(data) + TailOf(data) == data && LineOf(data) != []
    ensures forall i :: 0 <= i < |LineOf(data)| - 2 ==> LineOf(data)[i] != 0x0A
    ensures TailOf(data) != [] <==> exists i :: 0 <= i < |data| - 2 && data[i] == 0x0A
  {
    LineEndIs(data);
    if TailOf(data) != [] {
      assert data[LineEnd(data) - 1] == 0x0A;
    }
  }

  /** The tail goes back in front of the rest of the stream. */
  lemma TailGoesBack(sio: Sio<VReq>, c: seq<byte>, line: seq<byte>, tail: seq<byte>, n: nat)
    requires Ledger(sio) && ReadersOk(sio, n) && sio.hist.kept == c + (line + tail) + DataOf(sio.out)
    requires sio.push == [] && |tail| <= sio.pushMax && tail + DataOf(sio.out) == DataOf(sio.out) + tail
    ensures var t := PushBack(sio, tail);
            Ledger(t) && ReadersOk(t, n) && Delivered(t, c + line) && t == sio.(push := tail, hist := t.hist)
  {
    NothingPartial(sio, n);
    TailComesLast(c, line, tail, DataOf(sio.out), sio.hist.kept);
    PushBackKeepsLedger(sio, tail);
  }

  lemma TailComesLast(c: seq<byte>, line: seq<byte>, tail: seq<byte>, later: seq<byte>, kept: seq<byte>)
    requires kept == c + (line + tail) + later && tail + later == later + tail
    ensures kept == c + line + later + tail && |tail| <= |kept|
    ensures kept[..|kept| - |tail|] == c + line + later && kept[|kept| - |tail|..] == tail
  {
    Reassoc(c, line, tail);
    Reassoc(c + line, tail, later);
    Reassoc(c + line, later, tail);
  }

  lemma TakeKeepsBack(sio: Sio<VReq>, c: seq<byte>, n: nat)
    requires BackOk(sio, c, n) && sio.out != []
    ensures var t := Take(sio);
            && RecvsOk(t) && Ledger(t) && ReadersOk(t, n)
            && t.hist.kept == c + ReadData(sio.out[0]) + DataOf(t.out)
  {
    DataOfHead(sio.out);
    Reassoc(c, ReadData(sio.out[0]), DataOf(sio.out[1..]));
  }

  /** Looking at a line of the head reply's data. */
  lemma LookKeepsBack(sio: Sio<VReq>, c: seq<byte>, line: seq<byte>, tail: seq<byte>, n: nat)
    requires BackOk(sio, c, n) && sio.out != [] && ReadData(sio.out[0]) == line + tail
    requires tail != [] ==> GoesBack(sio, tail)
    ensures var t := if tail != [] then PushBack(Take(sio), tail) else Take(sio);
            BackOk(FreeMsg(t, sio.out[0].id), c + line, n)
  {
    TakeKeepsBack(sio, c, n);
    if tail != [] {
      TailGoesBack(Take(sio), c, line, tail, n);
    } else {
      assert line + [] == line;
    }
  }

  lemma ShownConcat(s: Session, line: seq<byte>)
    ensures Shown(s, s.consumed + line) == Shown(s, s.consumed) + Shown(s, line)
  {
    VisibleConcat(s.consumed, line);
  }

  lemma PostKeepsPosted(s: Session, line: seq<byte>)
    requires BytesPosted(s.posted) == (if s.parseSignals then SignalsIn(s.consumed) else [])
    ensures BytesPosted(PostSignals(s, line).posted) == (if s.parseSignals then SignalsIn(s.consumed + line) else [])
  {
    VisibleConcat(s.consumed, line);
    var t := PostSignals(s, line);
    assert |t.posted| > |s.posted| ==> t.posted[..|s.posted|] == s.posted;
    assert SignalsIn(s.consumed) + [] == SignalsIn(s.consumed);
  }

  /** The data a decision sends to the reader. */
  function DecidedData(d: Decision): seq<byte> { if d.Reply? && d.result.ReadDone? then d.result.data else [] }

  lemma ApplyKeepsFront(s: Session, q: VReq, d: Decision)
    requires FrontWith(s, DecidedData(d))
    ensures FrontOk(Apply(s, q, d))
  {
    match d
    case Reply(result) =>
      var r := VReply(q.vid, q.pkt, result);
      assert (s.vcon.replies + [r])[..|s.vcon.replies|] == s.vcon.replies;
      assert ReplyData(s.vcon.replies + [r]) + [] == ReplyData(s.vcon.replies) + DecidedData(d);
    case Forward(_) =>
  }

  lemma LookKeepsFront(s: Session, id: nat, data: seq<byte>)
    requires FrontOk(s)
    ensures FrontWith(TakeData(s, id, data), Shown(s, Looked(s, data)))
  {
    var line := Looked(s, data);
    var t, shown := TakeData(s, id, data), Shown(s, line);
    ShownConcat(s, line);
    PostKeepsPosted(s, line);
    TakeShows(s, id, data);
    MoreShown(AnswerData(s.vcon.answers), ReplyData(s.vcon.replies), Shown(s, s.consumed), shown);
  }

  lemma TakeShows(s: Session, id: nat, data: seq<byte>)
    ensures var t, line := TakeData(s, id, data), Looked(s, data);
            && t.vcon == s.vcon && t.posted == PostSignals(s, line).posted && t.parseSignals == s.parseSignals
            && t.consumed == s.consumed + line && Shown(t, t.consumed) == Shown(s, s.consumed + line)
  {
  }

  lemma MoreShown(given: seq<byte>, coming: seq<byte>, all: seq<byte>, shown: seq<byte>)
    requires given + (coming + []) == all
    ensures given + (coming + shown) == all + shown
  {
    assert coming + [] == coming;
    Assoc(given, coming, shown);
  }

  lemma DataKeepsFront(s: Session, id: nat, data: seq<byte>, q: VReq)
    requires FrontOk(s)
    ensures FrontOk(HandleData(s, id, data, q))
  {
    var t := TakeData(s, id, data);
    var shown := Shown(s, Looked(s, data));
    LookKeepsFront(s, id, data);
    ApplyKeepsFront(t, q, DecideData(t.sio, shown, q));
  }

  lemma LookedBack(s: Session, n: nat)
    requires BackOk(s.sio, s.consumed, n) && SplitSafe(s) && s.sio.out != [] && s.sio.out[0].RecvDone?
    ensures var t := TakeData(s.(sio := Take(s.sio)), s.sio.out[0].id, s.sio.out[0].data); BackOk(t.sio, t.consumed, n)
  {
    var data := s.sio.out[0].data;
    SplitParts(s, data);
    LookKeepsBack(s.sio, s.consumed, Looked(s, data), Rest(s, data), n);
  }

  lemma DataKeepsBack(s: Session, n: nat)
    requires BackOk(s.sio, s.consumed, n) && SplitSafe(s)
    requires s.sio.out != [] && s.sio.out[0].RecvDone? && s.sio.out[0].user.Some?
    ensures var r := s.sio.out[0];
            var t := HandleData(s.(sio := Take(s.sio)), r.id, r.data, r.user.value);
            BackOk(t.sio, t.consumed, n)
  {
    var r := s.sio.out[0];
    assert ReadReplyOk(r, n);
    LookedBack(s, n);
    var t := TakeData(s.(sio := Take(s.sio)), r.id, r.data);
    DecidedBack(t.sio, t.consumed, Shown(s, Looked(s, r.data)), r.user.value, n);
  }

  lemma DecidedBack(sio: Sio<VReq>, c: seq<byte>, shown: seq<byte>, q: VReq, n: nat)
    requires BackOk(sio, c, n) && ReaderOk(Some(q), n)
    ensures var d := DecideData(sio, shown, q); d.Forward? ==> BackOk(d.sio, c, n)
  {
    if CanSubmit(sio) {
      RereadKeepsBack(sio, c, q, n);
    }
  }

  lemma RereadKeepsBack(sio: Sio<VReq>, c: seq<byte>, q: VReq, n: nat)
    requires BackOk(sio, c, n) && CanSubmit(sio) && ReaderOk(Some(q), n)
    ensures BackOk(SubmitRecv(sio, ReadBuf(q), ReadSize(q), 1, Some(Reread(q))), c, n)
  {
    SubmitRecvKeepsBack(sio, c, ReadBuf(q), ReadSize(q), Reread(q), n);
  }

  lemma SubmitRecvKeepsBack(sio: Sio<VReq>, c: seq<byte>, buf: nat, size: nat, q: VReq, n: nat)
    requires BackOk(sio, c, n) && CanSubmit(sio) && ReaderOk(Some(q), n) && (n > 0 ==> size <= n) && buf == q.op.buf && (q.op.size == 0 || size == q.op.size)
    ensures BackOk(SubmitRecv(sio, buf, size, 1, Some(q)), c, n)
  {
    var t := SubmitRecv(sio, buf, size, 1, Some(q));
    forall i | 0 <= i < |t.port| && t.port[i].Rx? ensures RecvOk(t.port[i].recv) && ReadReqOk(t.port[i].recv, n) {
      if i < |sio.port| {
        assert t.port[i] == sio.port[i];
      }
    }
  }

  lemma FreedKeepsBack(s: Session, n: nat)
    requires BackOk(s.sio, s.consumed, n) && s.sio.out != [] && ReadData(s.sio.out[0]) == []
    ensures BackOk(Freed(s).sio, s.consumed, n)
  {
    TakeKeepsBack(s.sio, s.consumed, n);
    assert s.consumed + [] == s.consumed;
  }

  /** A reply with data is looked at; any other leaves the stream as it is. */
  lemma SockCases(s: Session)
    requires s.sio.out != []
    ensures var r, t := s.sio.out[0], HandleSock(s);
            if r.RecvDone? && r.data != [] && r.user.Some?
            then t == HandleData(s.(sio := Take(s.sio)), r.id, r.data, r.user.value)
            else t.sio == Freed(s).sio && t.consumed == s.consumed
  {
  }

  lemma SockKeepsBack(s: Session, n: nat)
    requires BackOk(s.sio, s.consumed, n) && SplitSafe(s) && s.sio.out != []
    ensures BackOk(HandleSock(s).sio, HandleSock(s).consumed, n)
  {
    var r := s.sio.out[0];
    SockCases(s);
    assert ReadReplyOk(r, n);
    if r.RecvDone? && r.data != [] && r.user.Some? {
      DataKeepsBack(s, n);
    } else {
      FreedKeepsBack(s, n);
    }
  }

  lemma FreedKeepsFront(s: Session, q: VReq)
    requires FrontOk(s) && s.sio.out != [] && (s.sio.out[0].RecvDone? ==> s.sio.out[0].data == [])
    ensures FrontOk(Freed(s)) && FrontOk(Apply(Freed(s), q, Reply(ResultOf(s.sio.out[0], q))))
  {
    var f := Freed(s);
    assert FrontOk(f);
    ApplyKeepsFront(f, q, Reply(ResultOf(s.sio.out[0], q)));
  }

  lemma SockKeepsFront(s: Session)
    requires FrontOk(s) && s.sio.out != []
    ensures FrontOk(HandleSock(s))
  {
    var r := s.sio.out[0];
    if r.user.None? {
      var f := Freed(s);
      assert FrontOk(f);
    } else if r.RecvDone? && r.data != [] {
      DataKeepsFront(s.(sio := Take(s.sio)), r.id, r.data, r.user.value);
    } else {
      FreedKeepsFront(s, r.user.value);
    }
  }

  lemma VconKeepsFront(s: Session, started: bool)
    requires FrontOk(s) && s.vcon.toUser != []
    ensures FrontOk(HandleVcon(s, started))
  {
    var q := s.vcon.toUser[0];
    var d := DecideVcon(Wrote(s), q, started);
    assert DecidedData(d) == [];
    assert FrontWith(Popped(Wrote(s)), []);
    ApplyKeepsFront(Popped(Wrote(s)), q, d);
  }

  predicate ForwardOk(q: VReq, n: nat) { q.op.VRead? ==> q.pkt.Some? && (n > 0 ==> q.op.size <= n) }

  lemma VconKeepsBack(s: Session, started: bool, n: nat)
    requires BackOk(s.sio, s.consumed, n) && s.vcon.toUser != []
    requires ForwardOk(s.vcon.toUser[0], n)
    ensures BackOk(HandleVcon(s, started).sio, HandleVcon(s, started).consumed, n)
  {
    var q, w := s.vcon.toUser[0], Wrote(s);
    var d := DecideVcon(w, q, started);
    MessageShape(s, started);
    MessageConsumesNothing(s, started);
    WroteKeepsBack(s, n);
    if d.Forward? {
      ForwardKeepsBack(w, q, started, d.sio, n);
    }
  }

  lemma MessageConsumesNothing(s: Session, started: bool)
    requires s.vcon.toUser != []
    ensures HandleVcon(s, started).consumed == s.consumed == Wrote(s).consumed
  {
  }

  lemma WroteKeepsBack(s: Session, n: nat)
    requires s.vcon.toUser != [] && BackOk(s.sio, s.consumed, n)
    ensures BackOk(Wrote(s).sio, s.consumed, n)
  {
  }

  lemma ForwardKeepsBack(s: Session, q: VReq, started: bool, t: Sio<VReq>, n: nat)
    requires BackOk(s.sio, s.consumed, n) && DecideVcon(s, q, started) == Forward(t)
    requires ForwardOk(q, n)
    ensures BackOk(t, s.consumed, n)
  {
    if q.op.VRead? {
      SubmitRecvKeepsBack(s.sio, s.consumed, q.op.buf, q.op.size, q, n);
    } else {
      OtherSubmitKeepsBack(s.sio, s.consumed, t, n);
    }
  }

  lemma OtherSubmitKeepsBack(sio: Sio<VReq>, c: seq<byte>, t: Sio<VReq>, n: nat)
    requires BackOk(sio, c, n) && |t.port| == |sio.port| + 1 && t.port[..|sio.port|] == sio.port && !t.port[|sio.port|].Rx?
    requires t.recv == sio.recv && t.out == sio.out && t.partial == sio.partial && t.push == sio.push
    requires t.state == sio.state && t.hist.kept == sio.hist.kept && t.hist.received == sio.hist.received
    ensures BackOk(t, c, n)
  {
    forall i | 0 <= i < |t.port| && t.port[i].Rx? ensures RecvOk(t.port[i].recv) && ReadReqOk(t.port[i].recv, n) {
      assert t.port[i] == t.port[..|sio.port|][i];
    }
  }

  lemma {:induction false} ReplyDataHead(rs: seq<VReply>)
    requires rs != []
    ensures ReplyData(rs) == ReplyBytes(rs[0]) + ReplyData(rs[1..])
  {
    var m := |rs| - 1;
    if m == 0 {
      assert rs[..0] == [] && rs[1..] == [];
      assert [] + ReplyBytes(rs[0]) == ReplyBytes(rs[0]) + [];
    } else {
      ReplyDataHead(rs[..m]);
      assert rs[..m][1..] == rs[1..][..m - 1] && rs[1..][m - 1] == rs[m];
      assert ReplyData(rs[1..]) == ReplyData(rs[1..][..m - 1]) + ReplyBytes(rs[m]);
      Reassoc(ReplyBytes(rs[0]), ReplyData(rs[1..][..m - 1]), ReplyBytes(rs[m]));
    }
  }

  lemma ReplyHandledKeepsFront(s: Session)
    requires FrontOk(s) && s.vcon.replies != []
    requires s.vcon.replies[0].pkt.Some? || !s.vcon.replies[0].result.ReadDone? || s.vcon.replies[0].result.data == []
    ensures FrontOk(s.(vcon := HandleReply(s.vcon)))
  {
    var r := s.vcon.replies[0];
    var data := if r.result.ReadDone? then r.result.data else [];
    ReplyDataHead(s.vcon.replies);
    Reassoc(AnswerData(s.vcon.answers), data, ReplyData(s.vcon.replies[1..]));
    assert ReplyData(s.vcon.replies) + [] == ReplyData(s.vcon.replies);
    assert ReplyData(s.vcon.replies[1..]) + [] == ReplyData(s.vcon.replies[1..]);
    var t := HandleReply(s.vcon);
    if r.pkt.Some? {
      assert t.answers[..|s.vcon.answers|] == s.vcon.answers;
    }
  }
}
