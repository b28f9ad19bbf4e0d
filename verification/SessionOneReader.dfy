/** The read stream of a session with one reader at a time: every split is safe, so nothing is lost over any run. */
module SessionOneReader {
  import opened Common
  import opened SignalBytes
  import opened SockioSpec
  import opened SockioStreams
  import opened SockioPool
  import opened VconSpec
  import opened SessionSpec
  import opened SessionStream
  import opened SessionTheorems
  import opened SessionReads

  function IsRead(t: Tok<VReq>): nat { if t.user.Some? && t.user.value.op.VRead? then 1 else 0 }

  function ReadReqs(qs: seq<VReq>): nat {
    if qs == [] then 0 else ReadReqs(qs[..|qs| - 1]) + (if qs[|qs| - 1].op.VRead? then 1 else 0)
  }

  function ReadPkts(ps: seq<Pkt>): nat {
    if ps == [] then 0 else ReadPkts(ps[..|ps| - 1]) + (if ps[|ps| - 1].action.Read? then 1 else 0)
  }

  /** Reads that have arrived and wait for data. */
  ghost function Reads(s: Session): nat {
    ReadPkts(s.vcon.pkts) + ReadReqs(s.vcon.toUser) + Pool(s.sio, IsRead)
  }

  lemma {:induction false} ReadReqsHead(qs: seq<VReq>)
    requires qs != []
    ensures ReadReqs(qs) == (if qs[0].op.VRead? then 1 else 0) + ReadReqs(qs[1..])
  {
    var m := |qs| - 1;
    if m == 0 {
      assert qs[..0] == [] && qs[1..] == [];
    } else {
      ReadReqsHead(qs[..m]);
      assert qs[..m][1..] == qs[1..][..m - 1];
    }
  }

  lemma {:induction false} ReadPktsHead(ps: seq<Pkt>)
    requires ps != []
    ensures ReadPkts(ps) == (if ps[0].action.Read? then 1 else 0) + ReadPkts(ps[1..])
  {
    var m := |ps| - 1;
    if m == 0 {
      assert ps[..0] == [] && ps[1..] == [];
    } else {
      ReadPktsHead(ps[..m]);
      assert ps[..m][1..] == ps[1..][..m - 1];
    }
  }

  lemma TakeDataReads(s: Session, id: nat, data: seq<byte>)
    requires id in s.sio.held
    ensures Pool(TakeData(s, id, data).sio, IsRead) == Pool(s.sio, IsRead) && TakeData(s, id, data).vcon == s.vcon
  {
    PushBackWeighs(s.sio, Rest(s, data), IsRead);
    FreeKeepsPool(if Rest(s, data) != [] then PushBack(s.sio, Rest(s, data)) else s.sio, id, IsRead);
  }

  lemma RecvReads(sio: Sio<VReq>, buf: nat, size: nat, q: VReq)
    requires CanSubmit(sio)
    ensures Pool(SubmitRecv(sio, buf, size, 1, Some(q)), IsRead) == Pool(sio, IsRead) + (if q.op.VRead? then 1 else 0)
  {
    var t := SubmitRecv(sio, buf, size, 1, Some(q));
    SubmitMovesOne(sio, t.port[|sio.port|], t, IsRead);
  }

  lemma DataDecidedReads(sio: Sio<VReq>, shown: seq<byte>, q: VReq)
    ensures var d := DecideData(sio, shown, q);
            d.Forward? ==> Pool(d.sio, IsRead) == Pool(sio, IsRead) + (if q.op.VRead? then 1 else 0)
  {
    if CanSubmit(sio) {
      RecvReads(sio, ReadBuf(q), ReadSize(q), Reread(q));
    }
  }

  lemma DataReads(s: Session, id: nat, data: seq<byte>, q: VReq)
    requires id in s.sio.held
    ensures var t := HandleData(s, id, data, q);
            && Pool(t.sio, IsRead) <= Pool(s.sio, IsRead) + (if q.op.VRead? then 1 else 0)
            && t.vcon.pkts == s.vcon.pkts && t.vcon.toUser == s.vcon.toUser
  {
    TakeDataReads(s, id, data);
    var t := TakeData(s, id, data);
    var d := DecideData(t.sio, Shown(s, Looked(s, data)), q);
    DataDecidedReads(t.sio, Shown(s, Looked(s, data)), q);
    ApplyShape(t, q, d);
  }

  lemma SockReads(s: Session)
    requires s.sio.out != []
    ensures Reads(HandleSock(s)) <= Reads(s)
  {
    var r := s.sio.out[0];
    TakeMovesOne(s.sio, IsRead);
    if IsData(r) {
      DataReads(s.(sio := Take(s.sio)), r.id, r.data, r.user.value);
    } else {
      FreedReads(s);
    }
  }

  lemma FreedReads(s: Session)
    requires s.sio.out != [] && !IsData(s.sio.out[0])
    ensures Reads(HandleSock(s)) <= Reads(s)
  {
    TakeMovesOne(s.sio, IsRead);
    FreeKeepsPool(Take(s.sio), s.sio.out[0].id, IsRead);
    OtherShape(s);
  }

  lemma VconReads(s: Session, started: bool)
    requires s.vcon.toUser != []
    ensures Reads(HandleVcon(s, started)) <= Reads(s)
  {
    var q, w := s.vcon.toUser[0], Wrote(s);
    ReadReqsHead(s.vcon.toUser);
    ForwardReads(w, q, started);
    MessageShape(s, started);
    ApplyShape(Popped(w), q, DecideVcon(w, q, started));
    WroteReads(s);
  }

  lemma WroteReads(s: Session)
    requires s.vcon.toUser != []
    ensures Pool(Wrote(s).sio, IsRead) == Pool(s.sio, IsRead) && Wrote(s).vcon == s.vcon
  {
  }

  lemma ForwardReads(s: Session, q: VReq, started: bool)
    ensures var d := DecideVcon(s, q, started);
            d.Forward? ==> Pool(d.sio, IsRead) == Pool(s.sio, IsRead) + (if q.op.VRead? then 1 else 0)
  {
    var d := DecideVcon(s, q, started);
    if d.Forward? {
      SubmitMovesOne(s.sio, d.sio.port[|s.sio.port|], d.sio, IsRead);
    }
  }

  lemma PktReads(s: Session)
    requires s.vcon.pkts != []
    ensures Reads(s.(vcon := HandlePkt(s.vcon))) <= Reads(s)
  {
    ReadPktsHead(s.vcon.pkts);
    NewReadCounts(s.vcon);
    PktShape(s.vcon);
  }

  /** A packet taken off the port becomes at most one read, and only if it was one. */
  lemma NewReadCounts(v: Vcon)
    requires v.pkts != []
    ensures ReadReqs(HandlePkt(v).toUser) <= ReadReqs(v.toUser) + (if v.pkts[0].action.Read? then 1 else 0)
  {
    var t := HandlePkt(v);
    PktShape(v);
    NewReadOfPacket(v);
    if |t.toUser| > |v.toUser| {
      assert t.toUser[..|v.toUser|] == v.toUser;
    }
  }

  predicate IsReadArrival(ev: Event) { ev.PktArrives? && ev.p.action.Read? }

  lemma StepReads(s: Session, ev: Event)
    requires Enabled(s, ev)
    ensures Reads(Step(s, ev)) <= Reads(s) + (if IsReadArrival(ev) then 1 else 0)
  {
    match ev
    case PktArrives(p) => assert (s.vcon.pkts + [p])[..|s.vcon.pkts|] == s.vcon.pkts;
    case SocketWait(e) => WaitKeepsPool(s.sio, e, IsRead);
    case ConsolePacket => PktReads(s);
    case SocketReply => SockReads(s);
    case ConsoleMessage(started) => VconReads(s, started);
    case _ =>
  }

  /** What is pushed back is shorter than the bound, and nothing is pushed back while delivered data waits to be looked at. */
  predicate PushOk(sio: Sio<VReq>, c: seq<byte>, n: nat) {
    |sio.push| < n && (|sio.hist.kept| > |c| ==> sio.push == [])
  }

  /** A receive that has room at all has room for `k` bytes pushed back. */
  predicate HasRoom(cap: nat, k: nat) { cap == 0 || k <= cap }

  function RoomFor(k: nat): RecvReq<VReq> -> bool { (r: RecvReq<VReq>) => HasRoom(r.cap, k) }

  /** Every read on its way has room for what is pushed back. */
  ghost predicate RoomOk(s: Session) {
    var k := |s.sio.push|;
    && AllRecvs(s.sio, RoomFor(k))
    && (forall i :: 0 <= i < |s.vcon.toUser| && s.vcon.toUser[i].op.VRead? ==> k <= s.vcon.toUser[i].op.size)
    && (forall i :: 0 <= i < |s.vcon.pkts| && s.vcon.pkts[i].action.Read? ==> k <= s.vcon.pkts[i].action.size)
  }

  /** What is pushed back is still all right, and not more than before. */
  predicate Shrinks(s: Sio<VReq>, t: Sio<VReq>, c: seq<byte>, n: nat) {
    PushOk(t, c, n) && t.pushMax == s.pushMax && |t.push| <= |s.push|
  }

  lemma PrepareKeepsPushOk(s: Sio<VReq>, c: seq<byte>, n: nat)
    requires RecvsOk(s) && Ledger(s) && ReadersOk(s, n) && PushOk(s, c, n) && AllRecvs(s, RoomFor(|s.push|))
    ensures Shrinks(s, Prepare(s).0, c, n)
  {
    NothingPartial(s, n);
    var s0 := FlushForState(s);
    if s0.recv != [] && s0.push != [] {
      assert RoomFor(|s.push|)(s0.recv[0]);
    }
  }

  lemma RxKeepsPushOk(s: Sio<VReq>, p: Plan<VReq>, e: Env, c: seq<byte>, n: nat)
    requires Servable(s, p, e) && ReadPlanned(s, p, e) && PushOk(s, c, n) && s.partial == []
    requires p.rx.Some? ==> p.rx.value.min >= 1
    ensures var t := ServeRx(s, p, e).0; PushOk(t, c, n) && t.pushMax == s.pushMax && t.push == s.push
  {
    if p.rx.Some? {
      RxPhaseFrame(ServeWait(s, p, e), p.rx.value.min, p.read && SeenReadable(p, e), e.rx);
    }
  }

  lemma TxKeepsPush<U>(s: Sio<U>, write: bool, res: SendResult)
    requires s.send != [] && (write && res.Sent? ==> s.tx + res.n <= |Payload(s, s.send[0])|)
    ensures var t := TxPhase(s, write, res).0; t.hist.kept == s.hist.kept && t.push == s.push && t.pushMax == s.pushMax
  {
  }

  lemma ServeKeepsPushOk(s: Sio<VReq>, p: Plan<VReq>, e: Env, c: seq<byte>, n: nat)
    requires Servable(s, p, e) && ReadPlanned(s, p, e) && PushOk(s, c, n) && s.partial == []
    requires p.rx.Some? ==> p.rx.value.min >= 1
    ensures Shrinks(s, Serve(s, p, e), c, n)
  {
    RxKeepsPushOk(s, p, e, c, n);
    ServeTxShape(s, p, e);
    if p.tx.Some? {
      TxKeepsPush(ServeRx(s, p, e).0, p.write && e.writable, e.tx);
    }
    FailKeepsPushOk(ServeTx(s, p, e).0, ERROR_IO, c, n);
  }

  lemma WaitKeepsPushOk(s: Sio<VReq>, e: Env, c: seq<byte>, n: nat)
    requires EnvOk(s, e) && RecvsOk(s) && Ledger(s) && ReadersOk(s, n) && PushOk(s, c, n) && AllRecvs(s, RoomFor(|s.push|))
    ensures Shrinks(s, WaitStep(s, e), c, n)
  {
    var (s1, p) := Prepare(s);
    PrepareKeepsPushOk(s, c, n);
    PrepareKeepsLedger(s);
    PrepareKeepsReaders(s, n);
    NothingPartial(s1, n);
    SignalsKeepPushOk(s1, e, c, n);
    FailKeepsPushOk(s1, ERROR_WAIT, c, n);
    if e.outcome == SocketReady {
      ReadyKeepsPushOk(s, e, c, n);
    }
  }

  lemma ReadyKeepsPushOk(s: Sio<VReq>, e: Env, c: seq<byte>, n: nat)
    requires EnvOk(s, e) && e.outcome == SocketReady
    requires var (s1, p) := Prepare(s);
             && PushOk(Signals(s1, e), c, n) && s1.partial == [] && RecvsOk(s1)
             && (p.rx.Some? ==> s1.state == Ok && (s1.push == [] || p.rx.value.cap == 0))
    ensures Shrinks(Signals(Prepare(s).0, e), WaitStep(s, e), c, n)
  {
    var (s1, p) := Prepare(s);
    PickedStaysHead(s, e);
    ServeKeepsPushOk(Signals(s1, e), p, e, c, n);
  }

  lemma FailKeepsPushOk(s: Sio<VReq>, code: nat, c: seq<byte>, n: nat)
    requires PushOk(s, c, n)
    ensures Shrinks(s, FailAll(s, code), c, n)
  {
  }

  lemma SignalsKeepPushOk(s: Sio<VReq>, e: Env, c: seq<byte>, n: nat)
    requires PushOk(s, c, n)
    ensures Shrinks(s, Signals(s, e), c, n)
  {
    var d := if e.msgSig then Drain(s) else s;
    if e.timerSig {
      ExpireKeeps(d, e.expired);
    }
  }

  lemma LessKeepsRoom(sio: Sio<VReq>, t: Sio<VReq>, k: nat)
    requires AllRecvs(t, RoomFor(k)) && |t.push| <= k
    ensures AllRecvs(t, RoomFor(|t.push|))
  {
    forall i | 0 <= i < |t.recv| ensures RoomFor(|t.push|)(t.recv[i]) {
      assert RoomFor(k)(t.recv[i]);
    }
    forall i | 0 <= i < |t.port| && t.port[i].Rx? ensures RoomFor(|t.push|)(t.port[i].recv) {
      assert RoomFor(k)(t.port[i].recv);
    }
  }

  lemma WaitKeepsRoom(s: Session, e: Env, n: nat)
    requires EnvOk(s.sio, e) && StreamInv(s, n) && PushOk(s.sio, s.consumed, n) && RoomOk(s)
    ensures RoomOk(s.(sio := WaitStep(s.sio, e)))
  {
    WaitKeepsPushOk(s.sio, e, s.consumed, n);
    WaitKeepsAll(s.sio, e, RoomFor(|s.sio.push|));
    LessKeepsRoom(s.sio, WaitStep(s.sio, e), |s.sio.push|);
  }

  /** One reader at a time, asking for `n` bytes at most, each time for as many as are pushed back; and room to push back all but one of them. */
  ghost predicate OneRead(s: Session, n: nat) {
    n > 0 && n <= s.sio.pushMax + 1 && StreamInv(s, n) && Reads(s) <= 1 && PushOk(s.sio, s.consumed, n) && RoomOk(s)
  }

  lemma {:induction false} NoOtherRead(out: seq<Reply<VReq>>, n: nat)
    requires Sum(out, OutTok, IsRead) == 0 && forall i :: 0 <= i < |out| ==> ReadReplyOk(out[i], n)
    ensures DataOf(out) == []
  {
    if out != [] {
      var m := |out| - 1;
      NoOtherRead(out[..m], n);
      assert ReadReplyOk(out[m], n);
    }
  }

  /** The data about to be looked at is the last delivered, and nothing is pushed back. */
  lemma NothingBehind(s: Session, n: nat)
    requires OneRead(s, n) && s.sio.out != [] && IsData(s.sio.out[0])
    ensures DataOf(s.sio.out[1..]) == [] && s.sio.push == []
  {
    NoneBehind(s.sio, n);
    DataOfHead(s.sio.out);
    assert |s.sio.hist.kept| > |s.consumed|;
  }

  lemma NoneBehind(sio: Sio<VReq>, n: nat)
    requires ReadersOk(sio, n) && sio.out != [] && IsData(sio.out[0]) && Sum(sio.out, OutTok, IsRead) <= 1
    ensures DataOf(sio.out[1..]) == []
  {
    assert ReadReplyOk(sio.out[0], n);
    SumHead(sio.out, OutTok, IsRead);
    NoOtherRead(sio.out[1..], n);
  }

  lemma RestOfData(s: Session, n: nat)
    requires OneRead(s, n) && s.sio.out != [] && IsData(s.sio.out[0])
    ensures |Rest(s, s.sio.out[0].data)| < n && |s.sio.out[0].data| <= n
    ensures var size := s.sio.out[0].user.value.op.size; size == 0 || |Rest(s, s.sio.out[0].data)| <= size
    requires s.sio.out[0].user.value.op.VRead?
  {
    assert ReadReplyOk(s.sio.out[0], n);
    SplitParts(s, s.sio.out[0].data);
  }

  /** With one reader every split is safe. */
  lemma OneReadSplitsSafely(s: Session, n: nat)
    requires OneRead(s, n)
    ensures SplitSafe(s)
  {
    if s.sio.out != [] && s.sio.out[0].RecvDone? && Rest(s, s.sio.out[0].data) != [] {
      DataIsRead(s, n);
      TailGoesBack(s, n);
    }
  }

  lemma DataIsRead(s: Session, n: nat)
    requires OneRead(s, n) && s.sio.out != [] && s.sio.out[0].RecvDone? && s.sio.out[0].data != []
    ensures IsData(s.sio.out[0]) && s.sio.out[0].user.value.op.VRead?
  {
    assert ReadReplyOk(s.sio.out[0], n);
  }

  lemma TailGoesBack(s: Session, n: nat)
    requires OneRead(s, n) && s.sio.out != [] && IsData(s.sio.out[0]) && s.sio.out[0].user.value.op.VRead?
    ensures GoesBack(s.sio, Rest(s, s.sio.out[0].data))
  {
    var tail := Rest(s, s.sio.out[0].data);
    RestOfData(s, n);
    NothingBehind(s, n);
    assert tail + [] == [] + tail;
  }

  /** What goes back when the next reply is looked at. */
  function TailBack(s: Session): seq<byte>
    requires s.sio.out != []
  {
    if IsData(s.sio.out[0]) then Rest(s, s.sio.out[0].data) else []
  }

  lemma TailIsShort(s: Session, n: nat)
    requires OneRead(s, n) && s.sio.out != []
    ensures TailBack(s) != [] ==> |TailBack(s)| < n && DataOf(s.sio.out[1..]) == []
    ensures Pushed(s) == if TailBack(s) == [] then Take(s.sio) else PushBack(Take(s.sio), TailBack(s))
  {
    assert ReadReplyOk(s.sio.out[0], n);
    if IsData(s.sio.out[0]) {
      NothingBehind(s, n);
      RestOfData(s, n);
    }
  }

  lemma SockKeepsPushOk(s: Session, n: nat)
    requires OneRead(s, n) && s.sio.out != []
    ensures PushOk(HandleSock(s).sio, HandleSock(s).consumed, n) && HandleSock(s).sio.pushMax == s.sio.pushMax
  {
    var t := HandleSock(s);
    OneReadSplitsSafely(s, n);
    SockKeepsBack(s, n);
    SockShape(s);
    DataOfHead(s.sio.out);
    TailIsShort(s, n);
    PushedShort(s.sio, s.consumed, t.sio, t.consumed, TailBack(s), n);
  }

  lemma PushedShort(sio: Sio<VReq>, c: seq<byte>, t: Sio<VReq>, c': seq<byte>, tail: seq<byte>, n: nat)
    requires PushOk(sio, c, n) && Delivered(sio, c) && Delivered(t, c') && sio.out != []
    requires SameRecvSide(t, if tail == [] then Take(sio) else PushBack(Take(sio), tail))
    requires t.out == sio.out[1..] && DataOf(sio.out) == ReadData(sio.out[0]) + DataOf(t.out)
    requires tail != [] ==> |tail| < n && DataOf(t.out) == []
    ensures PushOk(t, c', n) && t.pushMax == sio.pushMax
  {
  }

  /** The reader's part: a read only when no other one waits for data, for as many bytes as are pushed back, and not too many. */
  ghost predicate Disciplined(s: Session, ev: Event, n: nat) {
    ReadSized(ev, n) && (IsReadArrival(ev) ==> Reads(s) == 0 && |s.sio.push| <= ev.p.action.size)
  }

  lemma StepKeepsOneRead(s: Session, ev: Event, n: nat)
    requires Enabled(s, ev) && OneRead(s, n) && Disciplined(s, ev, n)
    ensures OneRead(Step(s, ev), n)
  {
    OneReadSplitsSafely(s, n);
    StepKeepsStream(s, ev, n);
    StepReads(s, ev);
    StepKeepsPushOk(s, ev, n);
    StepKeepsRoom(s, ev, n);
  }

  lemma VconLeavesRoom(s: Session, started: bool, k: nat)
    requires s.vcon.toUser != [] && AllRecvs(s.sio, RoomFor(k)) && (s.vcon.toUser[0].op.VRead? ==> k <= s.vcon.toUser[0].op.size)
    ensures AllRecvs(HandleVcon(s, started).sio, RoomFor(k))
  {
    var q, w := s.vcon.toUser[0], Wrote(s);
    var d := DecideVcon(w, q, started);
    MessageShape(s, started);
    DecisionShape(w, q, started);
    if d.Forward? {
      ForwardedRequest(w, q, started);
      SubmitKeepsRoom(w.sio, d.sio, k, q);
    }
  }

  lemma VconKeepsRoom(s: Session, started: bool)
    requires RoomOk(s) && s.vcon.toUser != []
    ensures RoomOk(HandleVcon(s, started))
  {
    VconShape(s, started);
    VconTakesOne(s, started);
    VconLeavesRoom(s, started, |s.sio.push|);
  }

  lemma SubmitKeepsRoom(sio: Sio<VReq>, t: Sio<VReq>, k: nat, q: VReq)
    requires AllRecvs(sio, RoomFor(k)) && t.recv == sio.recv && |t.port| == |sio.port| + 1 && t.port[..|sio.port|] == sio.port
    requires t.port[|sio.port|].Rx? ==> HasRoom(t.port[|sio.port|].recv.cap, k)
    ensures AllRecvs(t, RoomFor(k))
  {
    forall i | 0 <= i < |t.port| && t.port[i].Rx? ensures RoomFor(k)(t.port[i].recv) {
      if i < |sio.port| {
        assert t.port[i] == t.port[..|sio.port|][i];
      }
    }
  }

  lemma PktKeepsRoom(s: Session)
    requires RoomOk(s) && s.vcon.pkts != []
    ensures RoomOk(s.(vcon := HandlePkt(s.vcon)))
  {
    PktShape(s.vcon);
    NewReadOfPacket(s.vcon);
  }

  /** The only read has no others behind it. */
  lemma NoReadBehind(s: Session, n: nat)
    requires OneRead(s, n) && s.sio.out != [] && IsData(s.sio.out[0])
    ensures s.sio.recv == [] && (forall i :: 0 <= i < |s.sio.port| ==> !s.sio.port[i].Rx?)
    ensures (forall i :: 0 <= i < |s.vcon.toUser| ==> !s.vcon.toUser[i].op.VRead?)
    ensures (forall i :: 0 <= i < |s.vcon.pkts| ==> !s.vcon.pkts[i].action.Read?)
  {
    assert ReadReplyOk(s.sio.out[0], n);
    SumMember(s.sio.out, 0, OutTok, IsRead);
    RecvsAreReads(s.sio.recv, n);
    PortReads(s.sio.port, n);
    NoReadReqs(s.vcon.toUser);
    NoReadPkts(s.vcon.pkts);
  }

  lemma RecvsAreReads(rs: seq<RecvReq<VReq>>, n: nat)
    requires forall i :: 0 <= i < |rs| ==> ReadReqOk(rs[i], n)
    ensures rs != [] ==> Sum(rs, RecvTok, IsRead) >= 1
  {
    if rs != [] {
      SumMember(rs, 0, RecvTok, IsRead);
    }
  }

  lemma {:induction false} PortReads(port: seq<Req<VReq>>, n: nat)
    requires forall i :: 0 <= i < |port| && port[i].Rx? ==> ReadReqOk(port[i].recv, n)
    ensures Sum(port, ReqTok, IsRead) == 0 ==> forall i :: 0 <= i < |port| ==> !port[i].Rx?
  {
    if port != [] {
      PortReads(port[..|port| - 1], n);
    }
  }

  lemma {:induction false} NoReadReqs(qs: seq<VReq>)
    ensures ReadReqs(qs) == 0 ==> forall i :: 0 <= i < |qs| ==> !qs[i].op.VRead?
  {
    if qs != [] {
      NoReadReqs(qs[..|qs| - 1]);
    }
  }

  lemma {:induction false} NoReadPkts(ps: seq<Pkt>)
    ensures ReadPkts(ps) == 0 ==> forall i :: 0 <= i < |ps| ==> !ps[i].action.Read?
  {
    if ps != [] {
      NoReadPkts(ps[..|ps| - 1]);
    }
  }

  /** A looked-at reply leaves at most one receive, which has room for the tail. */
  lemma DataKeepsRoom(s: Session, n: nat)
    requires OneRead(s, n) && s.sio.out != [] && IsData(s.sio.out[0])
    ensures RoomOk(HandleSock(s))
  {
    var r := s.sio.out[0];
    NoReadBehind(s, n);
    TailFitsRead(s, n);
    SockCases(s);
    RereadRequest(s.(sio := Take(s.sio)), r.id, r.data, r.user.value);
    RoomForRead(HandleSock(s), ReadSize(r.user.value));
  }

  lemma TailFitsRead(s: Session, n: nat)
    requires OneRead(s, n) && s.sio.out != [] && IsData(s.sio.out[0])
    ensures HasRoom(ReadSize(s.sio.out[0].user.value), |HandleSock(s).sio.push|)
  {
    assert ReadReplyOk(s.sio.out[0], n);
    NothingBehind(s, n);
    RestOfData(s, n);
    SockShape(s);
  }

  lemma RoomForRead(s: Session, size: nat)
    requires HasRoom(size, |s.sio.push|) && s.sio.recv == []
    requires forall i :: 0 <= i < |s.sio.port| && s.sio.port[i].Rx? ==> s.sio.port[i].recv.cap == size
    requires forall i :: 0 <= i < |s.vcon.toUser| ==> !s.vcon.toUser[i].op.VRead?
    requires forall i :: 0 <= i < |s.vcon.pkts| ==> !s.vcon.pkts[i].action.Read?
    ensures RoomOk(s)
  {
  }

  lemma RereadRequest(s: Session, id: nat, data: seq<byte>, q: VReq)
    requires (forall i :: 0 <= i < |s.sio.port| ==> !s.sio.port[i].Rx?) && s.sio.recv == []
    ensures var t := HandleData(s, id, data, q);
            && t.sio.recv == [] && t.vcon.toUser == s.vcon.toUser && t.vcon.pkts == s.vcon.pkts
            && forall i :: 0 <= i < |t.sio.port| && t.sio.port[i].Rx? ==> t.sio.port[i].recv.cap == ReadSize(q)
  {
    var t := TakeData(s, id, data);
    var d := DecideData(t.sio, Shown(s, Looked(s, data)), q);
    assert t.sio.port == s.sio.port && t.sio.recv == [];
    ApplyShape(t, q, d);
  }

  lemma SockKeepsRoom(s: Session, n: nat)
    requires OneRead(s, n) && s.sio.out != []
    ensures RoomOk(HandleSock(s))
  {
    if IsData(s.sio.out[0]) {
      DataKeepsRoom(s, n);
    } else {
      OtherShape(s);
    }
  }

  lemma ArriveKeepsRoom(s: Session, p: Pkt)
    requires RoomOk(s) && (p.action.Read? ==> |s.sio.push| <= p.action.size)
    ensures RoomOk(s.(vcon := Arrive(s.vcon, p)))
  {
  }

  lemma StepKeepsRoom(s: Session, ev: Event, n: nat)
    requires Enabled(s, ev) && OneRead(s, n) && Disciplined(s, ev, n)
    ensures RoomOk(Step(s, ev))
  {
    match ev
    case PktArrives(p) => ArriveKeepsRoom(s, p);
    case SocketWait(e) => WaitKeepsRoom(s, e, n);
    case ConsolePacket => PktKeepsRoom(s);
    case ConsoleReply => assert HandleReply(s.vcon).toUser == s.vcon.toUser && HandleReply(s.vcon).pkts == s.vcon.pkts;
    case SocketReply => SockKeepsRoom(s, n);
    case ConsoleMessage(started) => VconKeepsRoom(s, started);
    case IdleCheck =>
  }

  lemma StepKeepsPushOk(s: Session, ev: Event, n: nat)
    requires Enabled(s, ev) && OneRead(s, n)
    ensures PushOk(Step(s, ev).sio, Step(s, ev).consumed, n) && Step(s, ev).sio.pushMax == s.sio.pushMax
  {
    match ev
    case SocketWait(e) => WaitKeepsPushOk(s.sio, e, s.consumed, n);
    case SocketReply => SockKeepsPushOk(s, n);
    case ConsoleMessage(started) => VconShape(s, started);
    case _ =>
  }

  lemma VconShape(s: Session, started: bool)
    requires s.vcon.toUser != []
    ensures SameRecvSide(HandleVcon(s, started).sio, s.sio) && HandleVcon(s, started).consumed == s.consumed
  {
    var q, w := s.vcon.toUser[0], Wrote(s);
    var d := DecideVcon(w, q, started);
    ApplyShape(Popped(w), q, d);
    DecisionShape(w, q, started);
    if d.Forward? {
      ForwardedShape(w, q, started);
    }
  }

  lemma ForwardedShape(s: Session, q: VReq, started: bool)
    requires CanSubmit(s.sio) && !q.op.VEnd?
    ensures SameRecvSide(Forwarded(s, q, started), s.sio)
  {
  }

  /**
   The end-to-end read stream. A session with one reader, whose reads are as large as what is pushed back and not
   larger than the push-back buffer by more than one: in every state of every run, for every chunking by the network,
   bytes received, looked at, waiting and pushed back add up in order, and the answers carry exactly the bytes looked
   at that are no signals.
   */
  lemma {:induction false} EndToEnd(states: seq<Session>, evs: seq<Event>, i: nat, n: nat)
    requires IsRun(states, evs) && i < |states| && OneRead(states[0], n)
    requires forall k :: 0 <= k < |evs| ==> Disciplined(states[k], evs[k], n)
    ensures OneRead(states[i], n)
    ensures var s := states[i];
            && (s.sio.state == Ok ==> s.sio.hist.received == s.consumed + DataOf(s.sio.out) + s.sio.push)
            && s.consumed <= s.sio.hist.received
            && AnswerData(s.vcon.answers) + ReplyData(s.vcon.replies) == (if s.parseSignals then Visible(s.consumed) else s.consumed)
            && BytesPosted(s.posted) == (if s.parseSignals then SignalsIn(s.consumed) else [])
  {
    if i > 0 {
      EndToEnd(states, evs, i - 1, n);
      StepKeepsOneRead(states[i - 1], evs[i - 1], n);
    }
    AccountOf(states[i], n);
  }

  lemma AccountOf(s: Session, n: nat)
    requires OneRead(s, n)
    ensures s.sio.state == Ok ==> s.sio.hist.received == s.consumed + DataOf(s.sio.out) + s.sio.push
    ensures s.consumed <= s.sio.hist.received
    ensures AnswerData(s.vcon.answers) + ReplyData(s.vcon.replies) == if s.parseSignals then Visible(s.consumed) else s.consumed
  {
    NothingPartial(s.sio, n);
    assert s.sio.hist.kept + [] == s.sio.hist.kept;
    assert ReplyData(s.vcon.replies) + [] == ReplyData(s.vcon.replies);
    assert s.consumed <= s.sio.hist.kept <= s.sio.hist.kept + s.sio.push;
  }

  lemma {:induction false} IdleReadsNothing(ids: seq<nat>)
    ensures Sum(ids, IdleTok, IsRead) == 0
  {
    if ids != [] {
      IdleReadsNothing(ids[..|ids| - 1]);
    }
  }

  lemma StartIsOneRead(sids: seq<nat>, vids: seq<nat>, pushMax: nat, split: bool, parse: bool, medium: bool, send: bool, n: nat)
    requires 0 < n <= pushMax + 1
    ensures OneRead(Start(sids, vids, pushMax, split, parse, medium, send), n)
  {
    IdleReadsNothing(sids);
  }
}
