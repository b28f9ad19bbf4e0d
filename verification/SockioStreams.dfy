/** The two byte streams of the socket service: nothing received is lost or reordered, nothing sent overtakes. */
module SockioStreams {
  import opened Common
  import opened SockioSpec

  // ----- receiving -----

  /** A receive that can be satisfied, or one with no room at all, which never takes a byte. */
  predicate RecvOk<U>(r: RecvReq<U>) { 1 <= r.min && (r.min <= r.cap || r.cap == 0) }

  predicate RecvsOk<U>(s: Sio<U>) {
    && (forall i :: 0 <= i < |s.recv| ==> RecvOk(s.recv[i]))
    && (forall i :: 0 <= i < |s.port| && s.port[i].Rx? ==> RecvOk(s.port[i].recv))
  }

  /**
   While the socket is fine, the data of the answered reads, the bytes in the head buffer and the pushed-back
   bytes are together exactly what was received, in this order. After an end of file or error they are a
   prefix of it.
   */
  predicate Ledger<U>(s: Sio<U>) {
    && (s.state == Ok ==> s.hist.received == s.hist.kept + s.partial + s.push)
    && (s.state != Ok ==> s.partial == [] && s.hist.kept + s.push <= s.hist.received)
    && (s.partial != [] ==> s.recv != [] && s.push == [] && |s.partial| < s.recv[0].min && s.recv[0].cap > 0)
  }

  lemma {:induction false} RecvsOfOk<U>(port: seq<Req<U>>)
    requires forall i :: 0 <= i < |port| && port[i].Rx? ==> RecvOk(port[i].recv)
    ensures forall i :: 0 <= i < |RecvsOf(port)| ==> RecvOk(RecvsOf(port)[i])
  {
    if port != [] {
      RecvsOfOk(port[..|port| - 1]);
    }
  }

  /** Before a receive with room reads the socket, all pushed-back bytes are used up. */
  lemma PrepareKeepsLedger<U>(s: Sio<U>)
    requires RecvsOk(s) && Ledger(s)
    ensures var (s1, p) := Prepare(s);
            && RecvsOk(s1) && Ledger(s1)
            && s1.state == s.state && s1.hist.received == s.hist.received
            && (p.rx.Some? ==> s1.state == Ok && (s1.push == [] || p.rx.value.cap == 0))
  {
    var s0 := FlushForState(s);
    if s0.recv != [] && s0.push != [] {
      var r := s0.recv[0];
      var room := r.cap - |s0.partial|;
      var n := if |s0.push| > room then room else |s0.push|;
      assert s0.push[..n] + s0.push[n..] == s0.push;
      assert s0.partial + s0.push[..n] == s0.push[..n];
      Reassoc(s0.hist.kept, s0.push[..n], s0.push[n..]);
    }
  }

  lemma Reassoc<T>(a: seq<T>, b: seq<T>, c: seq<T>)
    ensures (a + b) + c == a + (b + c)
    ensures a + b + [] + c == a + b + c
    ensures a + [] == a
  {
  }

  lemma SignalsKeepLedger<U>(s: Sio<U>, e: Env)
    requires RecvsOk(s) && Ledger(s)
    ensures RecvsOk(Signals(s, e)) && Ledger(Signals(s, e)) && Signals(s, e).state == s.state
    ensures s.recv != [] ==> Signals(s, e).recv != [] && Signals(s, e).recv[0] == s.recv[0]
  {
    RecvsOfOk(s.port);
    var s1 := if e.msgSig then Drain(s) else s;
    if e.timerSig {
      ExpireKeeps(s1, e.expired);
    }
  }

  lemma RxKeepsLedger<U>(s: Sio<U>, read: bool, res: RecvResult)
    requires RecvsOk(s) && Ledger(s) && s.recv != [] && s.state == Ok && (s.push == [] || s.recv[0].cap == 0)
    requires read ==> |s.partial| < s.recv[0].min
    requires read && res.Data? ==> 1 <= |res.chunk| && |s.partial| + |res.chunk| <= s.recv[0].cap
    ensures var t := RxPhase(s, s.recv[0].min, read, res).0;
            && RecvsOk(t) && Ledger(t) && t.push == s.push
            && t.hist.received == s.hist.received + (if read && res.Data? then res.chunk else [])
  {
    var h := s.hist;
    assert h.kept + s.partial + [] == h.kept + s.partial;
    if read && res.Data? {
      Reassoc(h.kept, s.partial, res.chunk);
      Reassoc(h.kept, s.partial + res.chunk, []);
    }
  }

  lemma FailKeepsLedger<U>(s: Sio<U>, code: nat)
    requires Ledger(s) && RecvsOk(s)
    ensures Ledger(FailAll(s, code)) && RecvsOk(FailAll(s, code))
    ensures FailAll(s, code).hist == s.hist
  {
    var h := s.hist;
    if s.state == Ok {
      if s.partial == [] {
        assert h.kept + [] + s.push == h.kept + s.push;
      } else {
        assert h.kept + s.push == h.kept;
        assert h.kept <= h.kept + s.partial + s.push;
      }
    }
  }

  lemma TxKeepsLedger<U>(s: Sio<U>, write: bool, res: SendResult)
    requires Ledger(s) && RecvsOk(s) && s.send != [] && (write && res.Sent? ==> s.tx + res.n <= |Payload(s, s.send[0])|)
    ensures Ledger(TxPhase(s, write, res).0) && RecvsOk(TxPhase(s, write, res).0)
    ensures TxPhase(s, write, res).0.hist.received == s.hist.received
  {
  }

  /** What a wait step reads off the network. */
  function NetRead<U>(s: Sio<U>, e: Env): seq<byte> {
    if e.outcome == SocketReady then ReadBy(Prepare(s).1, e) else []
  }

  /** Every wait step keeps the ledger, and its account of received bytes grows by what `recv` returned. */
  lemma WaitKeepsLedger<U>(s: Sio<U>, e: Env)
    requires EnvOk(s, e) && RecvsOk(s) && Ledger(s)
    ensures RecvsOk(WaitStep(s, e)) && Ledger(WaitStep(s, e))
    ensures WaitStep(s, e).hist.received == s.hist.received + NetRead(s, e)
  {
    var (s1, p) := Prepare(s);
    PrepareKeepsLedger(s);
    assert s.hist.received + [] == s.hist.received;
    if e.outcome == SelectFailed {
      FailKeepsLedger(s1, ERROR_WAIT);
    } else {
      SignalsKeepLedger(s1, e);
      var s2 := Signals(s1, e);
      SignalsKeepHist(s1, e);
      if e.outcome == SocketReady {
        PickedStaysHead(s, e);
        ServeKeepsLedger(s2, p, e);
      }
    }
  }

  lemma SignalsKeepHist<U>(s: Sio<U>, e: Env)
    ensures Signals(s, e).hist == s.hist
  {
    var s1 := if e.msgSig then Drain(s) else s;
    if e.timerSig {
      ExpireKeeps(s1, e.expired);
    }
  }

  /** The planned read, if there is one, is within its bounds, and then all pushed-back bytes have been used. */
  predicate ReadPlanned<U>(s: Sio<U>, p: Plan<U>, e: Env) {
    && (p.rx.Some? ==> s.state == Ok && (s.push == [] || p.rx.value.cap == 0))
    && (p.read ==> p.rx.Some? && |s.partial| < p.rx.value.min)
    && (p.read && e.readable && e.rx.Data? ==> 1 <= |e.rx.chunk| && |s.partial| + |e.rx.chunk| <= p.rx.value.cap)
  }

  function ReadBy<U>(p: Plan<U>, e: Env): seq<byte> {
    if p.read && e.readable && e.rx.Data? then e.rx.chunk else []
  }

  lemma ServeKeepsLedger<U>(s: Sio<U>, p: Plan<U>, e: Env)
    requires RecvsOk(s) && Ledger(s) && Servable(s, p, e) && ReadPlanned(s, p, e)
    ensures RecvsOk(Serve(s, p, e)) && Ledger(Serve(s, p, e))
    ensures Serve(s, p, e).hist.received == s.hist.received + ReadBy(p, e)
  {
    var s2 := ServeRx(s, p, e).0;
    ServeRxKeepsLedger(s, p, e);
    RxTouches(s, p, e);
    var s3 := ServeTx(s, p, e).0;
    if p.tx.Some? {
      TxKeepsLedger(s2, p.write && e.writable, e.tx);
    }
    FailKeepsLedger(s3, ERROR_IO);
  }

  lemma ServeRxKeepsLedger<U>(s: Sio<U>, p: Plan<U>, e: Env)
    requires RecvsOk(s) && Ledger(s) && Servable(s, p, e) && ReadPlanned(s, p, e)
    ensures var t := ServeRx(s, p, e).0;
            && RecvsOk(t) && Ledger(t) && t.hist.received == s.hist.received + ReadBy(p, e)
  {
    var s1 := ServeWait(s, p, e);
    assert RecvsOk(s1) && Ledger(s1);
    assert s.hist.received + [] == s.hist.received;
    if p.rx.Some? {
      RxKeepsLedger(s1, p.read && SeenReadable(p, e), e.rx);
    }
  }

  /** Receiving leaves everything about sending alone. */
  lemma RxTouches<U>(s: Sio<U>, p: Plan<U>, e: Env)
    requires Servable(s, p, e)
    ensures SameSendSide(s, ServeRx(s, p, e).0)
    ensures var t := ServeRx(s, p, e).0; t.state == s.state || t.state == Eof
  {
  }

  ghost predicate SameSendSide<U>(s: Sio<U>, t: Sio<U>) {
    && t.send == s.send && t.port == s.port && t.tx == s.tx && t.report == s.report
    && t.hist.sent == s.hist.sent && t.hist.submitted == s.hist.submitted
  }

  // ----- a wait adds no receive -----

  ghost predicate AllRecvs<U>(s: Sio<U>, P: RecvReq<U> -> bool) {
    && (forall i :: 0 <= i < |s.recv| ==> P(s.recv[i]))
    && (forall i :: 0 <= i < |s.port| && s.port[i].Rx? ==> P(s.port[i].recv))
  }

  /** The receives are the same, or the first one or all of them are gone. */
  predicate FewerRecvs<U(==)>(before: seq<RecvReq<U>>, after: seq<RecvReq<U>>) {
    after == before || after == [] || (before != [] && after == before[1..])
  }

  lemma PrepareOnlyDrops<U>(s: Sio<U>)
    ensures var t := Prepare(s).0; FewerRecvs(s.recv, t.recv) && t.port == s.port
  {
  }

  lemma ServeRxOnlyDrops<U>(s: Sio<U>, p: Plan<U>, e: Env)
    requires Servable(s, p, e)
    ensures var t := ServeRx(s, p, e).0; FewerRecvs(s.recv, t.recv) && t.port == s.port
  {
    if p.rx.Some? {
      RxPhaseFrame(ServeWait(s, p, e), p.rx.value.min, p.read && SeenReadable(p, e), e.rx);
    }
  }

  lemma ServeTxKeepsRecvs<U>(s: Sio<U>, p: Plan<U>, e: Env)
    requires Servable(s, p, e)
    ensures var s2, s3 := ServeRx(s, p, e).0, ServeTx(s, p, e).0; s3.recv == s2.recv && s3.port == s2.port
  {
    if p.tx.Some? {
      TxPhaseFrame(ServeRx(s, p, e).0, p.write && e.writable, e.tx);
    }
  }

  lemma ServeOnlyDrops<U>(s: Sio<U>, p: Plan<U>, e: Env)
    requires Servable(s, p, e)
    ensures var t := Serve(s, p, e); FewerRecvs(s.recv, t.recv) && t.port == s.port
  {
    ServeRxOnlyDrops(s, p, e);
    ServeTxKeepsRecvs(s, p, e);
    var (s3, bad) := ServeTx(s, p, e);
    assert FailAll(s3, ERROR_IO).recv == [] && FailAll(s3, ERROR_IO).port == s3.port;
  }

  lemma DropsKeepAll<U>(s: Sio<U>, t: Sio<U>, P: RecvReq<U> -> bool)
    requires AllRecvs(s, P) && FewerRecvs(s.recv, t.recv) && t.port == s.port
    ensures AllRecvs(t, P)
  {
  }

  lemma {:induction false} RecvsOfAll<U>(port: seq<Req<U>>, P: RecvReq<U> -> bool)
    requires forall i :: 0 <= i < |port| && port[i].Rx? ==> P(port[i].recv)
    ensures forall i :: 0 <= i < |RecvsOf(port)| ==> P(RecvsOf(port)[i])
  {
    if port != [] {
      RecvsOfAll(port[..|port| - 1], P);
    }
  }

  lemma SignalsKeepAll<U>(s: Sio<U>, e: Env, P: RecvReq<U> -> bool)
    requires AllRecvs(s, P)
    ensures AllRecvs(Signals(s, e), P)
  {
    RecvsOfAll(s.port, P);
    ExpireKeeps(if e.msgSig then Drain(s) else s, e.expired);
  }

  /** What holds of every pending receive holds of those that are left after a wait. */
  lemma WaitKeepsAll<U>(s: Sio<U>, e: Env, P: RecvReq<U> -> bool)
    requires EnvOk(s, e) && AllRecvs(s, P)
    ensures AllRecvs(WaitStep(s, e), P)
  {
    var (s1, p) := Prepare(s);
    PrepareOnlyDrops(s);
    DropsKeepAll(s, s1, P);
    SignalsKeepAll(s1, e, P);
    if e.outcome == SocketReady {
      PickedStaysHead(s, e);
      ServeOnlyDrops(Signals(s1, e), p, e);
      DropsKeepAll(Signals(s1, e), WaitStep(s, e), P);
    }
  }

  lemma WaitKeepsRecvsOk<U>(s: Sio<U>, e: Env)
    requires EnvOk(s, e) && RecvsOk(s)
    ensures RecvsOk(WaitStep(s, e))
  {
    var P := (r: RecvReq<U>) => RecvOk(r);
    assert AllRecvs(s, P);
    WaitKeepsAll(s, e, P);
    var t := WaitStep(s, e);
    assert forall i :: 0 <= i < |t.recv| ==> P(t.recv[i]);
    assert forall i :: 0 <= i < |t.port| && t.port[i].Rx? ==> P(t.port[i].recv);
  }

  /**
   Handing bytes back keeps the ledger exactly when they are refused, or when nothing else is still pushed back, the head
   buffer is empty (or there are none to hand back), and they are the last bytes that were delivered.
   */
  lemma PushBackIff<U>(s: Sio<U>, data: seq<byte>)
    requires Ledger(s) && s.state == Ok && |data| <= |s.hist.kept|
    ensures Ledger(PushBack(s, data)) <==>
              || |data| > s.pushMax
              || (s.push == [] && (s.partial == [] || data == []) && s.hist.kept[|s.hist.kept| - |data|..] == data)
  {
    if |data| <= s.pushMax {
      var kept := s.hist.kept;
      var n := |kept| - |data|;
      assert kept == kept[..n] + kept[n..];
      if s.partial == [] {
        assert kept[..n] + [] + data == kept[..n] + data;
        assert kept + [] + s.push == kept[..n] + (kept[n..] + s.push);
        SameParts(kept[..n], kept[n..] + s.push, kept[..n], data);
      } else {
        assert data == [] ==> kept[..n] == kept && kept[n..] == [];
      }
    }
  }

  /** The same in any state, one way: a suffix of the delivered bytes may be handed back. */
  lemma PushBackKeepsLedger<U>(s: Sio<U>, data: seq<byte>)
    requires Ledger(s) && s.partial == [] && s.push == [] && |data| <= s.pushMax
    requires |data| <= |s.hist.kept| && s.hist.kept[|s.hist.kept| - |data|..] == data
    ensures Ledger(PushBack(s, data))
  {
    var kept := s.hist.kept;
    assert kept == kept[..|kept| - |data|] + data;
    assert kept + [] + [] == kept && kept + [] == kept;
    assert kept[..|kept| - |data|] + [] + data == kept;
  }

  /** Replacing the buffer of a pending receive moves its bytes along or pushes them back, if it succeeds. */
  lemma ReplaceKeepsLedger<U>(s: Sio<U>, k: nat, buf: nat, cap: nat, min: nat)
    requires RecvsOk(s) && Ledger(s) && k < |s.recv| && 1 <= min <= cap
    ensures var (t, ok) := ReplaceRecv(s, k, buf, cap, min);
            ok ==> RecvsOk(t) && Ledger(t) && t.hist.received == s.hist.received
  {
    var kept := s.hist.kept;
    if k == 0 {
      if |s.partial| > cap {
        assert s.partial == s.partial[..cap] + s.partial[cap..];
        Reassoc(kept, s.partial[..cap], s.partial[cap..]);
        assert kept + s.partial + [] == kept + s.partial;
      } else {
        assert s.partial[..|s.partial|] == s.partial;
        Reassoc(kept, s.partial, s.push);
      }
    }
  }

  // ----- sending -----

  function Payloads<U>(report: Report, ms: seq<SendReq<U>>): seq<seq<byte>> {
    seq(|ms|, i requires 0 <= i < |ms| => Bytes(report, ms[i].load))
  }

  function Pending<U>(s: Sio<U>): seq<SendReq<U>> { s.send + SendsOf(s.port) }

  function From(data: seq<byte>, n: nat): seq<byte> { if n <= |data| then data[n..] else [] }

  /** What is still to be read of the pending sends, as it reads now: of the first one, what the socket has not accepted. */
  function Unread<U>(s: Sio<U>): seq<byte> { From(Flatten(Payloads(s.report, Pending(s))), s.tx) }

  predicate TxOk<U>(s: Sio<U>) {
    && (s.state == Failed || s.send == [] ==> s.tx == 0)
    && (s.send != [] ==> s.tx <= |Payload(s, s.send[0])|)
  }

  /**
   Until an error, the bytes accepted by the socket and those still to be read are together the payloads as they were
   submitted, in this order. After an error the accepted ones are a prefix of them.
   */
  predicate Transmit<U>(s: Sio<U>) {
    && TxOk(s)
    && if s.state == Failed then s.hist.sent <= Flatten(s.hist.submitted)
       else s.hist.sent + Unread(s) == Flatten(s.hist.submitted)
  }

  lemma PayloadsConcat<U>(report: Report, a: seq<SendReq<U>>, b: seq<SendReq<U>>)
    ensures Payloads(report, a + b) == Payloads(report, a) + Payloads(report, b)
  {
  }

  lemma SendsOfSnoc<U>(port: seq<Req<U>>, m: Req<U>)
    ensures SendsOf(port + [m]) == SendsOf(port) + (if m.Tx? then [m.send] else [])
  {
    assert (port + [m])[..|port|] == port;
  }

  /** The unread bytes begin with those of the first send. */
  lemma HeadUnread<U>(report: Report, ms: seq<SendReq<U>>, tx: nat)
    requires ms != [] && tx <= |Bytes(report, ms[0].load)|
    ensures From(Flatten(Payloads(report, ms)), tx) == Bytes(report, ms[0].load)[tx..] + Flatten(Payloads(report, ms[1..]))
  {
    var head, rest := Bytes(report, ms[0].load), Payloads(report, ms[1..]);
    assert Payloads(report, ms) == [head] + rest;
    FlattenConcat([head], rest);
    FlattenOne(head);
    assert (head + Flatten(rest))[tx..] == head[tx..] + Flatten(rest);
  }

  lemma PendingHead<U>(s: Sio<U>)
    requires s.send != []
    ensures Pending(s) != [] && Pending(s)[0] == s.send[0] && Pending(s)[1..] == s.send[1..] + SendsOf(s.port)
  {
  }

  lemma TxInBounds<U>(s: Sio<U>)
    requires TxOk(s)
    ensures s.tx <= |Flatten(Payloads(s.report, Pending(s)))|
  {
    if s.send != [] {
      var payloads := Payloads(s.report, Pending(s));
      assert payloads == [payloads[0]] + payloads[1..];
      FlattenConcat([payloads[0]], payloads[1..]);
      FlattenOne(payloads[0]);
    }
  }

  lemma FlattenSnoc<T>(a: seq<seq<T>>, x: seq<T>)
    ensures Flatten(a + [x]) == Flatten(a) + x
  {
    assert (a + [x])[..|a|] == a;
  }

  lemma FromGrows(data: seq<byte>, more: seq<byte>, n: nat)
    requires n <= |data|
    ensures From(data + more, n) == From(data, n) + more
  {
  }

  /** A submitted payload comes last, both in what was submitted and in what is still to be read. */
  lemma SubmitAdds<U>(s: Sio<U>, load: Load, user: Option<U>)
    requires TxOk(s) && CanSubmit(s)
    ensures var t, bytes := SubmitSend(s, load, user), Bytes(s.report, load);
            && TxOk(t) && t.hist.sent == s.hist.sent && Unread(t) == Unread(s) + bytes
            && Flatten(t.hist.submitted) == Flatten(s.hist.submitted) + bytes
  {
    var bytes, m := Bytes(s.report, load), SendReq(s.free[0], load, user);
    SendsOfSnoc(s.port, Tx(m));
    PayloadsConcat(s.report, Pending(s), [m]);
    assert Pending(SubmitSend(s, load, user)) == Pending(s) + [m];
    assert Payloads(s.report, [m]) == [bytes];
    FlattenSnoc(Payloads(s.report, Pending(s)), bytes);
    TxInBounds(s);
    FromGrows(Flatten(Payloads(s.report, Pending(s))), bytes, s.tx);
    FlattenSnoc(s.hist.submitted, bytes);
  }

  lemma SubmitKeepsTransmit<U>(s: Sio<U>, load: Load, user: Option<U>)
    requires Transmit(s) && CanSubmit(s)
    ensures Transmit(SubmitSend(s, load, user))
  {
    SubmitAdds(s, load, user);
    Assoc(s.hist.sent, Unread(s), Bytes(s.report, load));
  }

  // ----- another report -----

  /** How much of a pending send has been read. */
  function Taken<U>(s: Sio<U>, i: nat): nat { if i == 0 then s.tx else 0 }

  /** Writing the report buffer is harmless if it changes no byte that is still to be read for an earlier report. */
  predicate Harmless<U>(s: Sio<U>, r: Report) {
    s.state == Failed ||
    forall i :: 0 <= i < |Pending(s)| && Pending(s)[i].load.Shared? ==> From(r, Taken(s, i)) == From(s.report, Taken(s, i))
  }

  /** With other contents of the report buffer the payloads are as long, and the same if each of them is. */
  lemma {:induction false} SamePayloadsIff<U>(a: Report, b: Report, ms: seq<SendReq<U>>)
    ensures |Flatten(Payloads(a, ms))| == |Flatten(Payloads(b, ms))|
    ensures Flatten(Payloads(a, ms)) == Flatten(Payloads(b, ms)) <==> forall i :: 0 <= i < |ms| && ms[i].load.Shared? ==> a == b
  {
    if ms != [] {
      var n := |ms| - 1;
      SamePayloadsIff(a, b, ms[..n]);
      var x, y := Payloads(a, ms[..n]), Payloads(b, ms[..n]);
      assert Payloads(a, ms) == x + [Bytes(a, ms[n].load)] && Payloads(b, ms) == y + [Bytes(b, ms[n].load)];
      FlattenSnoc(x, Bytes(a, ms[n].load));
      FlattenSnoc(y, Bytes(b, ms[n].load));
      SameParts(Flatten(x), Bytes(a, ms[n].load), Flatten(y), Bytes(b, ms[n].load));
    }
  }

  lemma SameParts<T>(a: seq<T>, x: seq<T>, b: seq<T>, y: seq<T>)
    requires |a| == |b|
    ensures a + x == b + y <==> a == b && x == y
  {
    if a + x == b + y {
      assert a == (a + x)[..|a|] && b == (b + y)[..|a|];
      assert x == (a + x)[|a|..] && y == (b + y)[|a|..];
    }
  }

  lemma WriteKeepsUnreadIff<U>(s: Sio<U>, r: Report)
    requires TxOk(s) && s.state != Failed
    ensures var t := s.(report := r);
            && TxOk(t) && |Unread(t)| == |Unread(s)|
            && (Unread(t) == Unread(s) <==> Harmless(s, r))
  {
    var t, ms := s.(report := r), Pending(s);
    assert Pending(t) == ms;
    if ms == [] {
      assert Payloads(r, ms) == Payloads(s.report, ms);
    } else {
      if s.send != [] {
        PendingHead(s);
      }
      HeadUnread(s.report, ms, s.tx);
      HeadUnread(r, ms, s.tx);
      SamePayloadsIff(r, s.report, ms[1..]);
      SameParts(Bytes(r, ms[0].load)[s.tx..], Flatten(Payloads(r, ms[1..])),
                Bytes(s.report, ms[0].load)[s.tx..], Flatten(Payloads(s.report, ms[1..])));
      HarmlessParts(s, r);
    }
  }

  /** Harmless for the first send, and for those behind it. */
  lemma HarmlessParts<U>(s: Sio<U>, r: Report)
    requires s.state != Failed && Pending(s) != []
    ensures var ms := Pending(s);
            Harmless(s, r) <==>
              && From(Bytes(r, ms[0].load), s.tx) == From(Bytes(s.report, ms[0].load), s.tx)
              && forall i :: 0 <= i < |ms[1..]| && ms[1..][i].load.Shared? ==> r == s.report
  {
    var ms := Pending(s);
    assert From(r, 0) == r && From(s.report, 0) == s.report;
    if Harmless(s, r) {
      forall i | 0 <= i < |ms[1..]| && ms[1..][i].load.Shared? ensures r == s.report {
        assert ms[i + 1].load.Shared?;
      }
    }
    if forall i :: 0 <= i < |ms[1..]| && ms[1..][i].load.Shared? ==> r == s.report {
      forall i | 1 <= i < |ms| && ms[i].load.Shared? ensures r == s.report {
        assert ms[1..][i - 1].load.Shared?;
      }
    }
  }

  /** Another report keeps the order if and only if it changes no byte that is still to be read. */
  lemma WriteKeepsTransmitIff<U>(s: Sio<U>, r: Report)
    requires Transmit(s)
    ensures Transmit(s.(report := r)) <==> Harmless(s, r)
  {
    if s.state != Failed {
      WriteKeepsUnreadIff(s, r);
      SameParts(s.hist.sent, Unread(s), s.hist.sent, Unread(s.(report := r)));
    }
  }

  lemma OtherSubmitKeepsTransmit<U>(s: Sio<U>, m: Req<U>, t: Sio<U>)
    requires Transmit(s) && !m.Tx? && t.port == s.port + [m] && t.hist == s.hist && t.send == s.send
    requires t.tx == s.tx && t.state == s.state && t.report == s.report
    ensures Transmit(t)
  {
    SendsOfSnoc(s.port, m);
    assert SendsOf(s.port) + [] == SendsOf(s.port);
  }

  lemma PrepareKeepsTransmit<U>(s: Sio<U>)
    requires Transmit(s)
    ensures var (s1, p) := Prepare(s);
            && Transmit(s1) && s1.state == s.state && s1.send == FlushForState(s).send && s1.tx == s.tx
            && s1.hist.sent == s.hist.sent && (s.state == Failed ==> s1.send == [])
            && (s1.send == [] ==> s1.tx == 0) && (p.rx.Some? ==> s1.state == Ok)
  {
  }

  lemma SignalsKeepTransmit<U>(s: Sio<U>, e: Env)
    requires Transmit(s) && (s.send == [] ==> s.tx == 0)
    ensures Transmit(Signals(s, e))
  {
    var s1 := if e.msgSig then Drain(s) else s;
    assert SendsOf<U>([]) == [];
    assert Pending(s1) == Pending(s);
    if e.timerSig {
      ExpireKeeps(s1, e.expired);
      assert Pending(Expire(s1, e.expired)) == Pending(s1);
    }
  }

  lemma TxKeepsTransmit<U>(s: Sio<U>, write: bool, res: SendResult)
    requires Transmit(s) && s.send != [] && s.state != Failed
    requires write && res.Sent? ==> s.tx + res.n <= |Payload(s, s.send[0])|
    ensures var t := TxPhase(s, write, res).0;
            Transmit(t) && t.hist.sent == s.hist.sent + (if write && res.Sent? then Payload(s, s.send[0])[s.tx..s.tx + res.n] else [])
  {
    var n := if write && res.Sent? then res.n else 0;
    var s1 := AcceptBytes(s, n);
    AcceptKeepsTransmit(s, n);
    assert Payload(s, s.send[0])[s.tx..s.tx] == [] && s.hist.sent + [] == s.hist.sent;
    if s1.tx == |Payload(s1, s1.send[0])| {
      CompleteKeepsTransmit(s1);
    }
  }

  function AcceptBytes<U>(s: Sio<U>, n: nat): Sio<U>
    requires s.send != [] && s.tx + n <= |Payload(s, s.send[0])|
  {
    s.(tx := s.tx + n, hist := s.hist.(sent := s.hist.sent + Payload(s, s.send[0])[s.tx..s.tx + n]))
  }

  lemma AcceptKeepsTransmit<U>(s: Sio<U>, n: nat)
    requires Transmit(s) && s.send != [] && s.state != Failed && s.tx + n <= |Payload(s, s.send[0])|
    ensures Transmit(AcceptBytes(s, n))
  {
    var payload, t := Payload(s, s.send[0]), AcceptBytes(s, n);
    PendingHead(s);
    assert Pending(t) == Pending(s);
    HeadUnread(s.report, Pending(s), s.tx);
    HeadUnread(s.report, Pending(s), s.tx + n);
    assert payload[s.tx..] == payload[s.tx..s.tx + n] + payload[s.tx + n..];
    Assoc(payload[s.tx..s.tx + n], payload[s.tx + n..], Flatten(Payloads(s.report, Pending(s)[1..])));
    Assoc(s.hist.sent, payload[s.tx..s.tx + n], Unread(t));
  }

  lemma CompleteKeepsTransmit<U>(s: Sio<U>)
    requires Transmit(s) && s.send != [] && s.state != Failed && s.tx == |Payload(s, s.send[0])|
    ensures Transmit(CompleteSend(s))
  {
    var t := CompleteSend(s);
    PendingHead(s);
    HeadUnread(s.report, Pending(s), s.tx);
    assert Pending(t) == Pending(s)[1..];
    assert [] + Flatten(Payloads(s.report, Pending(t))) == Unread(t);
  }

  lemma FailKeepsTransmit<U>(s: Sio<U>, code: nat)
    requires Transmit(s)
    ensures Transmit(FailAll(s, code)) && FailAll(s, code).hist == s.hist
  {
  }

  /** What a wait step hands to the network. */
  ghost function NetWritten<U>(s: Sio<U>, e: Env): seq<byte>
    requires EnvOk(s, e)
  {
    var (s1, p) := Prepare(s);
    if e.outcome == SocketReady
    then
      PickedStaysHead(s, e);
      WrittenBy(Signals(s1, e), p, e)
    else []
  }

  lemma WaitKeepsTransmit<U>(s: Sio<U>, e: Env)
    requires EnvOk(s, e) && Transmit(s)
    ensures Transmit(WaitStep(s, e))
    ensures WaitStep(s, e).hist.sent == s.hist.sent + NetWritten(s, e)
  {
    var (s1, p) := Prepare(s);
    PrepareKeepsTransmit(s);
    assert s.hist.sent + [] == s.hist.sent;
    if e.outcome == SelectFailed {
      FailKeepsTransmit(s1, ERROR_WAIT);
    } else {
      SignalsKeepTransmit(s1, e);
      SignalsKeepHist(s1, e);
      if e.outcome == SocketReady {
        PickedStaysHead(s, e);
        ServeKeepsTransmit(Signals(s1, e), p, e);
      }
    }
  }

  ghost function WrittenBy<U>(s: Sio<U>, p: Plan<U>, e: Env): seq<byte>
    requires Servable(s, p, e)
  {
    if p.write && e.writable && e.tx.Sent? then Payload(s, p.tx.value)[s.tx..s.tx + e.tx.n] else []
  }

  lemma ServeKeepsTransmit<U>(s: Sio<U>, p: Plan<U>, e: Env)
    requires Transmit(s) && Servable(s, p, e) && (p.rx.Some? || p.tx.Some? ==> s.state != Failed)
    ensures Transmit(Serve(s, p, e))
    ensures Serve(s, p, e).hist.sent == s.hist.sent + WrittenBy(s, p, e)
  {
    ServeTxKeepsTransmit(s, p, e);
    FailKeepsTransmit(ServeTx(s, p, e).0, ERROR_IO);
  }

  lemma ServeTxKeepsTransmit<U>(s: Sio<U>, p: Plan<U>, e: Env)
    requires Transmit(s) && Servable(s, p, e) && (p.rx.Some? || p.tx.Some? ==> s.state != Failed)
    ensures var t := ServeTx(s, p, e).0; Transmit(t) && t.hist.sent == s.hist.sent + WrittenBy(s, p, e)
  {
    var s2 := ServeRx(s, p, e).0;
    RxTouches(s, p, e);
    SendSideKeepsTransmit(s, s2);
    assert s.hist.sent + [] == s.hist.sent;
    if p.tx.Some? {
      TxKeepsTransmit(s2, p.write && e.writable, e.tx);
    }
  }

  lemma SendSideKeepsTransmit<U>(s: Sio<U>, t: Sio<U>)
    requires Transmit(s) && SameSendSide(s, t) && (t.state == Failed <==> s.state == Failed)
    ensures Transmit(t)
  {
  }
}
