/**
 A read that finds nothing but signals twice in a row: the connection is taken for closed although the other side has
 not closed it. Shown from any session that has just been asked for a read and has nothing else to do.
 */
module SessionSignals {
  import opened Common
  import opened SignalBytes
  import opened SockioSpec
  import opened VconSpec
  import opened SessionSpec
  import opened SessionLeads

  /** A service with nothing but this receive on its port. */
  predicate Asked(sio: Sio<VReq>, r: RecvReq<VReq>) {
    && sio.port == [Rx(r)] && sio.recv == [] && sio.send == [] && sio.wait == [] && sio.out == []
    && sio.partial == [] && sio.push == [] && sio.state == Ok
  }

  lemma RequestTaken(sio: Sio<VReq>, r: RecvReq<VReq>)
    requires Asked(sio, r)
    ensures EnvOk(sio, TakesRequest) && WaitStep(sio, TakesRequest) == sio.(port := [], recv := [r])
  {
    var port: seq<Req<VReq>> := [Rx(r)];
    var none: seq<Req<VReq>> := port[..0];
    assert none == [] && RecvsOf(none) == [] && SendsOf(none) == [] && WaitsOf(none) == [];
    assert RecvsOf(port) == RecvsOf(none) + [r] == [r];
    assert SendsOf(port) == SendsOf(none) + [] == [];
    assert WaitsOf(port) == WaitsOf(none) + [] == [];
  }

  lemma DataTaken(sio: Sio<VReq>, r: RecvReq<VReq>, data: seq<byte>)
    requires Asked(sio, r) && r.min == 1 <= |data| <= r.cap
    ensures var s := sio.(port := [], recv := [r]);
            && EnvOk(s, Receives(Data(data)))
            && var t := WaitStep(s, Receives(Data(data)));
               t == sio.(port := [], out := [RecvDone(r.id, data, r.user)], hist := t.hist)
  {
    assert [] + data == data;
  }

  /** The events of one such round. */
  function Round(data: seq<byte>): seq<Event> {
    [SocketWait(TakesRequest), SocketWait(Receives(Data(data))), SocketReply]
  }

  function AfterData(s: Session, r: RecvReq<VReq>, data: seq<byte>, h: Hist): Session {
    s.(sio := s.sio.(port := [], out := [RecvDone(r.id, data, r.user)], hist := h))
  }

  lemma LooksAtSignals(s: Session, r: RecvReq<VReq>, q: VReq, data: seq<byte>, h: Hist)
    requires Asked(s.sio, r) && r.user == Some(q) && q.op.VRead? && s.parseSignals && !Cooked(s)
    requires data != [] && Visible(data) == []
    ensures var t := HandleSock(AfterData(s, r, data, h));
            && |t.sio.port| == 1 && t.sio.port[0].Rx? && Asked(t.sio, t.sio.port[0].recv)
            && t.sio.port[0].recv == RecvReq(t.sio.port[0].recv.id, q.op.buf, q.op.size, 1, Some(Reread(q)))
            && t.parseSignals && !Cooked(t)
  {
    var s1 := AfterData(s, r, data, h);
    var t := TakeData(s1.(sio := Take(s1.sio)), r.id, data);
    assert CanSubmit(t.sio) && t.sio.port == [];
  }

  // ----- two rounds of signals -----

  lemma DataLeads(s: Session, r: RecvReq<VReq>, data: seq<byte>) returns (h: Hist)
    requires Asked(s.sio, r) && r.min == 1 <= |data| <= r.cap
    ensures Leads(s, [SocketWait(TakesRequest), SocketWait(Receives(Data(data)))], AfterData(s, r, data, h))
  {
    RequestTaken(s.sio, r);
    DataTaken(s.sio, r, data);
    var s1 := s.(sio := s.sio.(port := [], recv := [r]));
    var sio2 := WaitStep(s1.sio, Receives(Data(data)));
    h := sio2.hist;
    WaitLeads(s, TakesRequest, s1.sio);
    WaitLeads(s1, Receives(Data(data)), sio2);
    LeadsOn(s, [SocketWait(TakesRequest)], s1, [SocketWait(Receives(Data(data)))], s1.(sio := sio2));
    assert s1.(sio := sio2) == AfterData(s, r, data, h);
    assert [SocketWait(TakesRequest)] + [SocketWait(Receives(Data(data)))] ==
           [SocketWait(TakesRequest), SocketWait(Receives(Data(data)))];
  }

  /** After a round of signals the same read is asked again, with the size its message says, and the message says zero. */
  lemma SignalRound(s: Session, r: RecvReq<VReq>, q: VReq, data: seq<byte>) returns (t: Session, again: RecvReq<VReq>)
    requires Asked(s.sio, r) && r.user == Some(q) && q.op.VRead? && r.min == 1 && s.parseSignals && !Cooked(s)
    requires 1 <= |data| <= r.cap && Visible(data) == []
    ensures Leads(s, Round(data), t) && Asked(t.sio, again) && t.parseSignals && !Cooked(t)
    ensures again == RecvReq(again.id, q.op.buf, q.op.size, 1, Some(Reread(q)))
  {
    var h := DataLeads(s, r, data);
    var s2 := AfterData(s, r, data, h);
    LooksAtSignals(s, r, q, data, h);
    LeadsOne(s2, SocketReply);
    t := HandleSock(s2);
    again := t.sio.port[0].recv;
    var waits := [SocketWait(TakesRequest), SocketWait(Receives(Data(data)))];
    LeadsOn(s, waits, s2, [SocketReply], t);
    assert waits + [SocketReply] == Round(data);
  }

  lemma ZeroTaken(sio: Sio<VReq>, r: RecvReq<VReq>)
    requires Asked(sio, r) && r.min == 1
    ensures var s := sio.(port := [], recv := [r]);
            && EnvOk(s, Receives(Closed))
            && WaitStep(s, Receives(Closed)) == sio.(port := [], out := [RecvDone(r.id, [], r.user)], state := Eof)
  {
  }

  /** A receive without room is answered as at the end of the file, since it can only return zero bytes. */
  lemma NoRoomEnds(s: Session, r: RecvReq<VReq>) returns (t: Session)
    requires Asked(s.sio, r) && r.min == 1 && r.cap == 0
    ensures Leads(s, [SocketWait(TakesRequest), SocketWait(Receives(Closed))], t)
    ensures t.sio.state == Eof && t.sio.out == [RecvDone(r.id, [], r.user)]
  {
    RequestTaken(s.sio, r);
    ZeroTaken(s.sio, r);
    var s1 := s.(sio := s.sio.(port := [], recv := [r]));
    t := s1.(sio := WaitStep(s1.sio, Receives(Closed)));
    WaitLeads(s, TakesRequest, s1.sio);
    WaitLeads(s1, Receives(Closed), t.sio);
    LeadsOn(s, [SocketWait(TakesRequest)], s1, [SocketWait(Receives(Closed))], t);
    assert [SocketWait(TakesRequest)] + [SocketWait(Receives(Closed))] ==
           [SocketWait(TakesRequest), SocketWait(Receives(Closed))];
  }

  /**
   Two buffers of signals in a row end the file: the second restart asks for zero bytes, and what that returns is taken
   for a closed connection.
   */
  lemma SignalsTwiceEndTheFile(s: Session, r: RecvReq<VReq>, q: VReq, one: seq<byte>, two: seq<byte>) returns (t: Session)
    requires q.op.VRead? && Asked(s.sio, r) && r == RecvReq(r.id, q.op.buf, q.op.size, 1, Some(q))
    requires s.parseSignals && !Cooked(s)
    requires 1 <= |one| <= q.op.size && Visible(one) == [] && 1 <= |two| <= q.op.size && Visible(two) == []
    ensures Leads(s, Round(one) + Round(two) + [SocketWait(TakesRequest), SocketWait(Receives(Closed))], t)
    ensures t.sio.state == Eof && |t.sio.out| == 1 && t.sio.out[0].RecvDone? && t.sio.out[0].data == []
  {
    var s1, r1 := SignalRound(s, r, q, one);
    var s2, r2 := SignalRound(s1, r1, Reread(q), two);
    t := NoRoomEnds(s2, r2);
    LeadsOn(s, Round(one), s1, Round(two), s2);
    LeadsOn(s, Round(one) + Round(two), s2, [SocketWait(TakesRequest), SocketWait(Receives(Closed))], t);
  }

  // ----- a new session comes to this -----

  lemma FirstRead(sids: seq<nat>, vids: seq<nat>, pushMax: nat, p: Pkt) returns (t: Session, q: VReq)
    requires p.action.Read? && sids != [] && vids != []
    ensures Leads(Start(sids, vids, pushMax, false, true, false, false), AskFor(p), t)
    ensures q == VReq(vids[0], Some(p.id), VRead(p.action.buf, p.action.size)) && t.parseSignals && !Cooked(t)
    ensures Asked(t.sio, RecvReq(sids[0], q.op.buf, q.op.size, 1, Some(q)))
  {
    t, q := ReadAsked(Start(sids, vids, pushMax, false, true, false, false), p);
  }

  /** A new session, one read, and two breaks in a row: the reader is told the file has ended. */
  lemma TwoBreaksEndTheFile(sids: seq<nat>, vids: seq<nat>) returns (evs: seq<Event>, t: Session)
    requires sids != [] && Counts(sids, vids)
    ensures Leads(Start(sids, vids, 16, false, true, false, false), evs, t)
    ensures t.sio.state == Eof && |t.sio.out| == 1 && t.sio.out[0].RecvDone? && t.sio.out[0].data == []
  {
    var p := Pkt(0, 1, Read(0, 16));
    var s, q := FirstRead(sids, vids, 16, p);
    var r := RecvReq(sids[0], q.op.buf, q.op.size, 1, Some(q));
    assert Visible([3][..0]) == [];
    t := SignalsTwiceEndTheFile(s, r, q, [3], [3]);
    var rounds := Round([3]) + Round([3]) + [SocketWait(TakesRequest), SocketWait(Receives(Closed))];
    evs := AskFor(p) + rounds;
    LeadsOn(Start(sids, vids, 16, false, true, false, false), AskFor(p), s, rounds, t);
  }
}
