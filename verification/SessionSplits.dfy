/**
 Two ways in which splitting at a line end loses the order of what the network delivered, each shown by a run from a new
 session: a second read is answered before the tail goes back, or a read is too short for what was pushed back.
 */
module SessionSplits {
  import opened Common
  import opened SockioSpec
  import opened VconSpec
  import opened SessionSpec
  import opened SessionLeads

  /** Nothing but receives to do, and none of them begun. */
  predicate OnlyReading(sio: Sio<VReq>) {
    sio.state == Ok && sio.send == [] && sio.wait == [] && sio.partial == []
  }

  lemma {:induction false} OnlyRecvs(port: seq<Req<VReq>>, rs: seq<RecvReq<VReq>>)
    requires |port| == |rs| && forall i :: 0 <= i < |rs| ==> port[i] == Rx(rs[i])
    ensures RecvsOf(port) == rs && SendsOf(port) == [] && WaitsOf(port) == []
  {
    if port != [] {
      var n := |port| - 1;
      OnlyRecvs(port[..n], rs[..n]);
      assert rs == rs[..n] + [rs[n]];
    }
  }

  lemma PortIsTaken(sio: Sio<VReq>, rs: seq<RecvReq<VReq>>)
    requires OnlyReading(sio) && sio.recv == []
    requires RecvsOf(sio.port) == rs && SendsOf(sio.port) == [] && WaitsOf(sio.port) == []
    ensures EnvOk(sio, TakesRequest) && WaitStep(sio, TakesRequest) == sio.(port := [], recv := rs)
  {
    assert [] + rs == rs;
  }

  lemma RecvsTaken(s: Session, rs: seq<RecvReq<VReq>>) returns (t: Session)
    requires OnlyReading(s.sio) && s.sio.recv == []
    requires |s.sio.port| == |rs| && forall i :: 0 <= i < |rs| ==> s.sio.port[i] == Rx(rs[i])
    ensures Leads(s, [SocketWait(TakesRequest)], t) && t == s.(sio := s.sio.(port := [], recv := rs))
  {
    OnlyRecvs(s.sio.port, rs);
    PortIsTaken(s.sio, rs);
    t := s.(sio := s.sio.(port := [], recv := rs));
    WaitLeads(s, TakesRequest, t.sio);
  }

  /** What has been answered with these bytes. */
  function Answered(sio: Sio<VReq>, data: seq<byte>): Sio<VReq>
    requires sio.recv != []
  {
    var r := sio.recv[0];
    sio.(recv := sio.recv[1..], out := sio.out + [RecvDone(r.id, data, r.user)],
         hist := sio.hist.(kept := sio.hist.kept + data))
  }

  lemma Gets(s: Session, data: seq<byte>) returns (t: Session)
    requires OnlyReading(s.sio) && s.sio.port == [] && s.sio.push == [] && s.sio.recv != []
    requires s.sio.recv[0].min == 1 <= |data| <= s.sio.recv[0].cap
    ensures Leads(s, [SocketWait(Receives(Data(data)))], t)
    ensures var u := Answered(s.sio, data); t == s.(sio := u.(hist := u.hist.(received := s.sio.hist.received + data)))
  {
    var u := Answered(s.sio, data);
    t := s.(sio := u.(hist := u.hist.(received := s.sio.hist.received + data)));
    assert [] + data == data;
    WaitLeads(s, Receives(Data(data)), t.sio);
  }

  /** The first receive takes from what was pushed back as much as it has room for. */
  lemma GetsBack(s: Session) returns (t: Session)
    requires OnlyReading(s.sio) && s.sio.port == [] && s.sio.push != [] && |s.sio.recv| == 1
    requires s.sio.recv[0].min == 1 <= s.sio.recv[0].cap < |s.sio.push|
    ensures Leads(s, [SocketWait(TakesRequest)], t)
    ensures var n := s.sio.recv[0].cap; t == s.(sio := Answered(s.sio, s.sio.push[..n]).(push := s.sio.push[n..]))
  {
    var n := s.sio.recv[0].cap;
    t := s.(sio := Answered(s.sio, s.sio.push[..n]).(push := s.sio.push[n..]));
    assert [] + s.sio.push[..n] == s.sio.push[..n];
    WaitLeads(s, TakesRequest, t.sio);
  }

  /** The head reply is data for a read, looked at line by line and not filtered. */
  predicate DataFirst(s: Session, q: VReq) {
    && Cooked(s) && !s.parseSignals && s.sio.out != [] && s.sio.out[0].RecvDone? && s.sio.out[0].user == Some(q)
    && s.sio.out[0].data != [] && |TailOf(s.sio.out[0].data)| <= s.sio.pushMax && LineOf(s.sio.out[0].data) != []
  }

  lemma Looks(s: Session, q: VReq) returns (t: Session)
    requires DataFirst(s, q)
    ensures Leads(s, [SocketReply], t)
    ensures var data := s.sio.out[0].data;
            && t.consumed == s.consumed + LineOf(data)
            && t.sio == s.sio.(out := s.sio.out[1..], push := if TailOf(data) != [] then TailOf(data) else s.sio.push,
                               free := t.sio.free, held := t.sio.held, hist := s.sio.hist.(kept := t.sio.hist.kept))
            && t.sio.free != [] && t.vcon == s.vcon.(replies := s.vcon.replies + [VReply(q.vid, q.pkt, ReadDone(LineOf(data)))])
            && Cooked(t) && !t.parseSignals && t.socketActive == s.socketActive
  {
    t := HandleSock(s);
    LeadsOne(s, SocketReply);
  }

  // ----- two reads -----

  lemma Lines()
    ensures LineOf([0x61, 0x0A, 0x62, 0x63]) == [0x61, 0x0A] && TailOf([0x61, 0x0A, 0x62, 0x63]) == [0x62, 0x63]
    ensures LineOf([0x64]) == [0x64] && TailOf([0x64]) == []
  {
    assert [0x61, 0x0A, 0x62, 0x63][1..] == [0x0A, 0x62, 0x63];
  }

  lemma TwoReads(s: Session, p: Pkt, r: Pkt) returns (evs: seq<Event>, t: Session, a: VReq, b: VReq)
    requires Ready(s) && |s.sio.free| >= 2 && |s.vcon.free| >= 2 && s.vcon.arrived == [] && OnlyReading(s.sio)
    requires s.sio.port == [] && s.sio.recv == []
    requires p.action.Read? && r.action.Read? && p.id != r.id
    ensures Leads(s, evs, t) && OnlyReading(t.sio) && t.sio.port == []
    ensures t == s.(sio := s.sio.(free := s.sio.free[2..], recv := t.sio.recv), vcon := t.vcon)
    ensures t.sio.recv == [RecvReq(s.sio.free[0], p.action.buf, p.action.size, 1, Some(a)),
                           RecvReq(s.sio.free[1], r.action.buf, r.action.size, 1, Some(b))]
  {
    var s1, s2;
    s1, a := ReadAsked(s, p);
    s2, b := ReadAsked(s1, r);
    t := RecvsTaken(s2, [s2.sio.port[0].recv, s2.sio.port[1].recv]);
    evs := AskFor(p) + AskFor(r) + [SocketWait(TakesRequest)];
    LeadsOn(s, AskFor(p), s1, AskFor(r), s2);
    LeadsOn(s, AskFor(p) + AskFor(r), s2, [SocketWait(TakesRequest)], t);
  }

  lemma BothGet(s: Session, one: seq<byte>, two: seq<byte>) returns (evs: seq<Event>, t: Session)
    requires OnlyReading(s.sio) && s.sio.port == [] && s.sio.push == [] && |s.sio.recv| == 2
    requires s.sio.recv[0].min == 1 <= |one| <= s.sio.recv[0].cap && s.sio.recv[1].min == 1 <= |two| <= s.sio.recv[1].cap
    ensures Leads(s, evs, t) && t == s.(sio := t.sio) && t.sio == s.sio.(recv := [], out := t.sio.out, hist := t.sio.hist)
    ensures t.sio.out == s.sio.out + [RecvDone(s.sio.recv[0].id, one, s.sio.recv[0].user), RecvDone(s.sio.recv[1].id, two, s.sio.recv[1].user)]
    ensures t.sio.hist.received == s.sio.hist.received + one + two
  {
    var s1 := Gets(s, one);
    t := Gets(s1, two);
    evs := [SocketWait(Receives(Data(one)))] + [SocketWait(Receives(Data(two)))];
    LeadsOn(s, [SocketWait(Receives(Data(one)))], s1, [SocketWait(Receives(Data(two)))], t);
  }

  lemma BothLookedAt(s: Session, a: VReq, b: VReq) returns (t: Session)
    requires DataFirst(s, a) && |s.sio.out| == 2 && s.sio.out[1].RecvDone? && s.sio.out[1].user == Some(b)
    requires s.sio.out[0].data == [0x61, 0x0A, 0x62, 0x63] && s.sio.out[1].data == [0x64]
    ensures Leads(s, [SocketReply] + [SocketReply], t) && t.sio.push == [0x62, 0x63]
    ensures t.consumed == s.consumed + [0x61, 0x0A] + [0x64] && t.sio.hist.received == s.sio.hist.received
  {
    Lines();
    var s1 := Looks(s, a);
    t := Looks(s1, b);
    LeadsOn(s, [SocketReply], s1, [SocketReply], t);
  }

  /**
   Two reads of 16 bytes from a new session. The first is answered with a line and two bytes of the next, the second
   with one byte more before the first has been looked at: the session looks at that byte before the two.
   */
  lemma TwoReadsDisorder(sids: seq<nat>, vids: seq<nat>) returns (evs: seq<Event>, t: Session)
    requires |sids| >= 2 && Counts(sids, vids)
    ensures Leads(Start(sids, vids, 16, true, false, false, false), evs, t)
    ensures t.sio.hist.received == [0x61, 0x0A, 0x62, 0x63, 0x64]
    ensures t.consumed == [0x61, 0x0A, 0x64] && t.sio.push == [0x62, 0x63]
  {
    var s := Start(sids, vids, 16, true, false, false, false);
    Lines();
    var evs1, s1, a, b := TwoReads(s, Pkt(0, 1, Read(0, 16)), Pkt(1, 1, Read(1, 16)));
    var evs2, s2 := BothGet(s1, [0x61, 0x0A, 0x62, 0x63], [0x64]);
    t := BothLookedAt(s2, a, b);
    evs := evs1 + evs2 + ([SocketReply] + [SocketReply]);
    LeadsOn(s, evs1, s1, evs2, s2);
    LeadsOn(s, evs1 + evs2, s2, [SocketReply] + [SocketReply], t);
  }

  // ----- a shorter read -----

  /** A session with nothing to do that could start a read, looking at lines. */
  predicate Resting(s: Session) {
    && Ready(s) && OnlyReading(s.sio) && s.sio.port == [] && s.sio.recv == [] && s.sio.out == [] && s.vcon.replies == []
    && Cooked(s) && !s.parseSignals
  }

  lemma AskedAndTaken(s: Session, p: Pkt) returns (t: Session, q: VReq)
    requires Resting(s) && p.action.Read? && p.id !in s.vcon.arrived
    ensures Leads(s, AskFor(p) + [SocketWait(TakesRequest)], t) && q.op.VRead? && q.pkt == Some(p.id)
    ensures t == s.(sio := s.sio.(free := s.sio.free[1..], recv := t.sio.recv), vcon := t.vcon)
    ensures t.sio.recv == [RecvReq(s.sio.free[0], p.action.buf, p.action.size, 1, Some(q))]
    ensures t.vcon.state == VOpen && t.vcon.pkts == [] && t.vcon.toUser == [] && t.vcon.replies == []
    ensures t.vcon.arrived == s.vcon.arrived + [p.id]
  {
    var s1;
    s1, q := ReadAsked(s, p);
    t := RecvsTaken(s1, [s1.sio.port[0].recv]);
    LeadsOn(s, AskFor(p), s1, [SocketWait(TakesRequest)], t);
  }

  lemma ReplyHandled(s: Session, r: VReply) returns (t: Session)
    requires s.vcon.replies == [r]
    ensures Leads(s, [ConsoleReply], t) && t == s.(vcon := t.vcon)
    ensures t.vcon == s.vcon.(replies := [], free := s.vcon.free + [r.vid], answers := t.vcon.answers)
  {
    t := s.(vcon := HandleReply(s.vcon));
    LeadsOne(s, ConsoleReply);
  }

  /** Data is looked at and its read answered. */
  lemma LookedAt(s: Session, q: VReq) returns (t: Session)
    requires DataFirst(s, q) && |s.sio.out| == 1 && OnlyReading(s.sio) && s.sio.port == [] && s.sio.recv == []
    requires s.socketActive && s.vcon.state == VOpen && s.vcon.pkts == [] && s.vcon.toUser == [] && s.vcon.replies == []
    ensures Leads(s, [SocketReply] + [ConsoleReply], t) && Resting(t) && t.vcon.arrived == s.vcon.arrived
    ensures var data := s.sio.out[0].data;
            && t.consumed == s.consumed + LineOf(data)
            && t.sio.push == if TailOf(data) != [] then TailOf(data) else s.sio.push
    ensures t.sio.hist.received == s.sio.hist.received && t.sio.pushMax == s.sio.pushMax
  {
    var s1 := Looks(s, q);
    t := ReplyHandled(s1, s1.vcon.replies[0]);
    LeadsOn(s, [SocketReply], s1, [ConsoleReply], t);
  }

  /** A read is asked for, gets these bytes from the network, and is answered with a line of them. */
  lemma ReadsLine(s: Session, p: Pkt, data: seq<byte>) returns (evs: seq<Event>, t: Session)
    requires Resting(s) && s.sio.push == [] && p.action.Read? && p.id !in s.vcon.arrived
    requires 1 <= |data| <= p.action.size && |TailOf(data)| <= s.sio.pushMax && LineOf(data) != []
    ensures Leads(s, evs, t) && Resting(t) && t.consumed == s.consumed + LineOf(data) && t.sio.push == TailOf(data)
    ensures t.sio.hist.received == s.sio.hist.received + data && t.vcon.arrived == s.vcon.arrived + [p.id]
    ensures t.sio.pushMax == s.sio.pushMax
  {
    var ask, look := AskFor(p) + [SocketWait(TakesRequest)], [SocketReply] + [ConsoleReply];
    var s1, q := AskedAndTaken(s, p);
    var s2 := Gets(s1, data);
    t := LookedAt(s2, q);
    evs := ask + [SocketWait(Receives(Data(data)))] + look;
    LeadsOn(s, ask, s1, [SocketWait(Receives(Data(data)))], s2);
    LeadsOn(s, ask + [SocketWait(Receives(Data(data)))], s2, look, t);
  }

  /** A read with less room than what was pushed back: when a tail is split off again, the rest is lost. */
  lemma ShortReadLoses(s: Session, p: Pkt) returns (evs: seq<Event>, t: Session)
    requires Resting(s) && p.action.Read? && p.id !in s.vcon.arrived && 1 <= p.action.size < |s.sio.push| <= s.sio.pushMax
    requires var data := s.sio.push[..p.action.size]; TailOf(data) != [] && LineOf(data) != []
    ensures Leads(s, evs, t) && Resting(t) && t.consumed == s.consumed + LineOf(s.sio.push[..p.action.size])
    ensures t.sio.push == TailOf(s.sio.push[..p.action.size]) && t.sio.hist.received == s.sio.hist.received
  {
    var ask, look := AskFor(p) + [SocketWait(TakesRequest)], [SocketReply] + [ConsoleReply];
    var s1, q := AskedAndTaken(s, p);
    var s2 := GetsBack(s1);
    t := LookedAt(s2, q);
    evs := ask + [SocketWait(TakesRequest)] + look;
    LeadsOn(s, ask, s1, [SocketWait(TakesRequest)], s2);
    LeadsOn(s, ask + [SocketWait(TakesRequest)], s2, look, t);
  }

  lemma LongThenShort(s: Session, data: seq<byte>, back: seq<byte>) returns (evs: seq<Event>, t: Session)
    requires Resting(s) && s.sio.push == [] && s.vcon.arrived == [] && s.consumed == [] && s.sio.hist.received == []
    requires 1 <= |data| <= 16 && 1 <= |back| < |TailOf(data)| <= s.sio.pushMax && back == TailOf(data)[..|back|]
    requires LineOf(data) != [] && TailOf(back) != [] && LineOf(back) != []
    ensures Leads(s, evs, t) && Resting(t) && t.consumed == LineOf(data) + LineOf(back) && t.sio.push == TailOf(back)
    ensures t.sio.hist.received == data
  {
    var evs1, s1 := ReadsLine(s, Pkt(0, 1, Read(0, 16)), data);
    var evs2;
    evs2, t := ShortReadLoses(s1, Pkt(1, 1, Read(0, |back|)));
    evs := evs1 + evs2;
    LeadsOn(s, evs1, s1, evs2, t);
    assert [] + LineOf(data) == LineOf(data) && [] + data == data;
  }

  lemma ThreeLines() returns (data: seq<byte>, back: seq<byte>)
    ensures data == [0x61, 0x0A, 0x62, 0x62, 0x0A, 0x63, 0x63, 0x0A, 0x64] && |back| == 5 < |TailOf(data)| == 7
    ensures back == TailOf(data)[..5] && LineOf(data) != [] && LineOf(back) != []
    ensures LineOf(data) + LineOf(back) == [0x61, 0x0A, 0x62, 0x62, 0x0A] && TailOf(back) == [0x63, 0x63]
  {
    data := [0x61, 0x0A, 0x62, 0x62, 0x0A, 0x63, 0x63, 0x0A, 0x64];
    assert data[1..][0] == 0x0A && LineEnd(data) == 1 + LineEnd(data[1..]) == 2;
    back := [0x62, 0x62, 0x0A, 0x63, 0x63];
    assert back[1..] == [0x62, 0x0A, 0x63, 0x63] && back[1..][1..] == [0x0A, 0x63, 0x63];
    assert LineEnd(back) == 1 + LineEnd(back[1..]) == 2 + LineEnd(back[1..][1..]) == 3;
    assert data[2..][..5] == back;
  }

  /**
   A read of 16 bytes and then one of 5 from a new session: nine bytes come in, two lines are looked at, and the last
   two bytes are nowhere.
   */
  lemma ShorterReadLoses(sids: seq<nat>, vids: seq<nat>) returns (evs: seq<Event>, t: Session)
    requires sids != [] && Counts(sids, vids)
    ensures Leads(Start(sids, vids, 16, true, false, false, false), evs, t)
    ensures t.sio.hist.received == [0x61, 0x0A, 0x62, 0x62, 0x0A, 0x63, 0x63, 0x0A, 0x64]
    ensures t.consumed == [0x61, 0x0A, 0x62, 0x62, 0x0A] && t.sio.push == [0x63, 0x63] && t.sio.partial == [] && t.sio.out == []
  {
    var data, back := ThreeLines();
    evs, t := LongThenShort(Start(sids, vids, 16, true, false, false, false), data, back);
  }
}
