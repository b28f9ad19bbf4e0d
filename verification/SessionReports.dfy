/**
 Two things that go wrong on the way out, each shown by a run from a new session: two mode reports share one buffer, and
 a socket service with fewer messages than the console swallows a write.
 */
module SessionReports {
  import opened Common
  import opened SockioSpec
  import opened VconSpec
  import opened SessionSpec
  import opened SessionLeads

  lemma TwoPacketsArrive(s: Session, p: Pkt, r: Pkt) returns (evs: seq<Event>, t: Session)
    requires s.vcon.pkts == [] && |s.vcon.free| >= 2 && s.vcon.state == VOpen && s.vcon.toUser == [] && s.vcon.arrived == []
    requires Asks(p.action).Some? && Asks(r.action).Some? && p.id != r.id
    ensures Leads(s, evs, t) && t == s.(vcon := t.vcon) && t.vcon.free == s.vcon.free[2..] && t.vcon.pkts == []
    ensures t.vcon.replies == s.vcon.replies && t.vcon.answers == s.vcon.answers
    ensures t.vcon.toUser == [VReq(s.vcon.free[0], Some(p.id), Asks(p.action).value), VReq(s.vcon.free[1], Some(r.id), Asks(r.action).value)]
    ensures forall k :: 0 <= k < |evs| ==> !evs[k].SocketReply? && !evs[k].ConsoleMessage?
  {
    var s1 := PacketArrives(s, p);
    t := PacketArrives(s1, r);
    evs := [PktArrives(p), ConsolePacket] + [PktArrives(r), ConsolePacket];
    LeadsOn(s, [PktArrives(p), ConsolePacket], s1, [PktArrives(r), ConsolePacket], t);
  }

  // ----- what is on the port goes out -----

  lemma SendsTaken(sio: Sio<VReq>, ms: seq<SendReq<VReq>>)
    requires sio.state == Ok && sio.recv == [] && sio.wait == [] && sio.send == []
    requires |sio.port| == |ms| && (forall i :: 0 <= i < |ms| ==> sio.port[i] == Tx(ms[i]))
    ensures EnvOk(sio, TakesRequest) && WaitStep(sio, TakesRequest) == sio.(port := [], send := ms)
  {
    OnlySends(sio.port, ms);
  }

  lemma {:induction false} OnlySends(port: seq<Req<VReq>>, ms: seq<SendReq<VReq>>)
    requires |port| == |ms| && forall i :: 0 <= i < |ms| ==> port[i] == Tx(ms[i])
    ensures SendsOf(port) == ms && RecvsOf(port) == [] && WaitsOf(port) == []
  {
    if port != [] {
      var n := |port| - 1;
      OnlySends(port[..n], ms[..n]);
      assert ms == ms[..n] + [ms[n]];
    }
  }

  lemma HeadGoesOut(sio: Sio<VReq>)
    requires sio.state == Ok && sio.recv == [] && sio.wait == [] && sio.port == [] && sio.send != [] && sio.tx == 0
    requires Payload(sio, sio.send[0]) != []
    ensures var m := sio.send[0];
            var e := Sends(|Payload(sio, m)|);
            && EnvOk(sio, e)
            && WaitStep(sio, e) == sio.(send := sio.send[1..], out := sio.out + [SendDone(m.id, m.user)],
                                        hist := sio.hist.(sent := sio.hist.sent + Payload(sio, m)))
  {
    var payload := Payload(sio, sio.send[0]);
    assert payload[0..|payload|] == payload;
  }

  // ----- two reports -----

  /** A session about to handle two mode changes: to raw and back to cooked. */
  ghost predicate TwoModes(s: Session) {
    && OnlySending(s.sio) && s.sio.port == [] && s.sio.send == [] && |s.sio.free| >= 2 && s.sio.hist == Hist([], [], [], [])
    && s.socketActive && !s.sendMode && |s.vcon.toUser| == 2
    && s.vcon.toUser[0].op == VMode(MODE_RAW) && s.vcon.toUser[1].op == VMode(MODE_COOKED)
  }

  lemma ModeHandled(s: Session, started: bool)
    requires s.vcon.toUser != [] && s.vcon.toUser[0].op.VMode? && Reports(s) && CanSubmit(s.sio)
    ensures var q, report := s.vcon.toUser[0], ModeReport(s.vcon.toUser[0].op.mode);
            var t := HandleVcon(s, started);
            && t.sio == s.sio.(report := report, free := s.sio.free[1..],
                               port := s.sio.port + [Tx(SendReq(s.sio.free[0], Shared, Some(q)))],
                               hist := s.sio.hist.(submitted := s.sio.hist.submitted + [report]))
            && t.vcon == s.vcon.(toUser := s.vcon.toUser[1..]) && t.socketActive && !t.sendMode && t.doMedium == s.doMedium
  {
  }

  /** The send that reports the `i`-th message. */
  function Reporting(s: Session, i: nat): SendReq<VReq>
    requires i < |s.vcon.toUser| && i < |s.sio.free|
  {
    SendReq(s.sio.free[i], Shared, Some(s.vcon.toUser[i]))
  }

  lemma BothReported(s: Session) returns (t: Session)
    requires TwoModes(s)
    ensures Leads(s, [ConsoleMessage(false), ConsoleMessage(false)], t)
    ensures t.sio == s.sio.(
                       free := s.sio.free[2..], report := ModeReport(MODE_COOKED), port := [Tx(Reporting(s, 0)), Tx(Reporting(s, 1))],
                       hist := Hist([], [], [], [ModeReport(MODE_RAW), ModeReport(MODE_COOKED)]))
  {
    var s1 := HandleVcon(s, false);
    ModeHandled(s, false);
    ModeHandled(s1, false);
    t := HandleVcon(s1, false);
    LeadsOne(s, ConsoleMessage(false));
    LeadsMore(s, [ConsoleMessage(false)], s1, ConsoleMessage(false));
    assert [ConsoleMessage(false)] + [ConsoleMessage(false)] == [ConsoleMessage(false), ConsoleMessage(false)];
  }

  /** Nothing but sends to do. */
  predicate OnlySending(sio: Sio<VReq>) {
    sio.state == Ok && sio.recv == [] && sio.wait == [] && sio.tx == 0
  }

  lemma SendLeads(s: Session) returns (t: Session)
    requires OnlySending(s.sio) && s.sio.port == [] && s.sio.send != [] && Payload(s.sio, s.sio.send[0]) != []
    ensures Leads(s, [SocketWait(Sends(|Payload(s.sio, s.sio.send[0])|))], t) && OnlySending(t.sio) && t.sio.port == []
    ensures t == s.(sio := t.sio) && t.sio.send == s.sio.send[1..] && t.sio.report == s.sio.report
    ensures t.sio.hist.sent == s.sio.hist.sent + Payload(s.sio, s.sio.send[0]) && t.sio.hist.submitted == s.sio.hist.submitted
  {
    HeadGoesOut(s.sio);
    var e := Sends(|Payload(s.sio, s.sio.send[0])|);
    t := s.(sio := WaitStep(s.sio, e));
    WaitLeads(s, e, t.sio);
  }

  lemma SendsTakenLeads(s: Session, ms: seq<SendReq<VReq>>) returns (t: Session)
    requires OnlySending(s.sio) && s.sio.send == []
    requires |s.sio.port| == |ms| && (forall i :: 0 <= i < |ms| ==> s.sio.port[i] == Tx(ms[i]))
    ensures Leads(s, [SocketWait(TakesRequest)], t) && t == s.(sio := s.sio.(port := [], send := ms))
  {
    SendsTaken(s.sio, ms);
    t := s.(sio := s.sio.(port := [], send := ms));
    WaitLeads(s, TakesRequest, t.sio);
  }

  lemma BothGoOut(s: Session, ms: seq<SendReq<VReq>>) returns (evs: seq<Event>, t: Session)
    requires |ms| == 2 && s.sio.port == [Tx(ms[0]), Tx(ms[1])] && OnlySending(s.sio) && s.sio.send == []
    requires ms[0].load == Shared && ms[1].load == Shared
    ensures Leads(s, evs, t) && t.sio.send == [] && t.sio.port == [] && t.sio.state == Ok
    ensures t.sio.hist.sent == s.sio.hist.sent + s.sio.report + s.sio.report && t.sio.hist.submitted == s.sio.hist.submitted
  {
    var s1 := SendsTakenLeads(s, ms);
    var s2 := SendLeads(s1);
    t := SendLeads(s2);
    LeadsOn(s, [SocketWait(TakesRequest)], s1, [SocketWait(Sends(3))], s2);
    evs := [SocketWait(TakesRequest)] + [SocketWait(Sends(3))] + [SocketWait(Sends(3))];
    LeadsOn(s, [SocketWait(TakesRequest)] + [SocketWait(Sends(3))], s2, [SocketWait(Sends(3))], t);
  }

  lemma BothModes(s: Session) returns (evs: seq<Event>, t: Session)
    requires TwoModes(s)
    ensures Leads(s, evs, t) && t.sio.state == Ok && t.sio.send == [] && t.sio.port == []
    ensures t.sio.hist.submitted == [ModeReport(MODE_RAW), ModeReport(MODE_COOKED)]
    ensures t.sio.hist.sent == ModeReport(MODE_COOKED) + ModeReport(MODE_COOKED)
  {
    var s1 := BothReported(s);
    var evs1;
    evs1, t := BothGoOut(s1, [Reporting(s, 0), Reporting(s, 1)]);
    evs := [ConsoleMessage(false), ConsoleMessage(false)] + evs1;
    LeadsOn(s, [ConsoleMessage(false), ConsoleMessage(false)], s1, evs1, t);
    assert [] + ModeReport(MODE_COOKED) == ModeReport(MODE_COOKED);
  }

  lemma NotWhatWasWritten()
    ensures !(ModeReport(MODE_COOKED) + ModeReport(MODE_COOKED) <= Flatten([ModeReport(MODE_RAW), ModeReport(MODE_COOKED)]))
  {
    FlattenTwo(ModeReport(MODE_RAW), ModeReport(MODE_COOKED));
    assert (ModeReport(MODE_COOKED) + ModeReport(MODE_COOKED))[1] != (ModeReport(MODE_RAW) + ModeReport(MODE_COOKED))[1];
  }

  /**
   From a new session: the mode is set to raw and back to cooked before the first report is sent. Both modes were
   written, but what goes out is the second one, twice.
   */
  lemma SecondReportTwice(sids: seq<nat>, vids: seq<nat>) returns (evs: seq<Event>, t: Session)
    requires |sids| >= 2 && Counts(sids, vids)
    ensures Leads(Start(sids, vids, 0, false, false, false, false), evs, t)
    ensures t.sio.state == Ok && t.sio.send == [] && t.sio.port == []
    ensures t.sio.hist.submitted == [ModeReport(MODE_RAW), ModeReport(MODE_COOKED)]
    ensures t.sio.hist.sent == ModeReport(MODE_COOKED) + ModeReport(MODE_COOKED)
    ensures !(t.sio.hist.sent <= Flatten(t.sio.hist.submitted))
  {
    var s := Start(sids, vids, 0, false, false, false, false);
    var evs1, s1 := TwoPacketsArrive(s, Pkt(0, 1, ScreenMode(1)), Pkt(1, 2, ScreenMode(0)));
    var evs2;
    evs2, t := BothModes(s1);
    evs := evs1 + evs2;
    LeadsOn(s, evs1, s1, evs2, t);
    NotWhatWasWritten();
  }

  // ----- a write too many -----

  /** A session about to handle two writes, with one message left for the first of them. */
  ghost predicate TwoWrites(s: Session, a: VReq, b: VReq) {
    && s.socketActive && OnlySending(s.sio) && s.sio.port == [] && s.sio.send == [] && |s.sio.free| == 1
    && s.vcon.toUser == [a, b] && a.op.VWrite? && b.op.VWrite? && s.vcon.replies == []
  }

  lemma FirstWriteForwarded(s: Session, a: VReq, b: VReq) returns (t: Session)
    requires TwoWrites(s, a, b)
    ensures Leads(s, [ConsoleMessage(false)], t) && t == s.(sio := t.sio, vcon := s.vcon.(toUser := [b]))
    ensures var m := SendReq(s.sio.free[0], Own(a.op.data), Some(a));
            t.sio == s.sio.(free := [], port := [Tx(m)], hist := s.sio.hist.(submitted := s.sio.hist.submitted + [a.op.data]))
  {
    t := HandleVcon(s, false);
    LeadsOne(s, ConsoleMessage(false));
  }

  /** Without a free message the write is replied to as if it had been done. */
  lemma WriteSwallowed(s: Session, b: VReq) returns (t: Session)
    requires s.socketActive && s.sio.free == [] && s.vcon.toUser == [b] && b.op.VWrite?
    ensures Leads(s, [ConsoleMessage(false)], t)
    ensures t == s.(vcon := s.vcon.(toUser := [], replies := s.vcon.replies + [VReply(b.vid, b.pkt, WriteDone(|b.op.data|))]))
  {
    t := HandleVcon(s, false);
    LeadsOne(s, ConsoleMessage(false));
  }

  lemma ReplyAnswers(s: Session, r: VReply, pkt: nat) returns (t: Session)
    requires s.vcon.replies == [r] && r.pkt == Some(pkt) && r.result.WriteDone?
    ensures Leads(s, [ConsoleReply], t) && t == s.(vcon := t.vcon) && t.vcon.replies == [] && t.vcon.toUser == s.vcon.toUser
    ensures t.vcon.answers == s.vcon.answers + [Answer(pkt, r.result.size, 0, [])]
  {
    t := s.(vcon := HandleReply(s.vcon));
    LeadsOne(s, ConsoleReply);
  }

  lemma OneWriteGoesOut(s: Session, m: SendReq<VReq>) returns (evs: seq<Event>, t: Session)
    requires OnlySending(s.sio) && s.sio.port == [Tx(m)] && s.sio.send == [] && Payload(s.sio, m) != []
    ensures Leads(s, evs, t) && t == s.(sio := t.sio) && OnlySending(t.sio) && t.sio.port == [] && t.sio.send == []
    ensures t.sio.hist.sent == s.sio.hist.sent + Payload(s.sio, m)
  {
    var s1 := SendsTakenLeads(s, [m]);
    t := SendLeads(s1);
    evs := [SocketWait(TakesRequest)] + [SocketWait(Sends(|Payload(s.sio, m)|))];
    LeadsOn(s, [SocketWait(TakesRequest)], s1, [SocketWait(Sends(|Payload(s.sio, m)|))], t);
  }

  lemma BothHandled(s: Session, a: VReq, b: VReq) returns (t: Session, m: SendReq<VReq>)
    requires TwoWrites(s, a, b)
    ensures Leads(s, [ConsoleMessage(false)] + [ConsoleMessage(false)], t)
    ensures m.load == Own(a.op.data) && t.sio.port == [Tx(m)] && t.sio.send == [] && OnlySending(t.sio) && t.sio.hist.sent == s.sio.hist.sent
    ensures t.vcon == s.vcon.(toUser := [], replies := [VReply(b.vid, b.pkt, WriteDone(|b.op.data|))])
  {
    m := SendReq(s.sio.free[0], Own(a.op.data), Some(a));
    var s1 := FirstWriteForwarded(s, a, b);
    t := WriteSwallowed(s1, b);
    LeadsOn(s, [ConsoleMessage(false)], s1, [ConsoleMessage(false)], t);
  }

  lemma SecondIsLost(s: Session, a: VReq, b: VReq, pkt: nat) returns (evs: seq<Event>, t: Session)
    requires TwoWrites(s, a, b) && b.pkt == Some(pkt) && a.op.data != []
    ensures Leads(s, evs, t) && OnlySending(t.sio) && t.sio.port == [] && t.sio.send == [] && t.vcon.toUser == []
    ensures t.sio.hist.sent == s.sio.hist.sent + a.op.data
    ensures t.vcon.answers == s.vcon.answers + [Answer(pkt, |b.op.data|, 0, [])]
  {
    var two := [ConsoleMessage(false)] + [ConsoleMessage(false)];
    var s1, m := BothHandled(s, a, b);
    var sends, s2 := OneWriteGoesOut(s1, m);
    t := ReplyAnswers(s2, s2.vcon.replies[0], pkt);
    evs := two + sends + [ConsoleReply];
    LeadsOn(s, two, s1, sends, s2);
    LeadsOn(s, two + sends, s2, [ConsoleReply], t);
  }

  /**
   From a new session with one socket message, and so eight console messages: of two writes in a row the second is answered
   with its full size and never sent, although the socket is fine and nothing is left to send.
   */
  lemma SecondWriteLost(sid: nat, vids: seq<nat>) returns (evs: seq<Event>, t: Session)
    requires Counts([sid], vids)
    ensures Leads(Start([sid], vids, 0, false, false, false, false), evs, t)
    ensures t.sio.state == Ok && t.sio.send == [] && t.sio.port == [] && t.vcon.toUser == []
    ensures t.sio.hist.sent == [0x61] && t.vcon.answers == [Answer(1, 2, 0, [])]
  {
    var s := Start([sid], vids, 0, false, false, false, false);
    var evs1, s1 := TwoPacketsArrive(s, Pkt(0, 1, Write([0x61])), Pkt(1, 1, Write([0x62, 0x63])));
    var evs2;
    evs2, t := SecondIsLost(s1, s1.vcon.toUser[0], s1.vcon.toUser[1], 1);
    evs := evs1 + evs2;
    LeadsOn(s, evs1, s1, evs2, t);
    assert [] + [0x61] == [0x61];
  }

  // ----- a read or a wait too many -----

  /** A session about to handle a write and then something else, with one message left for the write. */
  ghost predicate WriteAndMore(s: Session, a: VReq, b: VReq) {
    && s.socketActive && OnlySending(s.sio) && s.sio.port == [] && s.sio.send == [] && |s.sio.free| == 1
    && s.vcon.toUser == [a, b] && a.op.VWrite? && (b.op.VRead? || b.op.VWait?) && s.vcon.replies == []
  }

  lemma WriteHandled(s: Session, a: VReq, b: VReq) returns (t: Session)
    requires WriteAndMore(s, a, b)
    ensures Leads(s, [ConsoleMessage(false)], t) && t.vcon == s.vcon.(toUser := [b]) && t.sio.free == [] && t.socketActive
    ensures t.sio.state == Ok
  {
    t := HandleVcon(s, false);
    LeadsOne(s, ConsoleMessage(false));
  }

  /** It is replied to as it is. */
  lemma Untaken(s: Session, b: VReq) returns (t: Session)
    requires s.socketActive && s.sio.free == [] && s.vcon.toUser == [b] && s.vcon.replies == [] && (b.op.VRead? || b.op.VWait?)
    ensures Leads(s, [ConsoleMessage(false)], t) && t.sio == s.sio
    ensures t.vcon == s.vcon.(toUser := [], replies := [VReply(b.vid, b.pkt, Untouched(b))])
  {
    t := HandleVcon(s, false);
    LeadsOne(s, ConsoleMessage(false));
  }

  lemma UntakenAnswer(s: Session, b: VReq, pkt: nat) returns (t: Session)
    requires s.vcon.replies == [VReply(b.vid, Some(pkt), Untouched(b))] && s.vcon.answers == [] && (b.op.VRead? || b.op.VWait?)
    ensures Leads(s, [ConsoleReply], t) && t.sio == s.sio
    ensures t.vcon.answers == [if b.op.VRead? then Answer(pkt, b.op.size, 0, [])
                               else if b.op.us == 0 then Answer(pkt, 0, 0, []) else Answer(pkt, -1, b.op.us, [])]
  {
    t := s.(vcon := HandleReply(s.vcon));
    LeadsOne(s, ConsoleReply);
  }

  lemma NotTaken(s: Session, a: VReq, b: VReq, pkt: nat) returns (evs: seq<Event>, t: Session)
    requires WriteAndMore(s, a, b) && b.pkt == Some(pkt) && s.vcon.answers == []
    ensures Leads(s, evs, t) && t.sio.state == Ok
    ensures t.vcon.answers == [if b.op.VRead? then Answer(pkt, b.op.size, 0, [])
                               else if b.op.us == 0 then Answer(pkt, 0, 0, []) else Answer(pkt, -1, b.op.us, [])]
  {
    var s1 := WriteHandled(s, a, b);
    var s2 := Untaken(s1, b);
    t := UntakenAnswer(s2, b, pkt);
    evs := [ConsoleMessage(false)] + [ConsoleMessage(false)] + [ConsoleReply];
    LeadsOn(s, [ConsoleMessage(false)], s1, [ConsoleMessage(false)], s2);
    LeadsOn(s, [ConsoleMessage(false)] + [ConsoleMessage(false)], s2, [ConsoleReply], t);
  }

  /** With one socket message, a read behind a write is answered with its full size and no data at all. */
  lemma ReadNotTaken(sid: nat, vids: seq<nat>) returns (evs: seq<Event>, t: Session)
    requires Counts([sid], vids)
    ensures Leads(Start([sid], vids, 0, false, false, false, false), evs, t) && t.sio.state == Ok
    ensures t.vcon.answers == [Answer(1, 16, 0, [])]
  {
    var s := Start([sid], vids, 0, false, false, false, false);
    var evs1, s1 := TwoPacketsArrive(s, Pkt(0, 1, Write([0x61])), Pkt(1, 1, Read(0, 16)));
    var evs2;
    evs2, t := NotTaken(s1, s1.vcon.toUser[0], s1.vcon.toUser[1], 1);
    evs := evs1 + evs2;
    LeadsOn(s, evs1, s1, evs2, t);
  }

  /** And a wait for a character is told that there is one, although the socket has not even been asked. */
  lemma WaitNotTaken(sid: nat, vids: seq<nat>) returns (evs: seq<Event>, t: Session)
    requires Counts([sid], vids)
    ensures Leads(Start([sid], vids, 0, false, false, false, false), evs, t) && t.sio.state == Ok
    ensures t.vcon.answers == [Answer(1, -1, 1000, [])]
  {
    var s := Start([sid], vids, 0, false, false, false, false);
    var evs1, s1 := TwoPacketsArrive(s, Pkt(0, 1, Write([0x61])), Pkt(1, 1, WaitChar(1000)));
    var evs2;
    evs2, t := NotTaken(s1, s1.vcon.toUser[0], s1.vcon.toUser[1], 1);
    evs := evs1 + evs2;
    LeadsOn(s, evs1, s1, evs2, t);
  }
}
