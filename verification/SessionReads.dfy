/** The read stream over whole runs, and what becomes of reads that find only signals. */
module SessionReads {
  import opened Common
  import opened SockioSpec
  import opened SockioStreams
  import opened VconSpec
  import opened SessionSpec
  import opened SessionStream
  import opened SessionTheorems

  /** Reads stand for packets; with `n > 0` none asks for more than that. */
  predicate ConsoleOk(v: Vcon, n: nat) {
    && (forall i :: 0 <= i < |v.toUser| ==> ForwardOk(v.toUser[i], n))
    && (forall i :: 0 <= i < |v.replies| && v.replies[i].result.ReadDone? && v.replies[i].result.data != [] ==>
          v.replies[i].pkt.Some?)
    && (n > 0 ==> forall i :: 0 <= i < |v.pkts| && v.pkts[i].action.Read? ==> v.pkts[i].action.size <= n)
  }

  ghost predicate StreamInv(s: Session, n: nat) {
    BackOk(s.sio, s.consumed, n) && FrontOk(s) && ConsoleOk(s.vcon, n)
  }

  lemma ReplyKeepsConsoleOk(s: Session, q: VReq, d: Decision, n: nat)
    requires ConsoleOk(s.vcon, n) && (DecidedData(d) != [] ==> q.pkt.Some?)
    ensures ConsoleOk(Apply(s, q, d).vcon, n)
  {
  }

  lemma DataKeepsConsoleOk(s: Session, id: nat, data: seq<byte>, q: VReq, n: nat)
    requires ConsoleOk(s.vcon, n) && q.pkt.Some?
    ensures ConsoleOk(HandleData(s, id, data, q).vcon, n)
  {
    var t := TakeData(s, id, data);
    ReplyKeepsConsoleOk(t, q, DecideData(t.sio, Shown(s, Looked(s, data)), q), n);
  }

  lemma OtherKeepsConsoleOk(s: Session, n: nat)
    requires ConsoleOk(s.vcon, n) && s.sio.out != [] && ReadReplyOk(s.sio.out[0], n) && !IsData(s.sio.out[0])
    ensures ConsoleOk(HandleSock(s).vcon, n)
  {
    var r := s.sio.out[0];
    assert Freed(s).vcon == s.vcon;
    if r.user.Some? {
      ReplyKeepsConsoleOk(Freed(s), r.user.value, Reply(ResultOf(r, r.user.value)), n);
    }
  }

  lemma SockKeepsConsoleOk(s: Session, n: nat)
    requires ConsoleOk(s.vcon, n) && s.sio.out != [] && ReadReplyOk(s.sio.out[0], n)
    ensures ConsoleOk(HandleSock(s).vcon, n)
  {
    var r := s.sio.out[0];
    if IsData(r) {
      SockCases(s);
      DataKeepsConsoleOk(s.(sio := Take(s.sio)), r.id, r.data, r.user.value, n);
    } else {
      OtherKeepsConsoleOk(s, n);
    }
  }

  lemma VconKeepsConsoleOk(s: Session, started: bool, n: nat)
    requires ConsoleOk(s.vcon, n) && s.vcon.toUser != []
    ensures ConsoleOk(HandleVcon(s, started).vcon, n)
  {
    var q := s.vcon.toUser[0];
    assert ConsoleOk(Popped(Wrote(s)).vcon, n);
    ReplyKeepsConsoleOk(Popped(Wrote(s)), q, DecideVcon(Wrote(s), q, started), n);
  }

  /** A packet that becomes a read message is a read packet. */
  lemma NewReadOfPacket(v: Vcon)
    requires v.pkts != []
    ensures var t := HandlePkt(v);
            |t.toUser| > |v.toUser| && t.toUser[|v.toUser|].op.VRead? ==>
              && t.toUser[|v.toUser|].pkt.Some? && v.pkts[0].action.Read?
              && t.toUser[|v.toUser|].op.size == v.pkts[0].action.size
  {
  }

  lemma PktKeepsConsoleOk(v: Vcon, n: nat)
    requires ConsoleOk(v, n) && v.pkts != []
    ensures ConsoleOk(HandlePkt(v), n)
    ensures AnswerData(HandlePkt(v).answers) == AnswerData(v.answers) && HandlePkt(v).replies == v.replies
  {
    PktShape(v);
    NewReadOfPacket(v);
    var t := HandlePkt(v);
    if |t.answers| > |v.answers| {
      assert t.answers[..|v.answers|] == v.answers;
      assert AnswerData(v.answers) + [] == AnswerData(v.answers);
    }
  }

  /** With `n > 0`, read packets ask for `n` bytes at most. */
  predicate ReadSized(ev: Event, n: nat) {
    n > 0 && ev.PktArrives? && ev.p.action.Read? ==> ev.p.action.size <= n
  }

  lemma WaitKeepsStream(s: Session, e: Env, n: nat)
    requires EnvOk(s.sio, e) && StreamInv(s, n)
    ensures StreamInv(s.(sio := WaitStep(s.sio, e)), n)
  {
    WaitKeepsLedger(s.sio, e);
    WaitKeepsReaders(s.sio, e, n);
    WaitKeepsDelivered(s.sio, e, s.consumed);
  }

  lemma SockKeepsStream(s: Session, n: nat)
    requires s.sio.out != [] && StreamInv(s, n) && SplitSafe(s)
    ensures StreamInv(HandleSock(s), n)
  {
    SockKeepsBack(s, n);
    SockKeepsFront(s);
    SockKeepsConsoleOk(s, n);
  }

  lemma VconKeepsStream(s: Session, started: bool, n: nat)
    requires s.vcon.toUser != [] && StreamInv(s, n)
    ensures StreamInv(HandleVcon(s, started), n)
  {
    VconKeepsBack(s, started, n);
    VconKeepsFront(s, started);
    VconKeepsConsoleOk(s, started, n);
  }

  lemma PktKeepsStream(s: Session, n: nat)
    requires s.vcon.pkts != [] && StreamInv(s, n)
    ensures StreamInv(s.(vcon := HandlePkt(s.vcon)), n)
  {
    PktKeepsConsoleOk(s.vcon, n);
  }

  lemma ReplyKeepsStream(s: Session, n: nat)
    requires s.vcon.replies != [] && StreamInv(s, n)
    ensures StreamInv(s.(vcon := HandleReply(s.vcon)), n)
  {
    ReplyHandledKeepsFront(s);
  }

  /** Every event keeps the stream, as long as the tail of a split can go back. */
  lemma StepKeepsStream(s: Session, ev: Event, n: nat)
    requires Enabled(s, ev) && StreamInv(s, n) && ReadSized(ev, n) && (ev.SocketReply? ==> SplitSafe(s))
    ensures StreamInv(Step(s, ev), n)
  {
    match ev
    case PktArrives(p) =>
      var t := s.(vcon := Arrive(s.vcon, p));
      assert StreamInv(t, n);
    case SocketWait(e) => WaitKeepsStream(s, e, n);
    case ConsolePacket => PktKeepsStream(s, n);
    case ConsoleReply => ReplyKeepsStream(s, n);
    case SocketReply => SockKeepsStream(s, n);
    case ConsoleMessage(started) => VconKeepsStream(s, started, n);
    case IdleCheck =>
  }

  /** The stream invariant in every state of a run in which every split was safe. */
  lemma {:induction false} RunKeepsStream(states: seq<Session>, evs: seq<Event>, i: nat)
    requires IsRun(states, evs) && i < |states| && StreamInv(states[0], 0)
    requires forall k :: 0 <= k < |evs| && evs[k].SocketReply? ==> SplitSafe(states[k])
    ensures StreamInv(states[i], 0)
  {
    if i > 0 {
      RunKeepsStream(states, evs, i - 1);
      StreamNext(states, evs, i - 1);
    }
  }

  lemma StreamNext(states: seq<Session>, evs: seq<Event>, n: nat)
    requires IsRun(states, evs) && n < |evs| && StreamInv(states[n], 0)
    requires evs[n].SocketReply? ==> SplitSafe(states[n])
    ensures StreamInv(states[n + 1], 0)
  {
    StepKeepsStream(states[n], evs[n], 0);
  }

  // ----- what a handled reply leaves of the socket service -----

  predicate IsData(r: Reply<VReq>) { r.user.Some? && r.RecvDone? && r.data != [] }

  /** The socket service once the head reply is off the port and its tail, if any, pushed back. */
  function Pushed(s: Session): Sio<VReq>
    requires s.sio.out != []
  {
    var r := s.sio.out[0];
    if IsData(r) && Rest(s, r.data) != [] then PushBack(Take(s.sio), Rest(s, r.data)) else Take(s.sio)
  }

  /** The receiving side of two states is the same. */
  predicate SameRecvSide(a: Sio<VReq>, b: Sio<VReq>) {
    && a.out == b.out && a.push == b.push && a.partial == b.partial && a.state == b.state && a.pushMax == b.pushMax
    && a.hist.kept == b.hist.kept && a.hist.received == b.hist.received
  }

  lemma ApplyShape(s: Session, q: VReq, d: Decision)
    ensures var t := Apply(s, q, d);
            && t.sio == (if d.Forward? then d.sio else s.sio)
            && t.vcon.pkts == s.vcon.pkts && t.vcon.toUser == s.vcon.toUser && t.consumed == s.consumed
            && t.vcon.arrived == s.vcon.arrived
  {
  }

  lemma DecideShape(sio: Sio<VReq>, shown: seq<byte>, q: VReq)
    ensures var d := DecideData(sio, shown, q); d.Forward? ==> SameRecvSide(d.sio, sio)
  {
  }

  lemma DataShape(s: Session, id: nat, data: seq<byte>, q: VReq)
    ensures var t := HandleData(s, id, data, q);
            var pushed := if Rest(s, data) != [] then PushBack(s.sio, Rest(s, data)) else s.sio;
            SameRecvSide(t.sio, pushed) && t.consumed == s.consumed + Looked(s, data)
  {
    var t := TakeData(s, id, data);
    var shown := Shown(s, Looked(s, data));
    DecideShape(t.sio, shown, q);
    ApplyShape(t, q, DecideData(t.sio, shown, q));
  }

  lemma OtherShape(s: Session)
    requires s.sio.out != [] && !IsData(s.sio.out[0])
    ensures var t := HandleSock(s);
            t.sio == Freed(s).sio && t.consumed == s.consumed && t.vcon.pkts == s.vcon.pkts && t.vcon.toUser == s.vcon.toUser
  {
  }

  lemma SockShape(s: Session)
    requires s.sio.out != []
    ensures var t := HandleSock(s);
            && SameRecvSide(t.sio, Pushed(s))
            && t.consumed == if IsData(s.sio.out[0]) then s.consumed + Looked(s, s.sio.out[0].data) else s.consumed
  {
    var r := s.sio.out[0];
    if IsData(r) {
      DataShape(s.(sio := Take(s.sio)), r.id, r.data, r.user.value);
    } else {
      OtherShape(s);
    }
  }

  /** Forwarding a message adds one request. */
  lemma ForwardedRequest(s: Session, q: VReq, started: bool)
    requires CanSubmit(s.sio) && !q.op.VEnd?
    ensures var t := Forwarded(s, q, started);
            && t.recv == s.sio.recv && t.out == s.sio.out && |t.port| == |s.sio.port| + 1 && t.port[..|s.sio.port|] == s.sio.port
            && (t.port[|s.sio.port|].Rx? ==> q.op.VRead? && t.port[|s.sio.port|].recv.cap == q.op.size && t.port[|s.sio.port|].recv.user == Some(q))
  {
  }

  lemma VconTakesOne(s: Session, started: bool)
    requires s.vcon.toUser != []
    ensures var t := HandleVcon(s, started).vcon; t.toUser == s.vcon.toUser[1..] && t.pkts == s.vcon.pkts && t.arrived == s.vcon.arrived
  {
    ApplyShape(Popped(Wrote(s)), s.vcon.toUser[0], DecideVcon(Wrote(s), s.vcon.toUser[0], started));
  }

  // ----- exactly when a split keeps the stream -----

  /**
   Splitting delivered data at a line end keeps the stream if and only if nothing is still pushed back, the tail fits,
   and what was delivered behind it reads the same before and after the tail; otherwise bytes are lost or overtaken.
   */
  lemma SplitKeepsStreamIff(s: Session)
    requires StreamInv(s, 0) && s.sio.state == Ok && s.sio.out != []
    requires s.sio.out[0].RecvDone? && Rest(s, s.sio.out[0].data) != []
    ensures StreamInv(HandleSock(s), 0) <==> GoesBack(s.sio, Rest(s, s.sio.out[0].data))
  {
    var r := s.sio.out[0];
    var line, tail := Looked(s, r.data), Rest(s, r.data);
    assert ReadReplyOk(r, 0);
    SplitParts(s, r.data);
    if SplitSafe(s) {
      SockKeepsStream(s, 0);
    } else {
      UnsafeSplitLoses(s, line, tail);
      var t := HandleSock(s);
      assert !BackOk(t.sio, t.consumed, 0);
    }
  }

  lemma UnsafeSplitLoses(s: Session, line: seq<byte>, tail: seq<byte>)
    requires StreamInv(s, 0) && s.sio.state == Ok && s.sio.out != [] && IsData(s.sio.out[0])
    requires var data := s.sio.out[0].data; line == Looked(s, data) && tail == Rest(s, data) && data == line + tail
    requires tail != [] && !GoesBack(s.sio, tail)
    ensures var t := HandleSock(s); !(Ledger(t.sio) && Delivered(t.sio, t.consumed))
  {
    var t := HandleSock(s);
    NothingPartial(s.sio, 0);
    DataOfHead(s.sio.out);
    Reassoc(s.consumed, line + tail, DataOf(s.sio.out[1..]));
    SockShape(s);
    if Ledger(t.sio) && Delivered(t.sio, t.consumed) {
      KeptGoesBack(s.sio, s.consumed, line, tail, t.sio);
      assert false;
    }
  }

  lemma KeptGoesBack(sio: Sio<VReq>, c: seq<byte>, line: seq<byte>, tail: seq<byte>, t: Sio<VReq>)
    requires sio.out != [] && Ledger(sio) && sio.state == Ok && sio.partial == [] && tail != []
    requires sio.hist.kept == c + (line + tail) + DataOf(sio.out[1..])
    requires SameRecvSide(t, PushBack(Take(sio), tail)) && Ledger(t) && Delivered(t, c + line)
    ensures GoesBack(sio, tail)
  {
    var kept, later := sio.hist.kept, DataOf(sio.out[1..]);
    assert |t.hist.kept| == |c| + |line| + |later| && |kept| == |t.hist.kept| + |tail|;
    assert sio.hist.received == kept + sio.push == t.hist.kept + tail;
    assert kept == kept + sio.push;
    Reassoc(c, line, tail);
    Reassoc(c + line, tail, later);
    Reassoc(c + line, later, tail);
    assert (c + line + (tail + later))[|c + line|..] == tail + later;
    assert (c + line + (later + tail))[|c + line|..] == later + tail;
  }
}
