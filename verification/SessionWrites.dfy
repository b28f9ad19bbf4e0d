/** The write stream over whole runs: what the network accepts is what the console wrote, in order. */
module SessionWrites {
  import opened Common
  import opened SockioSpec
  import opened SockioStreams
  import opened SockioReplies
  import opened VconSpec
  import opened SessionSpec
  import opened SessionStream
  import opened SessionTheorems
  import opened SessionReads
  import opened SessionSupply

  /** What the next console message writes while the socket is in use, whether or not the socket service takes it. */
  function Wire(s: Session): seq<seq<byte>>
    requires s.vcon.toUser != []
  {
    if !s.socketActive then []
    else
      match s.vcon.toUser[0].op
      case VWrite(data) => [data]
      case VMode(mode) => if Reports(s) then [ModeReport(mode)] else []
      case _ => []
  }

  function WireOf(s: Session, ev: Event): seq<seq<byte>> {
    if ev.ConsoleMessage? && s.vcon.toUser != [] then Wire(s) else []
  }

  /** While the socket is in use: a write's bytes, and for a mode that is taken CSI, a digit and V, unless that is not wanted. */
  lemma WireTable(s: Session)
    requires s.vcon.toUser != []
    ensures var op := s.vcon.toUser[0].op;
            Wire(s) == if !s.socketActive then []
                       else if op.VWrite? then [op.data]
                       else if op.VMode? && !s.sendMode && (op.mode == 0 || op.mode == 1 || (op.mode == 2 && s.doMedium))
                       then [[0x9B, 48 + op.mode, 86]]
                       else []
  {
  }

  /** Everything the console wrote in the first `i` events. */
  function Written(states: seq<Session>, evs: seq<Event>, i: nat): seq<seq<byte>>
    requires |states| == |evs| + 1 && i < |states|
  {
    if i == 0 then [] else Written(states, evs, i - 1) + WireOf(states[i - 1], evs[i - 1])
  }

  lemma FailSubmitsNothing<U>(s: Sio<U>, code: nat)
    ensures FailAll(s, code).hist == s.hist
  {
  }

  lemma ServeSubmitsNothing<U>(s: Sio<U>, p: Plan<U>, e: Env)
    requires Servable(s, p, e)
    ensures Serve(s, p, e).hist.submitted == s.hist.submitted
  {
    var s2, s3 := ServeRx(s, p, e).0, ServeTx(s, p, e).0;
    RxSubmitsNothing(s, p, e);
    if p.tx.Some? {
      TxSubmitsNothing(s2, p.write && e.writable, e.tx);
    }
    FailSubmitsNothing(s3, ERROR_IO);
  }

  lemma RxSubmitsNothing<U>(s: Sio<U>, p: Plan<U>, e: Env)
    requires Servable(s, p, e)
    ensures ServeRx(s, p, e).0.hist.submitted == s.hist.submitted
  {
  }

  lemma TxSubmitsNothing<U>(s: Sio<U>, write: bool, res: SendResult)
    requires s.send != [] && (write && res.Sent? ==> s.tx + res.n <= |Payload(s, s.send[0])|)
    ensures TxPhase(s, write, res).0.hist.submitted == s.hist.submitted
  {
  }

  lemma WaitSubmitsNothing<U>(s: Sio<U>, e: Env)
    requires EnvOk(s, e)
    ensures WaitStep(s, e).hist.submitted == s.hist.submitted
  {
    var (s1, p) := Prepare(s);
    FailSubmitsNothing(s1, ERROR_WAIT);
    if e.outcome != SelectFailed {
      SignalsKeepHist(s1, e);
      if e.outcome == SocketReady {
        PickedStaysHead(s, e);
        ServeSubmitsNothing(Signals(s1, e), p, e);
      }
    }
  }

  lemma MessageSubmits(s: Session, started: bool)
    requires s.vcon.toUser != []
    ensures HandleVcon(s, started).sio.hist.submitted == s.sio.hist.submitted + (if CanSubmit(s.sio) then Wire(s) else [])
  {
    var q, w := s.vcon.toUser[0], Wrote(s);
    var d := DecideVcon(w, q, started);
    assert s.sio.hist.submitted + [] == s.sio.hist.submitted;
    MessageShape(s, started);
    DecisionShape(w, q, started);
  }

  lemma OtherSubmits(s: Session, ev: Event)
    requires Enabled(s, ev) && !ev.ConsoleMessage?
    ensures Step(s, ev).sio.hist.submitted == s.sio.hist.submitted
  {
    match ev
    case SocketWait(e) => WaitSubmitsNothing(s.sio, e);
    case SocketReply => ReplyKeepsSending(s);
    case _ =>
  }

  /** An event submits what the console message it handles writes, if the socket service takes it; nothing else does. */
  lemma StepSubmits(s: Session, ev: Event)
    requires Enabled(s, ev)
    ensures Step(s, ev).sio.hist.submitted == s.sio.hist.submitted + (if CanSubmit(s.sio) then WireOf(s, ev) else [])
  {
    assert s.sio.hist.submitted + [] == s.sio.hist.submitted;
    if ev.ConsoleMessage? {
      MessageSubmits(s, ev.started);
    } else {
      OtherSubmits(s, ev);
    }
  }

  /** No write is swallowed if and only if the service takes messages when one is written. */
  lemma SwallowsNothingIff(s: Session, ev: Event)
    requires Enabled(s, ev)
    ensures Step(s, ev).sio.hist.submitted == s.sio.hist.submitted + WireOf(s, ev) <==> WireOf(s, ev) == [] || CanSubmit(s.sio)
  {
    StepSubmits(s, ev);
    assert s.sio.hist.submitted + [] == s.sio.hist.submitted;
  }

  // ----- the report buffer is shared -----

  /** No report is made that changes bytes of an earlier one still to be read. */
  predicate ReportSafe(s: Session, ev: Event) {
    ev.ConsoleMessage? && s.vcon.toUser != [] && Reports(s) ==> Harmless(s.sio, ModeReport(s.vcon.toUser[0].op.mode))
  }

  lemma SubmitShowsTransmit(s: Sio<VReq>, load: Load, user: Option<VReq>)
    requires CanSubmit(s) && TxOk(s)
    ensures Transmit(SubmitSend(s, load, user)) <==> Transmit(s)
  {
    SubmitAdds(s, load, user);
    Assoc(s.hist.sent, Unread(s), Bytes(s.report, load));
    SameEnd(s.hist.sent + Unread(s), Flatten(s.hist.submitted), Bytes(s.report, load));
  }

  lemma SameEnd<T>(a: seq<T>, b: seq<T>, end: seq<T>)
    ensures a + end == b + end <==> a == b
  {
    if a + end == b + end {
      SameParts(a, end, b, end);
    }
  }

  lemma WroteTransmits(s: Session)
    requires s.vcon.toUser != [] && Transmit(s.sio)
    ensures TxOk(Wrote(s).sio) && (Transmit(Wrote(s).sio) <==> ReportSafe(s, ConsoleMessage(true)))
  {
    if Reports(s) {
      WriteKeepsTransmitIff(s.sio, ModeReport(s.vcon.toUser[0].op.mode));
      if s.sio.state != Failed {
        WriteKeepsUnreadIff(s.sio, ModeReport(s.vcon.toUser[0].op.mode));
      }
    }
  }

  lemma ForwardTransmits(s: Session, q: VReq, started: bool)
    requires CanSubmit(s.sio) && !q.op.VEnd? && TxOk(s.sio)
    requires q.op.VMode? || Transmit(s.sio)
    ensures Transmit(Forwarded(s, q, started)) <==> Transmit(s.sio)
  {
    var t := Forwarded(s, q, started);
    if q.op.VWrite? {
      SubmitShowsTransmit(s.sio, Own(q.op.data), Some(q));
    } else if q.op.VMode? {
      SubmitShowsTransmit(s.sio, Shared, Some(q));
    } else {
      OtherSubmitKeepsTransmit(s.sio, t.port[|s.sio.port|], t);
    }
  }

  lemma MessageTransmits(s: Session, started: bool)
    requires s.vcon.toUser != [] && Transmit(s.sio)
    ensures Transmit(HandleVcon(s, started).sio) <==> ReportSafe(s, ConsoleMessage(started))
  {
    var q, w := s.vcon.toUser[0], Wrote(s);
    WroteTransmits(s);
    MessageShape(s, started);
    DecisionShape(w, q, started);
    assert !q.op.VMode? ==> w == s;
    if DecideVcon(w, q, started).Forward? {
      ForwardTransmits(w, q, started);
    }
  }

  /** The sending side of two states is the same. */
  ghost predicate SameSending(s: Sio<VReq>, t: Sio<VReq>) {
    && t.send == s.send && SendsOf(t.port) == SendsOf(s.port) && t.tx == s.tx && t.report == s.report
    && t.state == s.state && t.hist == s.hist.(kept := t.hist.kept)
  }

  lemma SameTransmits(s: Sio<VReq>, t: Sio<VReq>)
    requires SameSending(s, t) && Transmit(s)
    ensures Transmit(t)
  {
  }

  lemma TakeKeepsSending(s: Session, id: nat, data: seq<byte>)
    ensures SameSending(s.sio, TakeData(s, id, data).sio)
  {
  }

  lemma RereadKeepsSending(sio: Sio<VReq>, shown: seq<byte>, q: VReq)
    ensures var d := DecideData(sio, shown, q); d.Forward? ==> SameSending(sio, d.sio)
  {
    if CanSubmit(sio) {
      var t := SubmitRecv(sio, ReadBuf(q), ReadSize(q), 1, Some(Reread(q)));
      SendsOfSnoc(sio.port, t.port[|sio.port|]);
      assert SendsOf(sio.port) + [] == SendsOf(sio.port);
    }
  }

  lemma DataKeepsSending(s: Session, id: nat, data: seq<byte>, q: VReq)
    ensures SameSending(s.sio, HandleData(s, id, data, q).sio)
  {
    var t, shown := TakeData(s, id, data), Shown(s, Looked(s, data));
    TakeKeepsSending(s, id, data);
    RereadKeepsSending(t.sio, shown, q);
    ApplyShape(t, q, DecideData(t.sio, shown, q));
  }

  lemma TakenKeepsSending(s: Session)
    requires s.sio.out != []
    ensures SameSending(s.sio, Take(s.sio)) && SameSending(s.sio, Freed(s).sio)
  {
  }

  lemma ReplyKeepsSending(s: Session)
    requires s.sio.out != []
    ensures SameSending(s.sio, HandleSock(s).sio)
  {
    var r, t := s.sio.out[0], HandleSock(s).sio;
    SockCases(s);
    TakenKeepsSending(s);
    if r.RecvDone? && r.data != [] && r.user.Some? {
      DataKeepsSending(s.(sio := Take(s.sio)), r.id, r.data, r.user.value);
      SendingTwice(s.sio, Take(s.sio), t);
    }
  }

  lemma SendingTwice(s: Sio<VReq>, t: Sio<VReq>, u: Sio<VReq>)
    requires SameSending(s, t) && SameSending(t, u)
    ensures SameSending(s, u)
  {
  }

  /** Every event keeps the order of transmission, except a report that changes bytes still to be read. */
  lemma StepTransmitsIff(s: Session, ev: Event)
    requires Enabled(s, ev) && Transmit(s.sio)
    ensures Transmit(Step(s, ev).sio) <==> ReportSafe(s, ev)
  {
    match ev
    case SocketWait(e) => WaitKeepsTransmit(s.sio, e);
    case SocketReply => ReplyKeepsSending(s); SameTransmits(s.sio, HandleSock(s).sio);
    case ConsoleMessage(started) => MessageTransmits(s, started);
    case _ =>
  }

  /** In all states up to this one. */
  ghost predicate AllTransmit(states: seq<Session>, i: nat)
    requires i < |states|
  {
    Transmit(states[i].sio) && (i > 0 ==> AllTransmit(states, i - 1))
  }

  /** In all events before this state. */
  predicate AllSafe(states: seq<Session>, evs: seq<Event>, i: nat)
    requires i <= |evs| <= |states|
  {
    i > 0 ==> AllSafe(states, evs, i - 1) && ReportSafe(states[i - 1], evs[i - 1])
  }

  /**
   Over any run: what the socket accepted and what is still to be read, as it reads then, are the payloads as submitted, in
   order, at every moment, if and only if no report ever changed bytes still to be read.
   */
  lemma {:induction false} RunTransmitsIff(states: seq<Session>, evs: seq<Event>, i: nat)
    requires IsRun(states, evs) && i < |states| && Transmit(states[0].sio)
    ensures AllTransmit(states, i) <==> AllSafe(states, evs, i)
  {
    if i > 0 {
      RunTransmitsIff(states, evs, i - 1);
      StepInRun(states, evs, i - 1);
    }
  }

  lemma StepInRun(states: seq<Session>, evs: seq<Event>, k: nat)
    requires IsRun(states, evs) && k < |evs|
    ensures Transmit(states[k].sio) ==> (Transmit(states[k + 1].sio) <==> ReportSafe(states[k], evs[k]))
  {
    if Transmit(states[k].sio) {
      StepTransmitsIff(states[k], evs[k]);
    }
  }

  // ----- end to end -----

  lemma FailedForGood(s: Session, ev: Event)
    requires Enabled(s, ev) && s.sio.state == Failed
    ensures Step(s, ev).sio.state == Failed
  {
    match ev
    case SocketWait(e) => FailedStays(s.sio, e);
    case SocketReply => ReplyKeepsSending(s);
    case ConsoleMessage(started) =>
      MessageShape(s, started);
      DecisionShape(Wrote(s), s.vcon.toUser[0], started);
    case _ =>
  }

  /** Without an error everything written has been submitted; after one, everything up to it. */
  lemma {:induction false} RunSubmits(states: seq<Session>, evs: seq<Event>, i: nat, ns: nat, nv: nat)
    requires IsRun(states, evs) && i < |states| && states[0].sio.hist.submitted == []
    requires Supply(states[0], ns, nv) && nv <= ns
    ensures var s := states[i].sio;
            && s.hist.submitted <= Written(states, evs, i)
            && (s.state != Failed ==> s.hist.submitted == Written(states, evs, i))
  {
    if i > 0 {
      var s, ev := states[i - 1], evs[i - 1];
      RunSubmits(states, evs, i - 1, ns, nv);
      RunKeepsSupply(states, evs, i - 1, ns, nv);
      StepSubmits(s, ev);
      if s.sio.state == Failed {
        FailedForGood(s, ev);
        assert s.sio.hist.submitted + [] == s.sio.hist.submitted;
      } else if ev.ConsoleMessage? {
        MessageIsFree(s, ns, nv);
      }
    }
  }

  lemma FlattenPrefix(a: seq<seq<byte>>, b: seq<seq<byte>>)
    requires a <= b
    ensures Flatten(a) <= Flatten(b)
  {
    assert b == a + b[|a|..];
    FlattenConcat(a, b[|a|..]);
  }

  /**
   The end-to-end write stream. With at least as many socket messages as console messages, and no report that changes
   bytes still to be read: in every state of every run what the network accepted is a prefix of all that was
   written, in order; and without an error, once no send is pending, it is all of it.
   */
  lemma WriteStream(states: seq<Session>, evs: seq<Event>, i: nat, ns: nat, nv: nat)
    requires IsRun(states, evs) && i < |states| && states[0].sio.hist.submitted == [] && Transmit(states[0].sio)
    requires Supply(states[0], ns, nv) && nv <= ns
    requires AllSafe(states, evs, i)
    ensures var s := states[i].sio;
            && s.hist.sent <= Flatten(Written(states, evs, i))
            && (s.state != Failed && s.send == [] && SendsOf(s.port) == [] ==> s.hist.sent == Flatten(Written(states, evs, i)))
  {
    RunSubmits(states, evs, i, ns, nv);
    RunTransmitsIff(states, evs, i);
    AllSent(states[i].sio);
    FlattenPrefix(states[i].sio.hist.submitted, Written(states, evs, i));
  }

  lemma AllSent(s: Sio<VReq>)
    requires Transmit(s)
    ensures s.hist.sent <= Flatten(s.hist.submitted)
    ensures s.state != Failed && s.send == [] && SendsOf(s.port) == [] ==> s.hist.sent == Flatten(s.hist.submitted)
  {
    if s.state != Failed && s.send == [] && SendsOf(s.port) == [] {
      assert Pending(s) == [] && Payloads(s.report, Pending(s)) == [];
      assert s.hist.sent + [] == s.hist.sent;
    }
  }

  /** A new session begins with all this. */
  lemma StartCanWrite(sids: seq<nat>, vids: seq<nat>, pushMax: nat, split: bool, parse: bool, medium: bool, send: bool)
    ensures var s := Start(sids, vids, pushMax, split, parse, medium, send);
            Transmit(s.sio) && s.sio.hist.submitted == [] && Supply(s, |sids|, |vids|)
  {
    StartHasSupply(sids, vids, pushMax, split, parse, medium, send);
  }
}
