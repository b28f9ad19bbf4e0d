/**
 What goes out on the wire: from any state without an error the network may accept all that is pending, exactly as it
 reads then. So a report is harmless if and only if nothing wrong can go out after it, whatever the network does.
 */
module SessionWire {
  import opened Common
  import opened SockioSpec
  import opened SockioStreams
  import opened VconSpec
  import opened SessionSpec
  import opened SessionLeads
  import opened SessionWrites

  // ----- everything pending can go out -----

  /** One more send accepted to its end, nothing else changed about sending. */
  predicate HeadGone(s: Sio<VReq>, t: Sio<VReq>)
    requires s.send != []
  {
    && t.state != Failed && t.port == s.port && t.send == s.send[1..] && t.tx == 0 && t.report == s.report
    && t.hist.submitted == s.hist.submitted && t.hist.sent == s.hist.sent + From(Payload(s, s.send[0]), s.tx)
  }

  lemma PrepareSends(s: Sio<VReq>)
    requires s.state != Failed
    ensures var (t, p) := Prepare(s);
            && SameSendSide(s, t) && t.state == s.state && p.tx == HeadOf(s.send)
            && (p.write <==> s.send != [] && s.tx < |Payload(s, s.send[0])|)
  {
  }

  lemma HeadAccepted(s: Sio<VReq>, write: bool, n: nat)
    requires s.state != Failed && s.send != [] && s.tx + n == |Payload(s, s.send[0])| && (write <==> n > 0)
    ensures var (t, bad) := TxPhase(s, write, Sent(n)); HeadGone(s, t) && !bad
  {
    var payload := Payload(s, s.send[0]);
    assert payload[s.tx..|payload|] == payload[s.tx..];
    assert n == 0 ==> s.hist.sent + payload[s.tx..] == s.hist.sent;
  }

  lemma ServedHead(s: Sio<VReq>, p: Plan<VReq>, n: nat)
    requires s.state != Failed && TxOk(s) && s.send != [] && n == |Payload(s, s.send[0])| - s.tx
    requires Servable(s, p, Sends(n)) && p.tx.Some? && (p.write <==> n > 0)
    ensures HeadGone(s, Serve(s, p, Sends(n)))
  {
    var s2 := ServeRx(s, p, Sends(n)).0;
    RxTouches(s, p, Sends(n));
    HeadAccepted(s2, p.write, n);
  }

  /** The first send is accepted to its end. */
  lemma HeadFinishes(sio: Sio<VReq>, n: nat)
    requires sio.state != Failed && TxOk(sio) && sio.port == [] && sio.send != [] && n == |Payload(sio, sio.send[0])| - sio.tx
    ensures EnvOk(sio, Sends(n)) && HeadGone(sio, WaitStep(sio, Sends(n)))
  {
    var (s1, p) := Prepare(sio);
    PrepareSends(sio);
    PickedStaysHead(sio, Sends(n));
    ServedHead(s1, p, n);
  }

  predicate OnlyWaits(evs: seq<Event>) { forall i :: 0 <= i < |evs| ==> evs[i].SocketWait? }

  /** Nothing is pending any more, and what was has gone out as it read in `s`. */
  predicate WentOut(s: Sio<VReq>, t: Sio<VReq>) {
    && t.state != Failed && t.port == [] && t.send == []
    && t.hist.submitted == s.hist.submitted && t.hist.sent == s.hist.sent + Unread(s)
  }

  lemma NothingUnread(sio: Sio<VReq>)
    requires sio.send == [] && sio.port == []
    ensures Unread(sio) == []
  {
    assert Pending(sio) == [] && Payloads(sio.report, Pending(sio)) == [];
  }

  /** What is unread goes out with the first send and then with the others. */
  lemma GoesOutInTurn(s: Sio<VReq>, t: Sio<VReq>, u: Sio<VReq>)
    requires TxOk(s) && s.send != [] && s.port == [] && HeadGone(s, t) && WentOut(t, u)
    ensures WentOut(s, u)
  {
    PendingHead(s);
    HeadUnread(s.report, Pending(s), s.tx);
    assert Pending(t) == Pending(s)[1..];
    Assoc(s.hist.sent, From(Payload(s, s.send[0]), s.tx), Unread(t));
  }

  lemma Here(s: Session)
    ensures Leads(s, [], s)
  {
    var none: seq<Event> := [];
    assert IsRun([s], none) && [s][0] == s && [s][|none|] == s;
  }

  lemma {:induction false} ListGoesOut(s: Session) returns (evs: seq<Event>, t: Session)
    requires s.sio.state != Failed && TxOk(s.sio) && s.sio.port == []
    ensures OnlyWaits(evs) && Leads(s, evs, t) && WentOut(s.sio, t.sio)
    decreases |s.sio.send|
  {
    if s.sio.send == [] {
      evs, t := [], s;
      Here(s);
      NothingUnread(s.sio);
      assert s.sio.hist.sent + [] == s.sio.hist.sent;
    } else {
      var n := |Payload(s.sio, s.sio.send[0])| - s.sio.tx;
      var e := Sends(n);
      HeadFinishes(s.sio, n);
      var s1 := s.(sio := WaitStep(s.sio, e));
      WaitLeads(s, e, s1.sio);
      var more;
      more, t := ListGoesOut(s1);
      evs := [SocketWait(e)] + more;
      LeadsOn(s, [SocketWait(e)], s1, more, t);
      GoesOutInTurn(s.sio, s1.sio, t.sio);
    }
  }

  predicate PortTaken(s: Sio<VReq>, t: Sio<VReq>) {
    && t.state == s.state && t.port == [] && TxOk(t) && Unread(t) == Unread(s)
    && t.hist.sent == s.hist.sent && t.hist.submitted == s.hist.submitted
  }

  /** The port is taken first; that changes nothing about what is pending. */
  lemma PortFirst(sio: Sio<VReq>)
    requires sio.state != Failed && TxOk(sio)
    ensures EnvOk(sio, TakesRequest) && PortTaken(sio, WaitStep(sio, TakesRequest))
  {
    var t := WaitStep(sio, TakesRequest);
    assert SendsOf<VReq>([]) == [];
    assert Pending(t) == Pending(sio);
  }

  lemma EverythingGoesOut(s: Session) returns (evs: seq<Event>, t: Session)
    requires s.sio.state != Failed && TxOk(s.sio)
    ensures OnlyWaits(evs) && Leads(s, evs, t) && WentOut(s.sio, t.sio)
  {
    PortFirst(s.sio);
    var s1 := s.(sio := WaitStep(s.sio, TakesRequest));
    WaitLeads(s, TakesRequest, s1.sio);
    var more;
    more, t := ListGoesOut(s1);
    evs := [SocketWait(TakesRequest)] + more;
    LeadsOn(s, [SocketWait(TakesRequest)], s1, more, t);
    OutAfterPort(s.sio, s1.sio, t.sio);
  }

  lemma OutAfterPort(s: Sio<VReq>, t: Sio<VReq>, u: Sio<VReq>)
    requires PortTaken(s, t) && WentOut(t, u)
    ensures WentOut(s, u)
  {
  }

  // ----- exactly the harmless reports -----

  /** Whatever the network does from here, before anything else happens, it accepts what was submitted. */
  ghost predicate WireStaysRight(s: Session) {
    forall evs, t :: OnlyWaits(evs) && Leads(s, evs, t) ==> t.sio.hist.sent <= Flatten(t.sio.hist.submitted)
  }

  lemma {:induction false} WaitsTransmit(states: seq<Session>, evs: seq<Event>, i: nat)
    requires IsRun(states, evs) && OnlyWaits(evs) && i < |states| && Transmit(states[0].sio)
    ensures Transmit(states[i].sio)
  {
    if i > 0 {
      WaitsTransmit(states, evs, i - 1);
      assert evs[i - 1].SocketWait? && states[i] == Step(states[i - 1], evs[i - 1]);
      WaitKeepsTransmit(states[i - 1].sio, evs[i - 1].e);
    }
  }

  lemma TransmitStaysRight(s: Session)
    requires Transmit(s.sio)
    ensures WireStaysRight(s)
  {
    forall evs, t | OnlyWaits(evs) && Leads(s, evs, t) ensures t.sio.hist.sent <= Flatten(t.sio.hist.submitted) {
      var states: seq<Session> :| IsRun(states, evs) && states[0] == s && states[|evs|] == t;
      WaitsTransmit(states, evs, |evs|);
      AllSent(t.sio);
    }
  }

  /** As much as was submitted has been sent or is to be read, whatever it reads. */
  predicate Measured(s: Sio<VReq>) { TxOk(s) && |s.hist.sent + Unread(s)| == |Flatten(s.hist.submitted)| }

  lemma StaysRightTransmits(s: Session)
    requires s.sio.state != Failed && Measured(s.sio) && WireStaysRight(s)
    ensures Transmit(s.sio)
  {
    var evs, t := EverythingGoesOut(s);
    assert t.sio.hist.sent == Flatten(t.sio.hist.submitted);
  }

  lemma WroteMeasured(s: Session)
    requires s.vcon.toUser != [] && Measured(s.sio) && s.sio.state != Failed
    ensures Measured(Wrote(s).sio)
  {
    if Reports(s) {
      WriteKeepsUnreadIff(s.sio, ModeReport(s.vcon.toUser[0].op.mode));
    }
  }

  /** After a message that reports a mode. */
  lemma ReportMeasured(s: Session, started: bool)
    requires s.vcon.toUser != [] && Reports(s) && Measured(s.sio) && s.sio.state != Failed
    ensures var t := HandleVcon(s, started).sio; Measured(t) && t.state == s.sio.state
  {
    var q, w := s.vcon.toUser[0], Wrote(s);
    WroteMeasured(s);
    MessageShape(s, started);
    if CanSubmit(w.sio) {
      SubmitAdds(w.sio, Shared, Some(q));
    }
  }

  /**
   A report changes no byte still to be read if and only if, whatever the network does from then on, it accepts
   what was submitted, in order.
   */
  lemma ReportSafeIff(s: Session, started: bool)
    requires s.vcon.toUser != [] && Reports(s) && Transmit(s.sio) && s.sio.state != Failed
    ensures ReportSafe(s, ConsoleMessage(started)) <==> WireStaysRight(HandleVcon(s, started))
  {
    var t := HandleVcon(s, started);
    MessageTransmits(s, started);
    ReportMeasured(s, started);
    if WireStaysRight(t) {
      StaysRightTransmits(t);
    } else if Transmit(t.sio) {
      TransmitStaysRight(t);
    }
  }
}
