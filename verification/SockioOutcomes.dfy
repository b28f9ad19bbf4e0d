/** What a wait does to the state of the service, its first receive and its first send, told from the environment. */
module SockioOutcomes {
  import opened Common
  import opened SockioSpec
  import opened SockioPool

  // ----- errors and the end of the file -----

  /** The first receive is short of bytes, whatever was pushed back. */
  predicate WantsData<U>(s: Sio<U>) {
    s.state == Ok && s.recv != [] &&
    |s.partial| + (if |s.partial| >= s.recv[0].cap then 0
                   else if |s.push| > s.recv[0].cap - |s.partial| then s.recv[0].cap - |s.partial|
                   else |s.push|) < s.recv[0].min
  }

  /** The first send has bytes left. */
  predicate HasBytes<U>(s: Sio<U>) { s.state != Failed && s.send != [] && s.tx < |Payload(s, s.send[0])| }

  predicate Reads<U>(s: Sio<U>, e: Env) { e.outcome == SocketReady && e.readable && WantsData(s) }

  predicate Writes<U>(s: Sio<U>, e: Env) { e.outcome == SocketReady && e.writable && HasBytes(s) }

  /** The wait as a whole fails, or a transfer that was asked for does. */
  predicate Breaks<U>(s: Sio<U>, e: Env) {
    e.outcome == SelectFailed || (Reads(s, e) && e.rx.RecvError?) || (Writes(s, e) && e.tx.SendError?)
  }

  lemma PreparePlans<U>(s: Sio<U>)
    ensures var (t, p) := Prepare(s);
            && t.state == s.state && t.tx == s.tx && t.report == s.report && t.free == s.free && t.held == s.held && t.port == s.port
            && (p.read <==> WantsData(s)) && (p.write <==> HasBytes(s))
            && (p.read ==> |t.partial| < t.recv[0].min)
            && (p.rx.Some? ==> s.state == Ok)
  {
  }

  lemma ServeBad<U>(s: Sio<U>, p: Plan<U>, e: Env)
    requires Servable(s, p, e)
    ensures ServeTx(s, p, e).1 <==>
              (p.read && e.readable && e.rx.RecvError?) || (p.write && e.writable && e.tx.SendError?)
  {
  }

  lemma ServeTxState<U>(s: Sio<U>, p: Plan<U>, e: Env)
    requires Servable(s, p, e) && (p.read ==> |s.partial| < s.recv[0].min && p.rx.value.min == s.recv[0].min)
    ensures ServeTx(s, p, e).0.state == if p.read && e.readable && e.rx.Closed? then Eof else s.state
  {
    if p.tx.Some? {
      TxPhaseFrame(ServeRx(s, p, e).0, p.write && e.writable, e.tx);
    }
  }

  lemma ServeState<U>(s: Sio<U>, p: Plan<U>, e: Env)
    requires Servable(s, p, e) && (p.read ==> |s.partial| < s.recv[0].min && p.rx.value.min == s.recv[0].min)
    ensures Serve(s, p, e).state ==
              if (p.read && e.readable && e.rx.RecvError?) || (p.write && e.writable && e.tx.SendError?) then Failed
              else if p.read && e.readable && e.rx.Closed? then Eof
              else s.state
  {
    ServeBad(s, p, e);
    ServeTxState(s, p, e);
  }

  lemma ReadyState<U>(s: Sio<U>, e: Env)
    requires EnvOk(s, e) && e.outcome == SocketReady
    ensures WaitStep(s, e).state ==
              if Breaks(s, e) then Failed else if Reads(s, e) && e.rx.Closed? then Eof else s.state
  {
    var (s1, p) := Prepare(s);
    PreparePlans(s);
    ExpireKeeps(if e.msgSig then Drain(s1) else s1, e.expired);
    PickedStaysHead(s, e);
    ServeState(Signals(s1, e), p, e);
  }

  lemma SignalsState<U>(s: Sio<U>, e: Env)
    ensures Signals(s, e).state == s.state
  {
    ExpireKeeps(if e.msgSig then Drain(s) else s, e.expired);
  }

  /** After a wait there is an error if and only if there was one, or the wait or a transfer that was asked for fails. */
  lemma FailsIff<U>(s: Sio<U>, e: Env)
    requires EnvOk(s, e)
    ensures WaitStep(s, e).state == Failed <==> s.state == Failed || Breaks(s, e)
    ensures WaitStep(s, e).state == Eof <==>
              s.state != Failed && !Breaks(s, e) && (s.state == Eof || (Reads(s, e) && e.rx.Closed?))
  {
    PreparePlans(s);
    if e.outcome == SocketReady {
      ReadyState(s, e);
    } else {
      SignalsState(Prepare(s).0, e);
    }
  }

  // ----- what an error leaves -----

  /** Nothing is listed any more; behind everything else an error note went out, if a message was free. */
  predicate AllAnswered<U(==)>(s: Sio<U>, t: Sio<U>, code: nat) {
    && t.state == Failed && t.recv == [] && t.send == [] && t.wait == [] && t.partial == [] && t.tx == 0
    && (s.free != [] ==> t.free == s.free[1..] && t.out != [] && t.out[|t.out| - 1] == ErrorNote(s.free[0], code, None))
    && (s.free == [] ==> t.free == [])
  }

  lemma FailAnswers<U>(s: Sio<U>, code: nat)
    ensures AllAnswered(s, FailAll(s, code), code)
  {
  }

  lemma ServeTxFree<U>(s: Sio<U>, p: Plan<U>, e: Env)
    requires Servable(s, p, e)
    ensures var t := ServeTx(s, p, e).0; t.free == s.free && t.held == s.held && t.port == s.port
  {
    if p.rx.Some? {
      RxPhaseFrame(ServeWait(s, p, e), p.rx.value.min, p.read && SeenReadable(p, e), e.rx);
    }
    if p.tx.Some? {
      TxPhaseFrame(ServeRx(s, p, e).0, p.write && e.writable, e.tx);
    }
  }

  /** On an error every list is answered and emptied, and the user is told: 0 if the wait failed, 1 if a transfer did. */
  lemma BreakAnswers<U>(s: Sio<U>, e: Env)
    requires EnvOk(s, e) && Breaks(s, e)
    ensures AllAnswered(s, WaitStep(s, e), if e.outcome == SelectFailed then 0 else 1)
    ensures var t := WaitStep(s, e); t.held == s.held && (t.port == s.port || t.port == [])
  {
    var (s1, p) := Prepare(s);
    PreparePlans(s);
    if e.outcome == SelectFailed {
      FailAnswers(s1, 0);
    } else {
      ExpireKeeps(if e.msgSig then Drain(s1) else s1, e.expired);
      PickedStaysHead(s, e);
      var s2 := Signals(s1, e);
      ServeBad(s2, p, e);
      ServeTxFree(s2, p, e);
      FailAnswers(ServeTx(s2, p, e).0, 1);
    }
  }

  /** Every request that was listed has been answered, each message once. */
  lemma ListedIsAnswered<U>(s: Sio<U>, e: Env, ids: set<nat>, id: nat) returns (k: nat)
    requires EnvOk(s, e) && Breaks(s, e) && Partitioned(s, ids)
    requires Sum(s.recv, RecvTok, IdIs(id)) + Sum(s.send, SendTok, IdIs(id)) + Sum(s.wait, WaitTok, IdIs(id)) > 0
    ensures var t := WaitStep(s, e); k < |t.out| && t.out[k].id == id
  {
    var t, w := WaitStep(s, e), IdIs<U>(id);
    WaitKeepsPool(s, e, w);
    BreakAnswers(s, e);
    assert Pool(s, w) <= 1;
    if s.free != [] {
      SumHead(s.free, IdleTok, w);
    }
    k := Counted(t.out, id);
  }

  lemma {:induction false} Counted<U>(out: seq<Reply<U>>, id: nat) returns (k: nat)
    requires Sum(out, OutTok, IdIs(id)) > 0
    ensures k < |out| && out[k].id == id
  {
    var n := |out| - 1;
    if out[n].id == id {
      k := n;
    } else {
      k := Counted(out[..n], id);
    }
  }

  // ----- the first receive -----

  /** What the buffer of the first receive holds after the wait: what it held, pushed-back bytes, and the bytes read. */
  function FirstBytes<U>(s: Sio<U>, e: Env): seq<byte> {
    if Reads(s, e) && e.rx.Data? then Filled(s) + e.rx.chunk else Filled(s)
  }

  /** The first receive is answered once its buffer has the bytes it asked for, and waits for more until then. */
  predicate FirstServed<U(==)>(r: RecvReq<U>, rest: seq<RecvReq<U>>, got: seq<byte>, t: Sio<U>) {
    if |got| >= r.min then t.partial == [] && rest <= t.recv && RecvDone(r.id, got, r.user) in t.out
    else t.partial == got && [r] + rest <= t.recv
  }

  lemma PushedFirst<U>(s: Sio<U>)
    requires s.recv != [] && |s.partial| < s.recv[0].min
    ensures var (t, rx) := ServePushBack(s);
            && t.state == s.state && t.push == s.push[|Filled(s)| - |s.partial|..]
            && (|Filled(s)| < s.recv[0].min ==> rx == Some(s.recv[0]) && t.recv == s.recv && t.partial == Filled(s))
            && (|Filled(s)| >= s.recv[0].min ==>
                  && rx == None && t.recv == s.recv[1..] && t.partial == []
                  && t.out == s.out + [RecvDone(s.recv[0].id, Filled(s), s.recv[0].user)])
  {
    assert s.partial + s.push[..0] == s.partial;
    assert s.push[0..] == s.push;
  }

  lemma {:induction false} ExpireAnswers<U>(s: Sio<U>, jids: seq<nat>)
    ensures s.out <= Expire(s, jids).out
  {
    if jids != [] {
      ExpireAnswers(s, jids[..|jids| - 1]);
    }
  }

  lemma SignalsFirst<U>(s: Sio<U>, e: Env)
    ensures var t := Signals(s, e);
            t.state == s.state && s.recv <= t.recv && t.partial == s.partial && t.push == s.push && s.out <= t.out
  {
    var d := if e.msgSig then Drain(s) else s;
    ExpireKeeps(d, e.expired);
    ExpireAnswers(d, e.expired);
  }

  lemma ServeFirst<U>(s: Sio<U>, p: Plan<U>, e: Env)
    requires Servable(s, p, e) && s.state == Ok && p.rx.Some?
    requires !ServeTx(s, p, e).1 && ServeTx(s, p, e).0.state == Ok
    ensures var t, got := ServeTx(s, p, e).0, Got(s.partial, p.read && e.readable, e.rx);
            FirstServed(s.recv[0], s.recv[1..], got, t) && t.push == s.push
  {
    if p.tx.Some? {
      TxPhaseFrame(ServeRx(s, p, e).0, p.write && e.writable, e.tx);
    }
  }

  lemma StaysIn<U>(r: Reply<U>, out: seq<Reply<U>>, more: seq<Reply<U>>)
    requires r in out && out <= more
    ensures r in more
  {
    var i :| 0 <= i < |out| && out[i] == r;
    assert more[i] == r;
  }

  lemma ServeOthers<U>(s: Sio<U>, p: Plan<U>, e: Env)
    requires Servable(s, p, e) && p.rx.None?
    ensures var t := ServeTx(s, p, e).0; t.recv == s.recv && t.partial == s.partial && t.push == s.push && s.out <= t.out
  {
    if p.tx.Some? {
      TxPhaseFrame(ServeRx(s, p, e).0, p.write && e.writable, e.tx);
    }
  }

  /** What is known of the first receive `r`, with `filled` in its buffer, once pushed-back bytes have gone there. */
  predicate FirstPicked<U(==)>(r: RecvReq<U>, rest: seq<RecvReq<U>>, filled: seq<byte>, t: Sio<U>, p: Plan<U>) {
    && (p.rx.Some? <==> |filled| < r.min) && (p.read ==> p.rx.Some?)
    && t.state == Ok && FirstServed(r, rest, filled, t)
  }

  lemma PreparedFirst<U>(s: Sio<U>)
    requires s.state == Ok && s.recv != [] && |s.partial| < s.recv[0].min
    ensures var (t, p) := Prepare(s);
            FirstPicked(s.recv[0], s.recv[1..], Filled(s), t, p) && t.push == s.push[|Filled(s)| - |s.partial|..]
  {
    PushedFirst(s);
  }

  lemma SignalledFirst<U>(r: RecvReq<U>, rest: seq<RecvReq<U>>, filled: seq<byte>, s: Sio<U>, p: Plan<U>, e: Env)
    requires FirstPicked(r, rest, filled, s, p)
    ensures FirstPicked(r, rest, filled, Signals(s, e), p) && Signals(s, e).push == s.push
  {
    SignalsFirst(s, e);
    if |filled| >= r.min {
      StaysIn(RecvDone(r.id, filled, r.user), s.out, Signals(s, e).out);
    }
  }

  lemma ServedFirst<U>(r: RecvReq<U>, rest: seq<RecvReq<U>>, filled: seq<byte>, s: Sio<U>, p: Plan<U>, e: Env)
    requires Servable(s, p, e) && FirstPicked(r, rest, filled, s, p)
    requires !ServeTx(s, p, e).1 && ServeTx(s, p, e).0.state == Ok
    ensures var t := ServeTx(s, p, e).0;
            FirstServed(r, rest, Got(filled, p.read && e.readable, e.rx), t) && t.push == s.push
  {
    if p.rx.Some? {
      ServeFirst(s, p, e);
    } else {
      ServeOthers(s, p, e);
      StaysIn(RecvDone(r.id, filled, r.user), s.out, ServeTx(s, p, e).0.out);
    }
  }

  /** Over a wait without an error or the end of the file: bytes are read for the first receive only, and it gets them all. */
  lemma FirstReceive<U>(s: Sio<U>, e: Env)
    requires EnvOk(s, e) && s.state == Ok && s.recv != [] && |s.partial| < s.recv[0].min
    requires WaitStep(s, e).state == Ok
    ensures FirstServed(s.recv[0], s.recv[1..], FirstBytes(s, e), WaitStep(s, e))
    ensures WaitStep(s, e).push == s.push[|Filled(s)| - |s.partial|..]
  {
    var (s1, p) := Prepare(s);
    var r, rest := s.recv[0], s.recv[1..];
    PreparedFirst(s);
    SignalledFirst(r, rest, Filled(s), s1, p, e);
    if e.outcome == SocketReady {
      var s2 := Signals(s1, e);
      PickedStaysHead(s, e);
      ReadyState(s, e);
      PreparePlans(s);
      ServeBad(s2, p, e);
      ServedFirst(r, rest, Filled(s), s2, p, e);
    }
  }

  // ----- the first send -----

  /** How much of the first send has gone out after the wait. */
  function FirstSent<U>(s: Sio<U>, e: Env): nat { if Writes(s, e) && e.tx.Sent? then s.tx + e.tx.n else s.tx }

  predicate SendKept<U(==)>(m: SendReq<U>, rest: seq<SendReq<U>>, sent: nat, t: Sio<U>) {
    t.tx == sent && [m] + rest <= t.send
  }

  predicate SendGone<U(==)>(m: SendReq<U>, rest: seq<SendReq<U>>, t: Sio<U>) {
    t.tx == 0 && rest <= t.send && SendDone(m.id, m.user) in t.out
  }

  lemma SignalsSend<U>(s: Sio<U>, e: Env)
    ensures var t := Signals(s, e); s.send <= t.send && t.tx == s.tx && t.report == s.report
  {
    ExpireKeeps(if e.msgSig then Drain(s) else s, e.expired);
  }

  lemma ServeSend<U>(s: Sio<U>, p: Plan<U>, e: Env)
    requires Servable(s, p, e) && p.tx.Some?
    ensures var t, m := ServeTx(s, p, e).0, s.send[0];
            var sent := if p.write && e.writable && e.tx.Sent? then s.tx + e.tx.n else s.tx;
            if sent == |Payload(s, m)| then SendGone(m, s.send[1..], t) else SendKept(m, s.send[1..], sent, t)
  {
    if p.rx.Some? {
      RxPhaseFrame(ServeWait(s, p, e), p.rx.value.min, p.read && SeenReadable(p, e), e.rx);
    }
  }

  /** The first send has been picked, and nothing else has happened to it. */
  predicate SendPicked<U(==)>(s: Sio<U>, t: Sio<U>, p: Plan<U>)
    requires s.send != []
  {
    && p.tx == Some(s.send[0]) && (p.write <==> HasBytes(s))
    && s.send <= t.send && t.tx == s.tx && t.report == s.report
  }

  lemma PickedSend<U>(s: Sio<U>, e: Env)
    requires s.state != Failed && s.send != []
    ensures var (t, p) := Prepare(s); SendPicked(s, t, p) && SendPicked(s, Signals(t, e), p)
  {
    PreparePlans(s);
    SignalsSend(Prepare(s).0, e);
  }

  predicate SendServed<U(==)>(s: Sio<U>, e: Env, t: Sio<U>)
    requires s.send != []
  {
    var m, sent := s.send[0], FirstSent(s, e);
    if sent == |Payload(s, m)| then SendGone(m, s.send[1..], t) else SendKept(m, s.send[1..], sent, t)
  }

  lemma ServePickedSend<U>(s: Sio<U>, t: Sio<U>, p: Plan<U>, e: Env)
    requires s.send != [] && e.outcome == SocketReady && SendPicked(s, t, p) && Servable(t, p, e)
    ensures SendServed(s, e, ServeTx(t, p, e).0)
  {
    ServeSend(t, p, e);
  }

  lemma ReadySend<U>(s: Sio<U>, e: Env)
    requires EnvOk(s, e) && s.state != Failed && s.send != [] && e.outcome == SocketReady
    requires WaitStep(s, e).state != Failed
    ensures SendServed(s, e, WaitStep(s, e))
  {
    var (s1, p) := Prepare(s);
    var s2 := Signals(s1, e);
    PickedSend(s, e);
    PickedStaysHead(s, e);
    WholeServe(s, e);
    ServePickedSend(s, s2, p, e);
  }

  lemma WholeServe<U>(s: Sio<U>, e: Env)
    requires EnvOk(s, e) && e.outcome == SocketReady && WaitStep(s, e).state != Failed
    ensures var (s1, p) := Prepare(s);
            var s2 := Signals(s1, e);
            Servable(s2, p, e) && WaitStep(s, e) == ServeTx(s2, p, e).0
  {
    PickedStaysHead(s, e);
  }

  /** In a wait without an error the first send is answered if and only if the socket is ready and all its bytes have gone out. */
  lemma FirstSend<U>(s: Sio<U>, e: Env)
    requires EnvOk(s, e) && s.state != Failed && s.send != []
    requires WaitStep(s, e).state != Failed
    ensures e.outcome == SocketReady ==> SendServed(s, e, WaitStep(s, e))
    ensures e.outcome != SocketReady ==> SendKept(s.send[0], s.send[1..], s.tx, WaitStep(s, e))
  {
    PickedSend(s, e);
    if e.outcome == SocketReady {
      ReadySend(s, e);
    }
  }
}
