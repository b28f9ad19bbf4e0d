/** Requests are served in the order in which they were made. */
module SockioQueues {
  import opened Common
  import opened SockioSpec

  // ----- receives -----

  /** The receives that are listed and then those still on the port. */
  function Receives<U>(s: Sio<U>): seq<RecvReq<U>> { s.recv + RecvsOf(s.port) }

  lemma RecvsOfSnoc<U>(port: seq<Req<U>>, m: Req<U>)
    ensures RecvsOf(port + [m]) == RecvsOf(port) + (if m.Rx? then [m.recv] else [])
    ensures WaitsOf(port + [m]) == WaitsOf(port) + (if m.Wt? then [m.wait] else [])
  {
    assert (port + [m])[..|port|] == port;
  }

  /** A new receive is the last one, and keeps the memory, the size and the minimum it was made with. */
  lemma ReceiveIsLast<U>(s: Sio<U>, buf: nat, cap: nat, min: nat, user: Option<U>)
    requires CanSubmit(s)
    ensures Receives(SubmitRecv(s, buf, cap, min, user)) == Receives(s) + [RecvReq(s.free[0], buf, cap, min, user)]
  {
    RecvsOfSnoc(s.port, Rx(RecvReq(s.free[0], buf, cap, min, user)));
  }

  /** At most the first receive is gone, or everything that was listed. */
  predicate Served<U(==)>(s: Sio<U>, t: Sio<U>) {
    || Receives(t) == Receives(s)
    || (s.recv != [] && Receives(t) == Receives(s)[1..])
    || Receives(t) == Receives(s)[|s.recv|..]
    || (t.state == Failed && Receives(t) == RecvsOf(t.port) && (t.port == [] || t.port == s.port))
  }

  lemma PrepareServes<U>(s: Sio<U>)
    ensures var (t, p) := Prepare(s);
            && t.port == s.port && (t.recv == s.recv || t.recv == [] || (s.recv != [] && t.recv == s.recv[1..]))
            && (p.rx.Some? ==> t.recv == s.recv)
  {
  }

  lemma ServeTxServes<U>(s: Sio<U>, p: Plan<U>, e: Env)
    requires Servable(s, p, e)
    ensures var t := ServeTx(s, p, e).0;
            t.port == s.port && (t.recv == s.recv || (p.rx.Some? && s.recv != [] && t.recv == s.recv[1..]))
  {
    if p.rx.Some? {
      RxPhaseFrame(ServeWait(s, p, e), p.rx.value.min, p.read && SeenReadable(p, e), e.rx);
    }
    if p.tx.Some? {
      TxPhaseFrame(ServeRx(s, p, e).0, p.write && e.writable, e.tx);
    }
  }

  lemma SignalsServe<U>(s: Sio<U>, e: Env)
    ensures Receives(Signals(s, e)) == Receives(s) && (Signals(s, e).port == s.port || Signals(s, e).port == [])
  {
    var d := if e.msgSig then Drain(s) else s;
    ExpireKeeps(d, e.expired);
    assert RecvsOf<U>([]) == [];
  }

  /** Not more than the first receive is gone, or all that were listed. */
  predicate FromFront<U(==)>(s: Sio<U>, rs: seq<RecvReq<U>>) {
    rs == Receives(s) || (s.recv != [] && rs == Receives(s)[1..]) || rs == Receives(s)[|s.recv|..]
  }

  lemma PreparedFront<U>(s: Sio<U>)
    ensures var (t, p) := Prepare(s);
            FromFront(s, Receives(t)) && t.port == s.port && (p.rx.Some? ==> s.recv != [] && Receives(t) == Receives(s))
  {
    PrepareServes(s);
    DroppedFront(s, Prepare(s).0);
  }

  /** A wait serves the receives from the front. */
  lemma WaitServes<U>(s: Sio<U>, e: Env)
    requires EnvOk(s, e)
    ensures Served(s, WaitStep(s, e))
  {
    var (s1, p) := Prepare(s);
    PreparedFront(s);
    SignalsServe(s1, e);
    if e.outcome == SelectFailed {
      FailedServes(s1, ERROR_WAIT);
    } else if e.outcome == SocketReady {
      PickedStaysHead(s, e);
      ReadyServes(s, Signals(s1, e), p, e);
    }
  }

  lemma DroppedFront<U>(s: Sio<U>, t: Sio<U>)
    requires t.port == s.port && (t.recv == s.recv || t.recv == [] || (s.recv != [] && t.recv == s.recv[1..]))
    ensures FromFront(s, Receives(t)) && (t.recv == s.recv ==> Receives(t) == Receives(s))
  {
    assert (s.recv + RecvsOf(s.port))[|s.recv|..] == RecvsOf(s.port);
    if s.recv != [] {
      assert (s.recv + RecvsOf(s.port))[1..] == s.recv[1..] + RecvsOf(s.port);
    }
  }

  /** `s` is the state before the wait, `t` that before the socket is served. */
  lemma ReadyServes<U>(s: Sio<U>, t: Sio<U>, p: Plan<U>, e: Env)
    requires Servable(t, p, e) && FromFront(s, Receives(t)) && (t.port == s.port || t.port == [])
    requires p.rx.Some? ==> s.recv != [] && Receives(t) == Receives(s)
    ensures Served(s, Serve(t, p, e))
  {
    var (u, bad) := ServeTx(t, p, e);
    ServeTxServes(t, p, e);
    if bad {
      FailedServes(u, ERROR_IO);
    } else if u.recv != t.recv {
      assert Receives(u) == Receives(t)[1..];
    }
  }

  lemma FailedServes<U>(s: Sio<U>, code: nat)
    ensures var t := FailAll(s, code); t.state == Failed && t.recv == [] && t.port == s.port && Receives(t) == RecvsOf(t.port)
  {
  }

  // ----- waits -----

  function Waiters<U>(s: Sio<U>): seq<WaitReq<U>> { s.wait + WaitsOf(s.port) }

  /** A new wait is the last one; it has a job if and only if the timer was started. */
  lemma WaitIsLast<U>(s: Sio<U>, started: bool, user: Option<U>)
    requires CanSubmit(s)
    ensures Waiters(SubmitWait(s, started, user)) ==
              Waiters(s) + [WaitReq(s.free[0], if started then Some(s.nextJob) else None, user)]
  {
    RecvsOfSnoc(s.port, Wt(WaitReq(s.free[0], if started then Some(s.nextJob) else None, user)));
  }

  // ----- a new buffer -----

  /** A receive that goes on in a new buffer has that buffer, its size and its minimum from then on. */
  lemma ReplacedIs<U>(s: Sio<U>, k: nat, buf: nat, cap: nat, min: nat)
    requires k < |s.recv| && (k == 0 ==> |s.partial| < min && |s.partial| <= cap)
    ensures var (t, ok) := ReplaceRecv(s, k, buf, cap, min);
            && ok && |t.recv| == |s.recv| && t.recv[k] == RecvReq(s.recv[k].id, buf, cap, min, s.recv[k].user)
            && (forall i :: 0 <= i < |s.recv| && i != k ==> t.recv[i] == s.recv[i])
            && t.partial == s.partial && t.push == s.push
  {
    assert s.partial[..|s.partial|] == s.partial;
  }

  /** One that has enough already is answered with as much as fits, and the rest is pushed back. */
  lemma ReplacedCompletes<U>(s: Sio<U>, buf: nat, cap: nat, min: nat)
    requires s.recv != [] && min <= cap <= |s.partial| <= cap + s.pushMax
    ensures var (t, ok) := ReplaceRecv(s, 0, buf, cap, min);
            && ok && t.recv == s.recv[1..] && t.partial == [] && t.out == s.out + [RecvDone(s.recv[0].id, s.partial[..cap], s.recv[0].user)]
            && t.push == if |s.partial| > cap then s.partial[cap..] else s.push
  {
    assert s.partial[..|s.partial|] == s.partial;
  }
}
