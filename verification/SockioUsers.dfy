/** Whose requests are where: what holds of the users of queued requests holds of the users of their answers. */
module SockioUsers {
  import opened Common
  import opened SockioSpec

  datatype Kind = ToRead | ToWrite | ToWait

  function KindOf<U>(m: Req<U>): Kind { match m case Rx(_) => ToRead case Tx(_) => ToWrite case Wt(_) => ToWait }

  function UserOf<U>(m: Req<U>): Option<U> { match m case Rx(r) => r.user case Tx(r) => r.user case Wt(w) => w.user }

  /** `Q` is about the users of what has found nothing yet, `R` about those of waits that have found a character. */
  predicate AnswerOk<U>(r: Reply<U>, Q: (Kind, Option<U>) -> bool, R: Option<U> -> bool) {
    match r
    case RecvDone(_, _, user) => Q(ToRead, user)
    case SendDone(_, user) => Q(ToWrite, user)
    case WaitDone(_, avail, user) => if avail then R(user) else Q(ToWait, user)
    case ErrorNote(_, _, user) => user.None?
  }

  predicate RequestsOk<U>(s: Sio<U>, Q: (Kind, Option<U>) -> bool) {
    && (forall i :: 0 <= i < |s.port| ==> Q(KindOf(s.port[i]), UserOf(s.port[i])))
    && (forall i :: 0 <= i < |s.recv| ==> Q(ToRead, s.recv[i].user))
    && (forall i :: 0 <= i < |s.send| ==> Q(ToWrite, s.send[i].user))
    && (forall i :: 0 <= i < |s.wait| ==> Q(ToWait, s.wait[i].user))
  }

  predicate AllUsers<U>(s: Sio<U>, Q: (Kind, Option<U>) -> bool, R: Option<U> -> bool) {
    RequestsOk(s, Q) && forall i :: 0 <= i < |s.out| ==> AnswerOk(s.out[i], Q, R)
  }

  lemma FlushKeepsUsers<U>(s: Sio<U>, Q: (Kind, Option<U>) -> bool, R: Option<U> -> bool)
    requires AllUsers(s, Q, R)
    ensures AllUsers(FlushRecv(s), Q, R) && AllUsers(FlushSend(s), Q, R)
  {
  }

  lemma FailKeepsUsers<U>(s: Sio<U>, code: nat, Q: (Kind, Option<U>) -> bool, R: Option<U> -> bool)
    requires AllUsers(s, Q, R)
    ensures AllUsers(FailAll(s, code), Q, R)
  {
    FlushKeepsUsers(s, Q, R);
    FlushKeepsUsers(FlushSend(s), Q, R);
  }

  lemma PrepareKeepsUsers<U>(s: Sio<U>, Q: (Kind, Option<U>) -> bool, R: Option<U> -> bool)
    requires AllUsers(s, Q, R)
    ensures AllUsers(Prepare(s).0, Q, R)
  {
    FlushKeepsUsers(s, Q, R);
    FlushKeepsUsers(FlushSend(s), Q, R);
    PushBackKeepsUsers(FlushForState(s), Q, R);
  }

  lemma PushBackKeepsUsers<U>(s: Sio<U>, Q: (Kind, Option<U>) -> bool, R: Option<U> -> bool)
    requires AllUsers(s, Q, R)
    ensures AllUsers(ServePushBack(s).0, Q, R)
  {
  }

  lemma {:induction false} PortUsers<U>(port: seq<Req<U>>, Q: (Kind, Option<U>) -> bool)
    requires forall i :: 0 <= i < |port| ==> Q(KindOf(port[i]), UserOf(port[i]))
    ensures forall i :: 0 <= i < |RecvsOf(port)| ==> Q(ToRead, RecvsOf(port)[i].user)
    ensures forall i :: 0 <= i < |SendsOf(port)| ==> Q(ToWrite, SendsOf(port)[i].user)
    ensures forall i :: 0 <= i < |WaitsOf(port)| ==> Q(ToWait, WaitsOf(port)[i].user)
  {
    if port != [] {
      PortUsers(port[..|port| - 1], Q);
      assert Q(KindOf(port[|port| - 1]), UserOf(port[|port| - 1]));
    }
  }

  lemma DrainKeepsUsers<U>(s: Sio<U>, Q: (Kind, Option<U>) -> bool, R: Option<U> -> bool)
    requires AllUsers(s, Q, R)
    ensures AllUsers(Drain(s), Q, R)
  {
    PortUsers(s.port, Q);
  }

  lemma {:induction false} ExpireKeepsUsers<U>(s: Sio<U>, jids: seq<nat>, Q: (Kind, Option<U>) -> bool, R: Option<U> -> bool)
    requires AllUsers(s, Q, R)
    ensures AllUsers(Expire(s, jids), Q, R)
  {
    if jids != [] {
      ExpireKeepsUsers(s, jids[..|jids| - 1], Q, R);
    }
  }

  lemma SignalsKeepUsers<U>(s: Sio<U>, e: Env, Q: (Kind, Option<U>) -> bool, R: Option<U> -> bool)
    requires AllUsers(s, Q, R)
    ensures AllUsers(Signals(s, e), Q, R)
  {
    DrainKeepsUsers(s, Q, R);
    ExpireKeepsUsers(if e.msgSig then Drain(s) else s, e.expired, Q, R);
  }

  lemma AnswerWaitKeepsUsers<U>(s: Sio<U>, Q: (Kind, Option<U>) -> bool, R: Option<U> -> bool)
    requires AllUsers(s, Q, R) && s.wait != [] && R(s.wait[0].user)
    ensures AllUsers(AnswerWait(s), Q, R)
  {
  }

  lemma RxKeepsUsers<U>(s: Sio<U>, min: nat, read: bool, res: RecvResult, Q: (Kind, Option<U>) -> bool, R: Option<U> -> bool)
    requires AllUsers(s, Q, R) && s.recv != []
    ensures AllUsers(RxPhase(s, min, read, res).0, Q, R)
  {
  }

  lemma TxKeepsUsers<U>(s: Sio<U>, write: bool, res: SendResult, Q: (Kind, Option<U>) -> bool, R: Option<U> -> bool)
    requires AllUsers(s, Q, R) && s.send != [] && (write && res.Sent? ==> s.tx + res.n <= |Payload(s, s.send[0])|)
    ensures AllUsers(TxPhase(s, write, res).0, Q, R)
  {
  }

  lemma ServeKeepsUsers<U>(s: Sio<U>, p: Plan<U>, e: Env, Q: (Kind, Option<U>) -> bool, R: Option<U> -> bool)
    requires Servable(s, p, e) && AllUsers(s, Q, R) && (p.wait.Some? && e.readable ==> R(s.wait[0].user))
    ensures AllUsers(Serve(s, p, e), Q, R)
  {
    var s1 := ServeWait(s, p, e);
    if p.wait.Some? && e.readable {
      AnswerWaitKeepsUsers(s, Q, R);
    }
    if p.rx.Some? {
      RxKeepsUsers(s1, p.rx.value.min, p.read && SeenReadable(p, e), e.rx, Q, R);
    }
    if p.tx.Some? {
      TxKeepsUsers(ServeRx(s, p, e).0, p.write && e.writable, e.tx, Q, R);
    }
    FailKeepsUsers(ServeTx(s, p, e).0, ERROR_IO, Q, R);
  }

  /** The socket is found readable while a wait is pending, and while it is fine; the first wait is answered. */
  predicate FindsCharacter<U>(s: Sio<U>, e: Env) { e.outcome == SocketReady && e.readable && s.state == Ok && s.wait != [] }

  lemma PrepareWaits<U>(s: Sio<U>)
    ensures var (t, p) := Prepare(s);
            p.wait == (if s.state == Ok && s.wait != [] then Some(s.wait[0]) else None) && (s.state == Ok ==> t.wait == s.wait)
  {
  }

  /** A wait keeps what holds of users, if it holds of the wait that finds a character that it does. */
  lemma WaitKeepsUsers<U>(s: Sio<U>, e: Env, Q: (Kind, Option<U>) -> bool, R: Option<U> -> bool)
    requires EnvOk(s, e) && AllUsers(s, Q, R) && (FindsCharacter(s, e) ==> R(s.wait[0].user))
    ensures AllUsers(WaitStep(s, e), Q, R)
  {
    var (s1, p) := Prepare(s);
    PrepareKeepsUsers(s, Q, R);
    PrepareWaits(s);
    if e.outcome == SelectFailed {
      FailKeepsUsers(s1, ERROR_WAIT, Q, R);
    } else {
      SignalsKeepUsers(s1, e, Q, R);
      if e.outcome == SocketReady {
        PickedStaysHead(s, e);
        ServeKeepsUsers(Signals(s1, e), p, e, Q, R);
      }
    }
  }

  // ----- the wait that finds a character is answered so -----

  predicate Prefix<U(==)>(s: Sio<U>, t: Sio<U>) { |s.out| <= |t.out| && t.out[..|s.out|] == s.out }

  lemma ServeAnswersWait<U>(s: Sio<U>, p: Plan<U>, e: Env)
    requires Servable(s, p, e) && p.wait.Some? && e.readable
    ensures var t := Serve(s, p, e); |t.out| > |s.out| && t.out[|s.out|] == WaitDone(s.wait[0].id, true, s.wait[0].user)
  {
    var s1 := ServeWait(s, p, e);
    assert s1.out[|s.out|] == WaitDone(s.wait[0].id, true, s.wait[0].user);
    ServeOnlyAdds(s, p, e);
    var t := Serve(s, p, e);
    assert t.out[|s.out|] == t.out[..|s1.out|][|s.out|];
  }

  lemma ServeOnlyAdds<U>(s: Sio<U>, p: Plan<U>, e: Env)
    requires Servable(s, p, e)
    ensures Prefix(ServeWait(s, p, e), Serve(s, p, e))
  {
    var s1 := ServeWait(s, p, e);
    assert Prefix(s1, ServeRx(s, p, e).0);
    assert Prefix(s1, ServeTx(s, p, e).0);
    FailOnlyAdds(ServeTx(s, p, e).0, ERROR_IO);
    PrefixTwice(s1, ServeTx(s, p, e).0, FailAll(ServeTx(s, p, e).0, ERROR_IO));
  }

  lemma FailOnlyAdds<U>(s: Sio<U>, code: nat)
    ensures Prefix(s, FailAll(s, code))
  {
  }

  lemma PrefixTwice<U>(a: Sio<U>, b: Sio<U>, c: Sio<U>)
    requires Prefix(a, b) && Prefix(b, c)
    ensures Prefix(a, c)
  {
    assert c.out[..|a.out|] == c.out[..|b.out|][..|a.out|];
  }

  /** The first wait is the one that is answered when a character is found. */
  lemma FoundIsAnswered<U>(s: Sio<U>, e: Env) returns (k: nat)
    requires EnvOk(s, e) && FindsCharacter(s, e)
    ensures var t := WaitStep(s, e); k < |t.out| && t.out[k] == WaitDone(s.wait[0].id, true, s.wait[0].user)
  {
    var (s1, p) := Prepare(s);
    PrepareWaits(s);
    PickedStaysHead(s, e);
    ServeAnswersWait(Signals(s1, e), p, e);
    k := |Signals(s1, e).out|;
  }
}
