/**
 Enough messages: a socket service with as many messages as the console never refuses a console message for want of
 one, as long as no error has occurred.
 */
module SessionSupply {
  import opened Common
  import opened SockioSpec
  import opened SockioPool
  import opened VconSpec
  import opened SessionSpec
  import opened SessionStream
  import opened SessionTheorems

  function Each<U>(): Tok<U> -> nat { (t: Tok<U>) => 1 }

  /** Messages nothing is attached to. */
  function Lone(): Tok<VReq> -> nat { (t: Tok<VReq>) => if t.user.None? then 1 else 0 }

  /** `ns` messages; between two events none is held, and without an error those with nothing attached are the free ones. */
  ghost predicate SocketSupply(sio: Sio<VReq>, ns: nat) {
    && Pool(sio, Each<VReq>()) == ns && sio.held == []
    && (sio.state != Failed ==> Pool(sio, Lone()) == |sio.free|)
  }

  ghost predicate Supply(s: Session, ns: nat, nv: nat) {
    SocketSupply(s.sio, ns) && Places(s, Each<nat>()) == nv
  }

  // ----- counting -----

  lemma {:induction false} EachOne<T, U>(list: seq<T>, f: T -> Tok<U>)
    ensures Sum(list, f, Each<U>()) == |list|
  {
    if list != [] {
      EachOne(list[..|list| - 1], f);
    }
  }

  lemma {:induction false} SumParts<T>(list: seq<T>, f: T -> Tok<VReq>)
    ensures Sum(list, f, Each<VReq>()) == Sum(list, f, Lone()) + Sum(list, f, Attached(Each<nat>()))
  {
    if list != [] {
      SumParts(list[..|list| - 1], f);
    }
  }

  lemma PoolParts(s: Sio<VReq>)
    ensures Pool(s, Each<VReq>()) == Pool(s, Lone()) + Pool(s, Attached(Each<nat>()))
  {
    SumParts(s.free, IdleTok);
    SumParts(s.port, ReqTok);
    SumParts(s.recv, RecvTok);
    SumParts(s.send, SendTok);
    SumParts(s.wait, WaitTok);
    SumParts(s.out, OutTok);
    SumParts(s.held, IdleTok);
  }

  /** With at least as many socket messages as console messages, one is free for every console message that comes. */
  lemma MessageIsFree(s: Session, ns: nat, nv: nat)
    requires Supply(s, ns, nv) && nv <= ns && s.sio.state != Failed && s.vcon.toUser != []
    ensures CanSubmit(s.sio)
  {
    PoolParts(s.sio);
    EachOne(s.vcon.toUser, ReqTag);
  }

  // ----- every event keeps the count -----

  lemma {:induction false} LoneIds(ids: seq<nat>)
    ensures Sum(ids, IdleTok, Lone()) == |ids|
  {
    if ids != [] {
      LoneIds(ids[..|ids| - 1]);
    }
  }

  lemma PrepareKeepsFree<U>(s: Sio<U>)
    ensures var (t, p) := Prepare(s); t.free == s.free && t.held == s.held && t.state == s.state && (p.rx.Some? ==> s.state == Ok)
  {
  }

  lemma ServeKeepsFree<U>(s: Sio<U>, p: Plan<U>, e: Env)
    requires Servable(s, p, e) && (p.rx.Some? ==> s.state == Ok)
    ensures var t := Serve(s, p, e); t.held == s.held && (t.state != Failed ==> t.free == s.free && s.state != Failed)
  {
    if p.rx.Some? {
      RxPhaseFrame(ServeWait(s, p, e), p.rx.value.min, p.read && SeenReadable(p, e), e.rx);
    }
    ServeTxShape(s, p, e);
    if p.tx.Some? {
      TxPhaseFrame(ServeRx(s, p, e).0, p.write && e.writable, e.tx);
    }
    var (s3, bad) := ServeTx(s, p, e);
    assert s3.free == s.free && s3.held == s.held;
    assert FailAll(s3, ERROR_IO).held == s3.held && FailAll(s3, ERROR_IO).state == Failed;
  }

  lemma WaitKeepsFree<U>(s: Sio<U>, e: Env)
    requires EnvOk(s, e)
    ensures var t := WaitStep(s, e); t.held == s.held && (t.state != Failed ==> t.free == s.free && s.state != Failed)
  {
    var (s1, p) := Prepare(s);
    PrepareKeepsFree(s);
    ExpireKeeps(if e.msgSig then Drain(s1) else s1, e.expired);
    if e.outcome == SocketReady {
      PickedStaysHead(s, e);
      ServeKeepsFree(Signals(s1, e), p, e);
    }
  }

  lemma WaitKeepsSupply(sio: Sio<VReq>, e: Env, ns: nat)
    requires EnvOk(sio, e) && SocketSupply(sio, ns)
    ensures SocketSupply(WaitStep(sio, e), ns)
  {
    WaitKeepsFree(sio, e);
    WaitKeepsPool(sio, e, Each<VReq>());
    WaitKeepsPool(sio, e, Lone());
  }

  /** A submission takes a free message and attaches something to it. */
  lemma SubmitKeepsSupply(sio: Sio<VReq>, m: Req<VReq>, t: Sio<VReq>, ns: nat)
    requires SocketSupply(sio, ns) && sio.free != [] && ReqTok(m).id == sio.free[0] && ReqTok(m).user.Some?
    requires t.free == sio.free[1..] && t.port == sio.port + [m] && t.recv == sio.recv && t.send == sio.send
    requires t.wait == sio.wait && t.out == sio.out && t.held == sio.held && t.state == sio.state
    ensures SocketSupply(t, ns)
  {
    SubmitMovesOne(sio, m, t, Each<VReq>());
    SubmitMovesOne(sio, m, t, Lone());
  }

  lemma ForwardKeepsSupply(s: Session, q: VReq, started: bool, ns: nat)
    requires SocketSupply(s.sio, ns) && CanSubmit(s.sio) && !q.op.VEnd?
    ensures SocketSupply(Forwarded(s, q, started), ns)
  {
    var t := Forwarded(s, q, started);
    SubmitKeepsSupply(s.sio, t.port[|s.sio.port|], t, ns);
  }

  lemma MessageKeepsSupply(s: Session, started: bool, ns: nat)
    requires s.vcon.toUser != [] && SocketSupply(s.sio, ns)
    ensures SocketSupply(HandleVcon(s, started).sio, ns)
  {
    var q, w := s.vcon.toUser[0], Wrote(s);
    MessageShape(s, started);
    DecisionShape(w, q, started);
    assert Pool(w.sio, Each<VReq>()) == Pool(s.sio, Each<VReq>()) && Pool(w.sio, Lone()) == Pool(s.sio, Lone());
    if DecideVcon(w, q, started).Forward? {
      ForwardKeepsSupply(w, q, started, ns);
    }
  }

  function Released(sio: Sio<VReq>, data: seq<byte>, push: bool): Sio<VReq>
    requires sio.out != []
  {
    FreeMsg(if push then PushBack(Take(sio), data) else Take(sio), sio.out[0].id)
  }

  lemma ReleasedWeighs(sio: Sio<VReq>, data: seq<byte>, push: bool, w: Tok<VReq> -> nat)
    requires sio.out != []
    ensures Pool(Released(sio, data, push), w) + w(OutTok(sio.out[0])) == Pool(sio, w) + w(Tok(sio.out[0].id, None))
  {
    TakeMovesOne(sio, w);
    PushBackWeighs(Take(sio), data, w);
    FreeKeepsPool(if push then PushBack(Take(sio), data) else Take(sio), sio.out[0].id, w);
  }

  lemma ReleasedShape(sio: Sio<VReq>, data: seq<byte>, push: bool)
    requires sio.out != [] && sio.held == []
    ensures var t := Released(sio, data, push);
            t.held == [] && |t.free| == |sio.free| + 1 && t.state == sio.state && t.port == sio.port
  {
    var id := sio.out[0].id;
    assert [] + [id] == [id];
    assert Without([id], id) == [];
  }

  /** A reply taken, looked at and freed: its message is free again, if something was attached to it. */
  lemma FreedKeepsSupply(sio: Sio<VReq>, data: seq<byte>, push: bool, ns: nat)
    requires sio.out != [] && SocketSupply(sio, ns) && (sio.state != Failed ==> sio.out[0].user.Some?)
    ensures SocketSupply(Released(sio, data, push), ns)
  {
    ReleasedShape(sio, data, push);
    ReleasedWeighs(sio, data, push, Each<VReq>());
    ReleasedWeighs(sio, data, push, Lone());
  }

  lemma OutIsAttached(sio: Sio<VReq>, ns: nat)
    requires SocketSupply(sio, ns) && sio.state != Failed && sio.out != []
    ensures sio.out[0].user.Some?
  {
    LoneIds(sio.free);
    SumMember(sio.out, 0, OutTok, Lone());
  }

  lemma DataKeepsSupply(s: Session, data: seq<byte>, q: VReq, ns: nat)
    requires s.sio.out != [] && SocketSupply(s.sio, ns) && s.sio.out[0].user.Some?
    ensures SocketSupply(HandleData(s.(sio := Take(s.sio)), s.sio.out[0].id, data, q).sio, ns)
  {
    var taken := s.(sio := Take(s.sio));
    FreedKeepsSupply(s.sio, Rest(taken, data), Rest(taken, data) != [], ns);
    DecidedKeepsSupply(TakeData(taken, s.sio.out[0].id, data).sio, Shown(taken, Looked(taken, data)), q, ns);
  }

  lemma DecidedKeepsSupply(sio: Sio<VReq>, shown: seq<byte>, q: VReq, ns: nat)
    requires SocketSupply(sio, ns)
    ensures var d := DecideData(sio, shown, q); d.Forward? ==> SocketSupply(d.sio, ns)
  {
    if CanSubmit(sio) {
      var t := SubmitRecv(sio, ReadBuf(q), ReadSize(q), 1, Some(Reread(q)));
      SubmitKeepsSupply(sio, t.port[|sio.port|], t, ns);
    }
  }

  lemma SockKeepsSupply(s: Session, ns: nat)
    requires s.sio.out != [] && SocketSupply(s.sio, ns)
    ensures SocketSupply(HandleSock(s).sio, ns)
  {
    var r := s.sio.out[0];
    SockCases(s);
    if s.sio.state != Failed {
      OutIsAttached(s.sio, ns);
    }
    if r.RecvDone? && r.data != [] && r.user.Some? {
      DataKeepsSupply(s, r.data, r.user.value, ns);
    } else {
      FreedKeepsSupply(s.sio, [], false, ns);
    }
  }

  lemma StepKeepsSupply(s: Session, ev: Event, ns: nat, nv: nat)
    requires Enabled(s, ev) && Supply(s, ns, nv)
    ensures Supply(Step(s, ev), ns, nv)
  {
    StepKeepsPlaces(s, ev, Each<nat>());
    match ev
    case SocketWait(e) => WaitKeepsSupply(s.sio, e, ns);
    case SocketReply => SockKeepsSupply(s, ns);
    case ConsoleMessage(started) => MessageKeepsSupply(s, started, ns);
    case _ =>
  }

  lemma {:induction false} RunKeepsSupply(states: seq<Session>, evs: seq<Event>, i: nat, ns: nat, nv: nat)
    requires IsRun(states, evs) && i < |states| && Supply(states[0], ns, nv)
    ensures Supply(states[i], ns, nv)
  {
    if i > 0 {
      RunKeepsSupply(states, evs, i - 1, ns, nv);
      StepKeepsSupply(states[i - 1], evs[i - 1], ns, nv);
    }
  }

  lemma StartHasSupply(sids: seq<nat>, vids: seq<nat>, pushMax: nat, split: bool, parse: bool, medium: bool, send: bool)
    ensures Supply(Start(sids, vids, pushMax, split, parse, medium, send), |sids|, |vids|)
  {
    EachOne<nat, VReq>(sids, IdleTok);
    LoneIds(sids);
    EachOne<nat, nat>(vids, IdleTok);
    IdleWeighsNothing(sids, Each<nat>());
  }
}
