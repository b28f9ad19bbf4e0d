/**
 Every message of the pool is always in exactly one place, and whoever is attached to it stays attached to it
 until the reply is taken: a wait step moves messages about but neither loses, copies nor relabels one.
 */
module SockioPool {
  import opened Common
  import opened SockioSpec

  /** A message and who waits for it; a message that is free or in the user's hands has nobody. */
  datatype Tok<U> = Tok(id: nat, user: Option<U>)

  function IdleTok<U>(id: nat): Tok<U> { Tok(id, None) }

  function ReqTok<U>(m: Req<U>): Tok<U> {
    match m
    case Rx(r) => RecvTok(r)
    case Tx(t) => SendTok(t)
    case Wt(w) => WaitTok(w)
  }

  function RecvTok<U>(r: RecvReq<U>): Tok<U> { Tok(r.id, r.user) }

  function SendTok<U>(m: SendReq<U>): Tok<U> { Tok(m.id, m.user) }

  function WaitTok<U>(w: WaitReq<U>): Tok<U> { Tok(w.id, w.user) }

  function OutTok<U>(r: Reply<U>): Tok<U> { Tok(r.id, r.user) }

  /** The total weight of the messages of a list. */
  ghost function Sum<T, U>(list: seq<T>, f: T -> Tok<U>, w: Tok<U> -> nat): nat {
    if list == [] then 0 else Sum(list[..|list| - 1], f, w) + w(f(list[|list| - 1]))
  }

  lemma SumSnoc<T, U>(list: seq<T>, x: T, f: T -> Tok<U>, w: Tok<U> -> nat)
    ensures Sum(list + [x], f, w) == Sum(list, f, w) + w(f(x))
  {
    assert (list + [x])[..|list|] == list;
  }

  lemma {:induction false} SumConcat<T, U>(a: seq<T>, b: seq<T>, f: T -> Tok<U>, w: Tok<U> -> nat)
    ensures Sum(a + b, f, w) == Sum(a, f, w) + Sum(b, f, w)
  {
    if b == [] {
      assert a + b == a;
    } else {
      var n := |b| - 1;
      SumConcat(a, b[..n], f, w);
      assert a + b == (a + b[..n]) + [b[n]];
      SumSnoc(a + b[..n], b[n], f, w);
    }
  }

  lemma SumHead<T, U>(list: seq<T>, f: T -> Tok<U>, w: Tok<U> -> nat)
    requires list != []
    ensures Sum(list, f, w) == w(f(list[0])) + Sum(list[1..], f, w)
  {
    assert list == [list[0]] + list[1..];
    SumConcat([list[0]], list[1..], f, w);
    assert [list[0]][..0] == [] && Sum([], f, w) == 0;
  }

  /** Taking one out of the middle. */
  lemma SumRemove<T, U>(list: seq<T>, k: nat, f: T -> Tok<U>, w: Tok<U> -> nat)
    requires k < |list|
    ensures Sum(list, f, w) == Sum(list[..k] + list[k + 1..], f, w) + w(f(list[k]))
  {
    assert list == list[..k] + list[k..] && list[k..][1..] == list[k + 1..];
    SumConcat(list[..k], list[k..], f, w);
    SumHead(list[k..], f, w);
    SumConcat(list[..k], list[k + 1..], f, w);
  }

  /**
   The weight of the whole pool. Weighing one id as 1 and all others as 0 counts the places of that message;
   weighing by waiter counts for how many messages somebody waits.
   */
  ghost function Pool<U>(s: Sio<U>, w: Tok<U> -> nat): nat {
    Sum(s.free, IdleTok, w) + Sum(s.port, ReqTok, w) + Sum(s.recv, RecvTok, w) + Sum(s.send, SendTok, w)
    + Sum(s.wait, WaitTok, w) + Sum(s.out, OutTok, w) + Sum(s.held, IdleTok, w)
  }

  // ----- moving one message -----

  lemma CompleteRecvKeepsPool<U>(s: Sio<U>, w: Tok<U> -> nat)
    requires s.recv != []
    ensures Pool(CompleteRecv(s), w) == Pool(s, w) && Pool(DropHead(s), w) == Pool(s, w)
  {
    SumHead(s.recv, RecvTok, w);
    SumSnoc(s.out, RecvDone(s.recv[0].id, s.partial, s.recv[0].user), OutTok, w);
    SumSnoc(s.out, RecvDone(s.recv[0].id, [], s.recv[0].user), OutTok, w);
  }

  lemma CompleteSendKeepsPool<U>(s: Sio<U>, w: Tok<U> -> nat)
    requires s.send != []
    ensures Pool(CompleteSend(s), w) == Pool(s, w)
  {
    SumHead(s.send, SendTok, w);
    SumSnoc(s.out, SendDone(s.send[0].id, s.send[0].user), OutTok, w);
  }

  lemma AnswerWaitKeepsPool<U>(s: Sio<U>, w: Tok<U> -> nat)
    requires s.wait != []
    ensures Pool(AnswerWait(s), w) == Pool(s, w)
  {
    SumHead(s.wait, WaitTok, w);
    SumSnoc(s.out, WaitDone(s.wait[0].id, true, s.wait[0].user), OutTok, w);
  }

  lemma ExpireOneKeepsPool<U>(s: Sio<U>, jid: nat, w: Tok<U> -> nat)
    ensures Pool(ExpireOne(s, jid), w) == Pool(s, w)
  {
    var k := WaiterOf(s.wait, jid);
    if k < |s.wait| {
      SumRemove(s.wait, k, WaitTok, w);
      SumSnoc(s.out, WaitDone(s.wait[k].id, false, s.wait[k].user), OutTok, w);
    }
  }

  lemma {:induction false} ExpireKeepsPool<U>(s: Sio<U>, jids: seq<nat>, w: Tok<U> -> nat)
    ensures Pool(Expire(s, jids), w) == Pool(s, w)
  {
    if jids != [] {
      ExpireKeepsPool(s, jids[..|jids| - 1], w);
      ExpireOneKeepsPool(Expire(s, jids[..|jids| - 1]), jids[|jids| - 1], w);
    }
  }

  /** Answering requests one by one keeps their tokens. */
  lemma {:induction false} AnsweredWeigh<T, U>(list: seq<T>, f: T -> Tok<U>, replies: seq<Reply<U>>, w: Tok<U> -> nat)
    requires |replies| == |list| && forall i :: 0 <= i < |list| ==> OutTok(replies[i]) == f(list[i])
    ensures Sum(replies, OutTok, w) == Sum(list, f, w)
  {
    if list != [] {
      AnsweredWeigh(list[..|list| - 1], f, replies[..|list| - 1], w);
    }
  }

  lemma FlushSendKeepsPool<U>(s: Sio<U>, w: Tok<U> -> nat)
    ensures Pool(FlushSend(s), w) == Pool(s, w)
  {
    AnsweredWeigh(s.send, SendTok, SendReplies(s.send), w);
    SumConcat(s.out, SendReplies(s.send), OutTok, w);
  }

  lemma FlushRecvKeepsPool<U>(s: Sio<U>, w: Tok<U> -> nat)
    ensures Pool(FlushRecv(s), w) == Pool(s, w)
  {
    AnsweredWeigh(s.recv, RecvTok, EofReplies(s.recv), w);
    AnsweredWeigh(s.wait, WaitTok, TimeoutReplies(s.wait), w);
    SumConcat(s.out, EofReplies(s.recv), OutTok, w);
    SumConcat(s.out + EofReplies(s.recv), TimeoutReplies(s.wait), OutTok, w);
  }

  lemma FailKeepsPool<U>(s: Sio<U>, code: nat, w: Tok<U> -> nat)
    ensures Pool(FailAll(s, code), w) == Pool(s, w)
  {
    FlushSendKeepsPool(s, w);
    FlushRecvKeepsPool(FlushSend(s), w);
    NoteKeepsPool(FlushRecv(FlushSend(s)).(state := Failed, partial := [], tx := 0), code, w);
  }

  lemma NoteKeepsPool<U>(s: Sio<U>, code: nat, w: Tok<U> -> nat)
    ensures s.free != [] ==>
              Pool(s.(free := s.free[1..], out := s.out + [ErrorNote(s.free[0], code, None)]), w) == Pool(s, w)
  {
    if s.free != [] {
      SumHead(s.free, IdleTok, w);
      SumSnoc(s.out, ErrorNote(s.free[0], code, None), OutTok, w);
    }
  }

  lemma {:induction false} PortSplits<U>(port: seq<Req<U>>, w: Tok<U> -> nat)
    ensures Sum(port, ReqTok, w) ==
              Sum(RecvsOf(port), RecvTok, w) + Sum(SendsOf(port), SendTok, w) + Sum(WaitsOf(port), WaitTok, w)
  {
    if port != [] {
      var n := |port| - 1;
      PortSplits(port[..n], w);
      assert RecvsOf(port[..n]) + [] == RecvsOf(port[..n]);
      assert SendsOf(port[..n]) + [] == SendsOf(port[..n]);
      assert WaitsOf(port[..n]) + [] == WaitsOf(port[..n]);
      match port[n]
      case Rx(r) => SumSnoc(RecvsOf(port[..n]), r, RecvTok, w);
      case Tx(m) => SumSnoc(SendsOf(port[..n]), m, SendTok, w);
      case Wt(m) => SumSnoc(WaitsOf(port[..n]), m, WaitTok, w);
    }
  }

  lemma DrainKeepsPool<U>(s: Sio<U>, w: Tok<U> -> nat)
    ensures Pool(Drain(s), w) == Pool(s, w)
  {
    PortSplits(s.port, w);
    SumConcat(s.recv, RecvsOf(s.port), RecvTok, w);
    SumConcat(s.send, SendsOf(s.port), SendTok, w);
    SumConcat(s.wait, WaitsOf(s.port), WaitTok, w);
  }

  lemma SignalsKeepPool<U>(s: Sio<U>, e: Env, w: Tok<U> -> nat)
    ensures Pool(Signals(s, e), w) == Pool(s, w)
  {
    var s1 := if e.msgSig then Drain(s) else s;
    DrainKeepsPool(s, w);
    ExpireKeepsPool(s1, e.expired, w);
  }

  lemma PushBackKeepsPool<U>(s: Sio<U>, w: Tok<U> -> nat)
    ensures Pool(ServePushBack(s).0, w) == Pool(s, w)
  {
    if s.recv != [] && s.push != [] {
      var room := s.recv[0].cap - |s.partial|;
      var n := if room <= 0 then 0 else if |s.push| > room then room else |s.push|;
      var s1 := s.(partial := s.partial + s.push[..n], push := s.push[n..]);
      assert Pool(s1, w) == Pool(s, w);
      CompleteRecvKeepsPool(s1, w);
    }
  }

  lemma PrepareKeepsPool<U>(s: Sio<U>, w: Tok<U> -> nat)
    ensures Pool(Prepare(s).0, w) == Pool(s, w)
  {
    FlushRecvKeepsPool(s, w);
    FlushSendKeepsPool(s, w);
    FlushRecvKeepsPool(FlushSend(s), w);
    PushBackKeepsPool(FlushForState(s), w);
  }

  lemma ServeKeepsPool<U>(s: Sio<U>, p: Plan<U>, e: Env, w: Tok<U> -> nat)
    requires Servable(s, p, e)
    ensures Pool(Serve(s, p, e), w) == Pool(s, w)
  {
    ServeTxKeepsPool(s, p, e, w);
    FailKeepsPool(ServeTx(s, p, e).0, ERROR_IO, w);
  }

  lemma ServeTxShape<U>(s: Sio<U>, p: Plan<U>, e: Env)
    requires Servable(s, p, e)
    ensures var s2 := ServeRx(s, p, e).0;
            && (p.tx.Some? ==> s2.send != [] && s2.send[0] == p.tx.value && s2.tx == s.tx)
            && ServeTx(s, p, e).0 == if p.tx.Some? then TxPhase(s2, p.write && e.writable, e.tx).0 else s2
  {
  }

  lemma ServeTxKeepsPool<U>(s: Sio<U>, p: Plan<U>, e: Env, w: Tok<U> -> nat)
    requires Servable(s, p, e)
    ensures Pool(ServeTx(s, p, e).0, w) == Pool(s, w)
  {
    var s2, s3 := ServeRx(s, p, e).0, ServeTx(s, p, e).0;
    ServeTxShape(s, p, e);
    ServeRxKeepsPool(s, p, e, w);
    if p.tx.Some? {
      TxKeepsPool(s2, p.write && e.writable, e.tx, w);
    }
    assert Pool(s3, w) == Pool(s2, w);
  }

  lemma ServeRxKeepsPool<U>(s: Sio<U>, p: Plan<U>, e: Env, w: Tok<U> -> nat)
    requires Servable(s, p, e)
    ensures Pool(ServeRx(s, p, e).0, w) == Pool(s, w)
  {
    if p.wait.Some? && SeenReadable(p, e) {
      AnswerWaitKeepsPool(s, w);
    }
    if p.rx.Some? {
      RxKeepsPool(ServeWait(s, p, e), p.rx.value.min, p.read && SeenReadable(p, e), e.rx, w);
    }
  }

  lemma RxKeepsPool<U>(s: Sio<U>, min: nat, read: bool, res: RecvResult, w: Tok<U> -> nat)
    requires s.recv != []
    ensures Pool(RxPhase(s, min, read, res).0, w) == Pool(s, w)
  {
    CompleteRecvKeepsPool(s, w);
    var s1 := if read && res.Data?
      then s.(partial := s.partial + res.chunk, hist := s.hist.(received := s.hist.received + res.chunk))
      else s;
    assert Pool(s1, w) == Pool(s, w);
    CompleteRecvKeepsPool(s1, w);
  }

  lemma TxKeepsPool<U>(s: Sio<U>, write: bool, res: SendResult, w: Tok<U> -> nat)
    requires s.send != [] && (write && res.Sent? ==> s.tx + res.n <= |Payload(s, s.send[0])|)
    ensures Pool(TxPhase(s, write, res).0, w) == Pool(s, w)
  {
    var s1 := if write && res.Sent?
      then s.(tx := s.tx + res.n, hist := s.hist.(sent := s.hist.sent + Payload(s, s.send[0])[s.tx..s.tx + res.n]))
      else s;
    assert Pool(s1, w) == Pool(s, w);
    CompleteSendKeepsPool(s1, w);
  }

  /** Message conservation: a wait step permutes the pool. */
  lemma WaitKeepsPool<U>(s: Sio<U>, e: Env, w: Tok<U> -> nat)
    requires EnvOk(s, e)
    ensures Pool(WaitStep(s, e), w) == Pool(s, w)
  {
    var (s1, p) := Prepare(s);
    PrepareKeepsPool(s, w);
    FailKeepsPool(s1, ERROR_WAIT, w);
    SignalsKeepPool(s1, e, w);
    if e.outcome == SocketReady {
      PickedStaysHead(s, e);
      ServeKeepsPool(Signals(s1, e), p, e, w);
    }
  }

  // ----- the user's calls -----

  /** Submitting turns one idle message into one that its submitter waits for. */
  lemma SubmitMovesOne<U>(s: Sio<U>, m: Req<U>, t: Sio<U>, w: Tok<U> -> nat)
    requires s.free != [] && ReqTok(m).id == s.free[0]
    requires t.free == s.free[1..] && t.port == s.port + [m] && t.recv == s.recv && t.send == s.send
    requires t.wait == s.wait && t.out == s.out && t.held == s.held
    ensures Pool(t, w) + w(Tok(s.free[0], None)) == Pool(s, w) + w(ReqTok(m))
  {
    SumHead(s.free, IdleTok, w);
    SumSnoc(s.port, m, ReqTok, w);
  }

  /** Taking a reply detaches its waiter. */
  lemma TakeMovesOne<U>(s: Sio<U>, w: Tok<U> -> nat)
    requires s.out != []
    ensures Pool(Take(s), w) + w(OutTok(s.out[0])) == Pool(s, w) + w(Tok(s.out[0].id, None))
  {
    SumHead(s.out, OutTok, w);
    SumSnoc(s.held, s.out[0].id, IdleTok, w);
  }

  lemma {:induction false} IdleWithout<U>(ids: seq<nat>, id: nat, w: Tok<U> -> nat)
    requires id in ids
    ensures Sum(ids, IdleTok, w) == Sum(Without(ids, id), IdleTok, w) + w(Tok(id, None))
  {
    SumHead(ids, IdleTok, w);
    if ids[0] != id {
      IdleWithout(ids[1..], id, w);
      SumHead(Without(ids, id), IdleTok, w);
    }
  }

  lemma FreeKeepsPool<U>(s: Sio<U>, id: nat, w: Tok<U> -> nat)
    requires id in s.held
    ensures Pool(FreeMsg(s, id), w) == Pool(s, w)
  {
    IdleWithout(s.held, id, w);
    SumSnoc(s.free, id, IdleTok, w);
  }

  lemma ReplaceKeepsPool<U>(s: Sio<U>, k: nat, buf: nat, cap: nat, min: nat, w: Tok<U> -> nat)
    requires k < |s.recv|
    ensures Pool(ReplaceRecv(s, k, buf, cap, min).0, w) == Pool(s, w)
  {
    var r := s.recv[k].(buf := buf, cap := cap, min := min);
    var s1 := s.(recv := s.recv[k := r]);
    assert s1.recv[..k] + s1.recv[k + 1..] == s.recv[..k] + s.recv[k + 1..];
    SumRemove(s.recv, k, RecvTok, w);
    SumRemove(s1.recv, k, RecvTok, w);
    if k == 0 {
      var fits := if |s.partial| > cap then cap else |s.partial|;
      var s2 := s1.(partial := s.partial[..fits], push := if |s.partial| > cap then s.partial[fits..] else s.push);
      assert Pool(s2, w) == Pool(s1, w);
      CompleteRecvKeepsPool(s2, w);
    }
  }

  // ----- one place for each message -----

  function IdIs<U>(id: nat): Tok<U> -> nat { (t: Tok<U>) => if t.id == id then 1 else 0 }

  /** The pool as allocated: each of these messages is in exactly one place, and no others exist. */
  ghost predicate Partitioned<U>(s: Sio<U>, ids: set<nat>) {
    forall id: nat :: Pool(s, IdIs(id)) == if id in ids then 1 else 0
  }

  lemma InitialPartitioned<U>(ids: seq<nat>, pushMax: nat)
    requires forall i, j :: 0 <= i < j < |ids| ==> ids[i] != ids[j]
    ensures Partitioned(Initial<U>(ids, pushMax), set id | id in ids)
  {
    forall id: nat ensures Pool(Initial<U>(ids, pushMax), IdIs(id)) == if id in ids then 1 else 0 {
      IdleCounts<U>(ids, id);
    }
  }

  lemma {:induction false} IdleCounts<U>(ids: seq<nat>, id: nat)
    requires forall i, j :: 0 <= i < j < |ids| ==> ids[i] != ids[j]
    ensures Sum(ids, IdleTok, IdIs<U>(id)) == if id in ids then 1 else 0
  {
    if ids != [] {
      var n := |ids| - 1;
      IdleCounts<U>(ids[..n], id);
      assert ids == ids[..n] + [ids[n]];
    }
  }

  lemma {:induction false} SumMember<T, U>(list: seq<T>, k: nat, f: T -> Tok<U>, w: Tok<U> -> nat)
    requires k < |list|
    ensures Sum(list, f, w) >= w(f(list[k]))
  {
    if k < |list| - 1 {
      SumMember(list[..|list| - 1], k, f, w);
    }
  }

  /** No list holds a message twice. */
  lemma SumOnce<T, U>(list: seq<T>, i: nat, j: nat, f: T -> Tok<U>)
    requires i < j < |list| && f(list[i]).id == f(list[j]).id
    ensures Sum(list, f, IdIs(f(list[i]).id)) >= 2
  {
    var w := IdIs<U>(f(list[i]).id);
    SumRemove(list, i, f, w);
    var others := list[..i] + list[i + 1..];
    assert others[j - 1] == list[j];
    SumMember(others, j - 1, f, w);
  }

  /** For instance a message on the receive list is there once, and neither free nor on another list. */
  lemma ReceivingIsExclusive<U>(s: Sio<U>, ids: set<nat>, i: nat)
    requires Partitioned(s, ids) && i < |s.recv|
    ensures var id := s.recv[i].id;
            && id in ids
            && (forall j :: 0 <= j < |s.recv| && j != i ==> s.recv[j].id != id)
            && (forall j :: 0 <= j < |s.free| ==> s.free[j] != id)
            && (forall j :: 0 <= j < |s.out| ==> s.out[j].id != id)
  {
    var id := s.recv[i].id;
    var w := IdIs<U>(id);
    assert Pool(s, w) <= 1;
    SumMember(s.recv, i, RecvTok, w);
    forall j | 0 <= j < |s.recv| && j != i ensures s.recv[j].id != id {
      if s.recv[j].id == id {
        SumOnce(s.recv, if i < j then i else j, if i < j then j else i, RecvTok);
        assert false;
      }
    }
    forall j | 0 <= j < |s.free| ensures s.free[j] != id {
      SumMember(s.free, j, IdleTok, w);
    }
    forall j | 0 <= j < |s.out| ensures s.out[j].id != id {
      SumMember(s.out, j, OutTok, w);
    }
  }

  /** A wait step keeps the partition. */
  lemma WaitKeepsPartition<U>(s: Sio<U>, e: Env, ids: set<nat>)
    requires EnvOk(s, e) && Partitioned(s, ids)
    ensures Partitioned(WaitStep(s, e), ids)
  {
    forall id: nat ensures Pool(WaitStep(s, e), IdIs(id)) == if id in ids then 1 else 0 {
      WaitKeepsPool(s, e, IdIs(id));
    }
  }
}
