/** What the replies of the socket service say: no empty read while all is well, and a bounded end once it is not. */
module SockioReplies {
  import opened Common
  import opened SockioSpec
  import opened SockioStreams

  // ----- end of file is only reported at the end -----

  /** While the socket is fine, every answered read carries data. */
  predicate ReadsCarryData<U>(s: Sio<U>) {
    s.state == Ok ==> forall i :: 0 <= i < |s.out| && s.out[i].RecvDone? ==> s.out[i].data != []
  }

  lemma {:induction false} ExpireRepliesNoRead<U>(s: Sio<U>, jids: seq<nat>)
    ensures var t := Expire(s, jids);
            && |s.out| <= |t.out| && t.out[..|s.out|] == s.out
            && forall i :: |s.out| <= i < |t.out| ==> t.out[i].WaitDone?
  {
    if jids != [] {
      ExpireRepliesNoRead(s, jids[..|jids| - 1]);
    }
  }

  lemma WaitKeepsReadsCarryData<U>(s: Sio<U>, e: Env)
    requires EnvOk(s, e) && RecvsOk(s) && ReadsCarryData(s)
    ensures ReadsCarryData(WaitStep(s, e))
  {
    var (s1, p) := Prepare(s);
    PrepareKeepsReadsCarryData(s);
    if e.outcome != SelectFailed {
      SignalsKeepReadsCarryData(s1, e);
      if e.outcome == SocketReady {
        PickedStaysHead(s, e);
        SignalsKeepRecvsOk(s1, e);
        ServeKeepsReadsCarryData(Signals(s1, e), p, e);
      }
    }
  }

  lemma PrepareKeepsReadsCarryData<U>(s: Sio<U>)
    requires RecvsOk(s) && ReadsCarryData(s)
    ensures var t := Prepare(s).0; RecvsOk(t) && ReadsCarryData(t)
  {
    PrepareOnlyDrops(s);
  }

  lemma SignalsKeepRecvsOk<U>(s: Sio<U>, e: Env)
    requires RecvsOk(s)
    ensures RecvsOk(Signals(s, e))
  {
    RecvsOfOk(s.port);
    ExpireKeeps(if e.msgSig then Drain(s) else s, e.expired);
  }

  lemma SignalsKeepReadsCarryData<U>(s: Sio<U>, e: Env)
    requires ReadsCarryData(s)
    ensures ReadsCarryData(Signals(s, e))
  {
    var s1 := if e.msgSig then Drain(s) else s;
    if e.timerSig {
      ExpireKeeps(s1, e.expired);
      ExpireRepliesNoRead(s1, e.expired);
      var t := Expire(s1, e.expired);
      forall i | 0 <= i < |t.out| && t.out[i].RecvDone? && t.state == Ok ensures t.out[i].data != [] {
        assert t.out[i] == t.out[..|s1.out|][i];
      }
    }
  }

  lemma ServeKeepsReadsCarryData<U>(s: Sio<U>, p: Plan<U>, e: Env)
    requires ReadsCarryData(s) && Servable(s, p, e) && RecvsOk(s)
    ensures ReadsCarryData(Serve(s, p, e))
  {
    var s1 := ServeWait(s, p, e);
    assert ReadsCarryData(s1) && RecvsOk(s1);
    var s2 := ServeRx(s, p, e).0;
    if p.rx.Some? {
      RxKeepsReadsCarryData(s1, p.read && SeenReadable(p, e), e.rx);
    }
    assert ReadsCarryData(s2);
    if p.tx.Some? {
      TxKeepsReadsCarryData(s2, p.write && e.writable, e.tx);
    }
  }

  lemma RxKeepsReadsCarryData<U>(s: Sio<U>, read: bool, res: RecvResult)
    requires ReadsCarryData(s) && s.recv != [] && RecvOk(s.recv[0])
    ensures ReadsCarryData(RxPhase(s, s.recv[0].min, read, res).0)
  {
  }

  lemma TxKeepsReadsCarryData<U>(s: Sio<U>, write: bool, res: SendResult)
    requires ReadsCarryData(s) && s.send != [] && (write && res.Sent? ==> s.tx + res.n <= |Payload(s, s.send[0])|)
    ensures ReadsCarryData(TxPhase(s, write, res).0)
  {
  }

  // ----- only receives are answered as receives -----

  /** What is attached to the receives, pending and answered, is of this kind. */
  ghost predicate AllReaders<U>(s: Sio<U>, Q: Option<U> -> bool) {
    && (forall i :: 0 <= i < |s.recv| ==> Q(s.recv[i].user))
    && (forall i :: 0 <= i < |s.out| && s.out[i].RecvDone? ==> Q(s.out[i].user))
  }

  lemma PrepareKeepsAllReaders<U>(s: Sio<U>, Q: Option<U> -> bool)
    requires AllReaders(s, Q)
    ensures AllReaders(Prepare(s).0, Q)
  {
    var s0 := FlushForState(s);
    assert AllReaders(s0, Q);
  }

  lemma SignalsKeepAllReaders<U>(s: Sio<U>, e: Env, Q: Option<U> -> bool)
    requires AllReaders(s, Q) && (forall i :: 0 <= i < |s.port| && s.port[i].Rx? ==> Q(s.port[i].recv.user))
    ensures AllReaders(Signals(s, e), Q)
  {
    var P := (r: RecvReq<U>) => Q(r.user);
    var d := if e.msgSig then Drain(s) else s;
    RecvsOfAll(s.port, P);
    assert forall i :: 0 <= i < |RecvsOf(s.port)| ==> P(RecvsOf(s.port)[i]);
    ExpireKeeps(d, e.expired);
    ExpireRepliesNoRead(d, e.expired);
    var t := Signals(s, e);
    forall i | 0 <= i < |t.out| && t.out[i].RecvDone? ensures Q(t.out[i].user) {
      if i < |d.out| {
        assert e.timerSig ==> t.out[i] == t.out[..|d.out|][i];
      }
    }
  }

  lemma ServeKeepsAllReaders<U>(s: Sio<U>, p: Plan<U>, e: Env, Q: Option<U> -> bool)
    requires Servable(s, p, e) && AllReaders(s, Q)
    ensures AllReaders(Serve(s, p, e), Q)
  {
    RxKeepsAllReaders(s, p, e, Q);
    var s2, s3 := ServeRx(s, p, e).0, ServeTx(s, p, e).0;
    if p.tx.Some? {
      TxKeepsAllReaders(s2, p.write && e.writable, e.tx, Q);
    }
    assert AllReaders(s3, Q);
    FailKeepsAllReaders(s3, ERROR_IO, Q);
  }

  lemma RxKeepsAllReaders<U>(s: Sio<U>, p: Plan<U>, e: Env, Q: Option<U> -> bool)
    requires Servable(s, p, e) && AllReaders(s, Q)
    ensures AllReaders(ServeRx(s, p, e).0, Q)
  {
    var s1 := ServeWait(s, p, e);
    assert AllReaders(s1, Q);
  }

  lemma TxKeepsAllReaders<U>(s: Sio<U>, write: bool, res: SendResult, Q: Option<U> -> bool)
    requires s.send != [] && (write && res.Sent? ==> s.tx + res.n <= |Payload(s, s.send[0])|) && AllReaders(s, Q)
    ensures AllReaders(TxPhase(s, write, res).0, Q)
  {
    TxPhaseFrame(s, write, res);
  }

  lemma FailKeepsAllReaders<U>(s: Sio<U>, code: nat, Q: Option<U> -> bool)
    requires AllReaders(s, Q)
    ensures AllReaders(FailAll(s, code), Q)
  {
    var f := FlushRecv(FlushSend(s));
    assert AllReaders(f, Q);
  }

  lemma WaitKeepsAllReaders<U>(s: Sio<U>, e: Env, Q: Option<U> -> bool)
    requires EnvOk(s, e) && AllReaders(s, Q) && (forall i :: 0 <= i < |s.port| && s.port[i].Rx? ==> Q(s.port[i].recv.user))
    ensures AllReaders(WaitStep(s, e), Q)
  {
    var (s1, p) := Prepare(s);
    PrepareKeepsAllReaders(s, Q);
    PrepareOnlyDrops(s);
    if e.outcome == SelectFailed {
      FailKeepsAllReaders(s1, ERROR_WAIT, Q);
    } else {
      SignalsKeepAllReaders(s1, e, Q);
      if e.outcome == SocketReady {
        PickedStaysHead(s, e);
        ServeKeepsAllReaders(Signals(s1, e), p, e, Q);
      }
    }
  }

  // ----- how the state changes -----

  /** Whatever is wrong stays wrong. */
  lemma OkWasOk<U>(s: Sio<U>, e: Env)
    requires EnvOk(s, e) && WaitStep(s, e).state == Ok
    ensures s.state == Ok
  {
    if s.state == Eof {
      EofStep(s, e);
    } else if s.state == Failed {
      FailedStays(s, e);
    }
  }

  /** The end of the file is what a ready socket says to the first receive. */
  lemma EofComes<U>(s: Sio<U>, e: Env)
    requires EnvOk(s, e) && s.state == Ok && WaitStep(s, e).state == Eof
    ensures s.recv != [] && e.outcome == SocketReady && e.readable && e.rx.Closed?
  {
    var (s1, p) := Prepare(s);
    ExpireKeeps(if e.msgSig then Drain(s1) else s1, e.expired);
    if e.outcome == SocketReady {
      PickedStaysHead(s, e);
      EofServed(Signals(s1, e), p, e);
    }
  }

  lemma EofServed<U>(s: Sio<U>, p: Plan<U>, e: Env)
    requires Servable(s, p, e) && s.state == Ok && Serve(s, p, e).state == Eof
    ensures p.rx.Some? && e.readable && e.rx.Closed?
  {
    SendingEndsNothing(s, p, e);
  }

  lemma SendingEndsNothing<U>(s: Sio<U>, p: Plan<U>, e: Env)
    requires Servable(s, p, e)
    ensures Serve(s, p, e).state == Eof ==> ServeRx(s, p, e).0.state == Eof
  {
    if p.tx.Some? {
      TxPhaseFrame(ServeRx(s, p, e).0, p.write && e.writable, e.tx);
    }
  }

  // ----- what a wait answers -----

  /** Replies are only added, and if one of the added ones carries data it is this one. */
  ghost predicate Grew<U>(before: seq<Reply<U>>, after: seq<Reply<U>>, r: Reply<U>) {
    && |before| <= |after| && after[..|before|] == before
    && forall i :: |before| <= i < |after| && after[i].RecvDone? && after[i].data != [] ==> after[i] == r
  }

  lemma GrewTwice<U>(a: seq<Reply<U>>, b: seq<Reply<U>>, c: seq<Reply<U>>, r: Reply<U>)
    requires Grew(a, b, r) && Grew(b, c, r)
    ensures Grew(a, c, r)
  {
    forall i | |a| <= i < |c| && c[i].RecvDone? && c[i].data != [] ensures c[i] == r {
      if i < |b| {
        assert c[..|b|][i] == b[i];
      }
    }
    assert c[..|a|] == c[..|b|][..|a|];
  }

  lemma GrewBy<U>(a: seq<Reply<U>>, more: seq<Reply<U>>, r: Reply<U>)
    requires forall i :: 0 <= i < |more| && more[i].RecvDone? && more[i].data != [] ==> more[i] == r
    ensures Grew(a, a + more, r)
  {
  }

  lemma FlushAnswers<U>(s: Sio<U>, r: Reply<U>)
    ensures Grew(s.out, FlushRecv(s).out, r) && Grew(s.out, FlushSend(s).out, r)
  {
    GrewBy(s.out, EofReplies(s.recv) + TimeoutReplies(s.wait), r);
    assert FlushRecv(s).out == s.out + (EofReplies(s.recv) + TimeoutReplies(s.wait));
    GrewBy(s.out, SendReplies(s.send), r);
  }

  lemma FailAnswers<U>(s: Sio<U>, code: nat, r: Reply<U>)
    ensures Grew(s.out, FailAll(s, code).out, r)
  {
    var f := FlushRecv(FlushSend(s));
    FlushAnswers(s, r);
    FlushAnswers(FlushSend(s), r);
    GrewTwice(s.out, FlushSend(s).out, f.out, r);
    if f.free != [] {
      GrewBy(f.out, [ErrorNote(f.free[0], code, None)], r);
      GrewTwice(s.out, f.out, FailAll(s, code).out, r);
    }
  }

  /** The answer the first receive gets, if it gets one with data; none does once the socket is not fine. */
  function HeadReply<U>(s: Sio<U>, data: seq<byte>): Reply<U> {
    if s.recv == [] || s.state != Ok then WaitDone(0, false, None) else RecvDone(s.recv[0].id, data, s.recv[0].user)
  }

  lemma PushBackAnswers<U>(s: Sio<U>)
    requires s.state == Ok
    ensures Grew(s.out, ServePushBack(s).0.out, HeadReply(s, Filled(s)))
  {
  }

  /** Before the wait only pushed-back bytes are answered with, and then the first receive is not picked. */
  lemma PrepareAnswers<U>(s: Sio<U>)
    requires Ledger(s)
    ensures var (s1, p) := Prepare(s);
            && Grew(s.out, s1.out, HeadReply(s, Filled(s)))
            && (p.rx.Some? ==> s1.recv == s.recv && s1.partial == Filled(s) && s1.out == s.out && s1.state == Ok)
  {
    if s.state == Ok {
      PushBackAnswers(s);
    } else {
      var r := HeadReply(s, Filled(s));
      FlushAnswers(s, r);
      FlushAnswers(FlushSend(s), r);
      GrewTwice(s.out, FlushSend(s).out, FlushRecv(FlushSend(s)).out, r);
    }
  }

  lemma SignalsAnswer<U>(s: Sio<U>, e: Env, r: Reply<U>)
    ensures Grew(s.out, Signals(s, e).out, r) && Signals(s, e).partial == s.partial
  {
    var d := if e.msgSig then Drain(s) else s;
    ExpireRepliesNoRead(d, e.expired);
    ExpireKeeps(d, e.expired);
  }

  lemma RxAnswers<U>(s: Sio<U>, p: Plan<U>, e: Env, r: Reply<U>)
    requires Servable(s, p, e)
    requires p.rx.Some? ==> s.state == Ok && r == HeadReply(s, Got(s.partial, p.read && SeenReadable(p, e), e.rx))
    ensures Grew(s.out, ServeRx(s, p, e).0.out, r)
  {
  }

  lemma TxAnswers<U>(s: Sio<U>, p: Plan<U>, e: Env, r: Reply<U>)
    requires Servable(s, p, e)
    ensures Grew(ServeRx(s, p, e).0.out, Serve(s, p, e).out, r)
  {
    var (s3, bad) := ServeTx(s, p, e);
    FailAnswers(s3, ERROR_IO, r);
    GrewTwice(ServeRx(s, p, e).0.out, s3.out, Serve(s, p, e).out, r);
  }

  lemma ServeAnswers<U>(s: Sio<U>, p: Plan<U>, e: Env, r: Reply<U>)
    requires Servable(s, p, e)
    requires p.rx.Some? ==> s.state == Ok && r == HeadReply(s, Got(s.partial, p.read && SeenReadable(p, e), e.rx))
    ensures Grew(s.out, Serve(s, p, e).out, r)
  {
    RxAnswers(s, p, e, r);
    TxAnswers(s, p, e, r);
    GrewTwice(s.out, ServeRx(s, p, e).0.out, Serve(s, p, e).out, r);
  }

  /** In one wait at most the first receive is answered with data, namely with what its buffer holds by then. */
  lemma WaitAnswers<U>(s: Sio<U>, e: Env)
    requires EnvOk(s, e) && Ledger(s)
    ensures Grew(s.out, WaitStep(s, e).out, HeadReply(s, HeadBytes(s, e)))
  {
    var (s1, p) := Prepare(s);
    var r := HeadReply(s, HeadBytes(s, e));
    PrepareAnswers(s);
    if p.rx.None? || e.outcome != SocketReady {
      assert HeadBytes(s, e) == Filled(s);
    }
    assert Grew(s.out, s1.out, r);
    if e.outcome == SelectFailed {
      FailAnswers(s1, ERROR_WAIT, r);
      GrewTwice(s.out, s1.out, WaitStep(s, e).out, r);
    } else {
      var s2 := Signals(s1, e);
      SignalsAnswer(s1, e, r);
      GrewTwice(s.out, s1.out, s2.out, r);
      if e.outcome == SocketReady {
        PickedStaysHead(s, e);
        assert s2.state == s1.state;
        ServeAnswers(s2, p, e, r);
        GrewTwice(s.out, s2.out, WaitStep(s, e).out, r);
      }
    }
  }

  // ----- bounded drain -----

  predicate NothingQueued<U>(s: Sio<U>) { s.port == [] && s.recv == [] && s.send == [] && s.wait == [] }

  lemma PortIsDrained<U>(s: Sio<U>, e: Env)
    requires EnvOk(s, e) && e.outcome != SelectFailed
    ensures WaitStep(s, e).port == []
  {
    var (s1, p) := Prepare(s);
    var s2 := if e.msgSig then Drain(s1) else s1;
    if e.timerSig {
      ExpireKeeps(s2, e.expired);
    }
    if e.outcome == SocketReady {
      PickedStaysHead(s, e);
      ServeKeepsPort(Signals(s1, e), p, e);
    }
  }

  lemma ServeKeepsPort<U>(s: Sio<U>, p: Plan<U>, e: Env)
    requires Servable(s, p, e)
    ensures Serve(s, p, e).port == s.port
  {
    if p.rx.Some? {
      RxPhaseFrame(ServeWait(s, p, e), p.rx.value.min, p.read && SeenReadable(p, e), e.rx);
    }
    if p.tx.Some? {
      TxPhaseFrame(ServeRx(s, p, e).0, p.write && e.writable, e.tx);
    }
  }

  /** Once failed, always failed. */
  lemma FailedStays<U>(s: Sio<U>, e: Env)
    requires EnvOk(s, e) && s.state == Failed
    ensures WaitStep(s, e).state == Failed && !CanSubmit(WaitStep(s, e))
    ensures s.port == [] ==> NothingQueued(WaitStep(s, e))
  {
    var (s1, p) := Prepare(s);
    assert s1.recv == [] && s1.send == [] && s1.wait == [] && s1.state == Failed;
    if e.outcome != SelectFailed {
      var s2 := if e.msgSig then Drain(s1) else s1;
      if s.port == [] {
        assert s2.recv == [] && s2.send == [] && s2.wait == [];
      }
      if e.timerSig {
        ExpireKeeps(s2, e.expired);
        ExpireOnlyShrinks(s2, e.expired);
      }
      if e.outcome == SocketReady {
        PickedStaysHead(s, e);
        assert Serve(Signals(s1, e), p, e) == Signals(s1, e);
      }
    }
  }

  lemma {:induction false} ExpireOnlyShrinks<U>(s: Sio<U>, jids: seq<nat>)
    ensures |Expire(s, jids).wait| <= |s.wait|
  {
    if jids != [] {
      ExpireOnlyShrinks(s, jids[..|jids| - 1]);
    }
  }

  /**
   Bounded drain after an error: no new request is accepted, and after two further waits, the first of which
   returned without an error of its own, every request submitted before is answered.
   */
  lemma FailedDrains<U>(s: Sio<U>, e1: Env, e2: Env)
    requires s.state == Failed && EnvOk(s, e1) && e1.outcome != SelectFailed && EnvOk(WaitStep(s, e1), e2)
    ensures !CanSubmit(s) && !CanSubmit(WaitStep(s, e1))
    ensures NothingQueued(WaitStep(WaitStep(s, e1), e2))
  {
    FailedStays(s, e1);
    PortIsDrained(s, e1);
    FailedStays(WaitStep(s, e1), e2);
  }

  predicate NothingToRead<U>(s: Sio<U>) { s.port == [] && s.recv == [] && s.wait == [] }

  /** After an end of file one wait answers all queued receives and waits, one more those still on the port. */
  lemma EofPrepared<U>(s: Sio<U>)
    requires s.state == Eof
    ensures var (s1, p) := Prepare(s);
            s1.recv == [] && s1.wait == [] && s1.state == Eof && p.rx.None? && p.wait.None? && s1.port == s.port
  {
  }

  lemma EofSignals<U>(s: Sio<U>, e: Env)
    requires s.recv == [] && s.wait == []
    ensures var t := Signals(s, e); t.state == s.state && (s.port == [] ==> NothingToRead(t))
  {
    var d := if e.msgSig then Drain(s) else s;
    ExpireKeeps(d, e.expired);
    ExpireOnlyShrinks(d, e.expired);
  }

  lemma EofServe<U>(s: Sio<U>, p: Plan<U>, e: Env)
    requires Servable(s, p, e) && p.rx.None? && p.wait.None? && s.state == Eof
    ensures var t := Serve(s, p, e); t.state != Ok && (NothingToRead(s) ==> NothingToRead(t))
  {
    if p.tx.Some? {
      TxPhaseFrame(s, p.write && e.writable, e.tx);
    }
  }

  lemma EofStep<U>(s: Sio<U>, e: Env)
    requires EnvOk(s, e) && s.state == Eof
    ensures WaitStep(s, e).state != Ok
    ensures s.port == [] ==> NothingToRead(WaitStep(s, e))
  {
    var (s1, p) := Prepare(s);
    EofPrepared(s);
    if e.outcome != SelectFailed {
      EofSignals(s1, e);
      if e.outcome == SocketReady {
        PickedStaysHead(s, e);
        EofServe(Signals(s1, e), p, e);
      }
    }
  }

  lemma EofDrains<U>(s: Sio<U>, e1: Env, e2: Env)
    requires s.state == Eof && EnvOk(s, e1) && e1.outcome != SelectFailed && EnvOk(WaitStep(s, e1), e2)
    ensures NothingToRead(WaitStep(WaitStep(s, e1), e2))
  {
    EofStep(s, e1);
    PortIsDrained(s, e1);
    if WaitStep(s, e1).state == Eof {
      EofStep(WaitStep(s, e1), e2);
    } else {
      FailedStays(WaitStep(s, e1), e2);
    }
  }

  // ----- a receive without room -----

  /** A receive without room at the head never gets a byte: it stays, or an end of file or error is reported. */
  lemma NoRoomNoData<U>(s: Sio<U>, e: Env)
    requires EnvOk(s, e) && RecvsOk(s) && Ledger(s) && s.state == Ok && s.recv != [] && s.recv[0].cap == 0
    ensures var t := WaitStep(s, e);
            t.state != Ok ||
            (t.recv != [] && t.recv[0] == s.recv[0] && t.hist.received == s.hist.received && t.hist.kept == s.hist.kept)
  {
    var (s1, p) := Prepare(s);
    var d := if e.msgSig then Drain(s1) else s1;
    if e.timerSig {
      ExpireKeeps(d, e.expired);
    }
    if e.outcome == SocketReady {
      PickedStaysHead(s, e);
      NoRoomServe(Signals(s1, e), p, e);
    }
  }

  lemma NoRoomServe<U>(s: Sio<U>, p: Plan<U>, e: Env)
    requires Servable(s, p, e) && p.rx.Some? && p.rx.value.cap == 0 && p.rx.value.min >= 1 && s.partial == []
    requires p.read && e.readable && e.rx.Data? ==> 1 <= |e.rx.chunk| && |s.partial| + |e.rx.chunk| <= p.rx.value.cap
    ensures var t := Serve(s, p, e);
            t.state != Ok || (t.recv == s.recv && t.hist.received == s.hist.received && t.hist.kept == s.hist.kept)
  {
    var s2 := ServeRx(s, p, e).0;
    if p.tx.Some? {
      TxPhaseFrame(s2, p.write && e.writable, e.tx);
      var t := TxPhase(s2, p.write && e.writable, e.tx).0;
      assert t.hist.received == s2.hist.received && t.hist.kept == s2.hist.kept;
    }
  }
}
