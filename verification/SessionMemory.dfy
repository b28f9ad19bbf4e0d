/**
 Where received data is: with one reader at a time, the data of a reply the session has not looked at is in the buffer
 of its read, and no receive in progress writes there.
 */
module SessionMemory {
  import opened SockioSpec
  import opened SockioPool
  import opened SockioTimers
  import opened SockioReplies
  import opened VconSpec
  import opened SessionSpec
  import opened SessionStream
  import opened SessionReads
  import opened SessionOneReader
  import opened SessionRuns

  /** While a receive is pending, all delivered data has been looked at. */
  lemma ReceivingMeansLooked(s: Session, n: nat)
    requires OneRead(s, n) && s.sio.recv != []
    ensures forall i :: 0 <= i < |s.sio.out| ==> !IsData(s.sio.out[i])
  {
    assert ReadReqOk(s.sio.recv[0], n);
    SumMember(s.sio.recv, 0, RecvTok, IsRead);
    forall i | 0 <= i < |s.sio.out| ensures !IsData(s.sio.out[i]) {
      assert ReadReplyOk(s.sio.out[i], n);
      SumMember(s.sio.out, i, OutTok, IsRead);
    }
  }

  /** Data in a reply after a wait was there before and no receive was pending, or is what the first receive got. */
  ghost predicate Accounted(s: Sio<VReq>, e: Env, r: Reply<VReq>, i: nat) {
    if s.recv == [] then i < |s.out| && r == s.out[i]
    else
      && s.state == Ok && r == HeadReply(s, HeadBytes(s, e))
      && s.recv[0].user.Some? && s.recv[0].user.value.op.VRead? && s.recv[0].user.value.op.buf == s.recv[0].buf
  }

  ghost predicate AllAccounted(s: Sio<VReq>, e: Env, t: Sio<VReq>) {
    forall i :: 0 <= i < |t.out| && IsData(t.out[i]) ==> Accounted(s, e, t.out[i], i)
  }

  lemma WaitAccounts(s: Session, e: Env, n: nat)
    requires OneRead(s, n) && EnvOk(s.sio, e)
    ensures AllAccounted(s.sio, e, WaitStep(s.sio, e))
  {
    var t := WaitStep(s.sio, e);
    WaitAnswers(s.sio, e);
    if s.sio.recv != [] {
      ReceivingMeansLooked(s, n);
      assert ReadReqOk(s.sio.recv[0], n);
    }
    forall i | 0 <= i < |t.out| && IsData(t.out[i]) ensures Accounted(s.sio, e, t.out[i], i) {
      if i < |s.sio.out| {
        assert t.out[..|s.sio.out|][i] == t.out[i];
      }
    }
  }

  /** What the session needs of a reached state before a wait. */
  lemma WaitFacts(s: Session, e: Env, n: nat, sids: set<nat>, vids: set<nat>)
    requires Reached(s, n, sids, vids) && EnvOk(s.sio, e)
    ensures JobsMatch(s.sio) && Reached(s.(sio := WaitStep(s.sio, e)), n, sids, vids)
    ensures AllAccounted(s.sio, e, WaitStep(s.sio, e))
  {
    ReachedIsGood(s, n, sids, vids);
    WaitAccounts(s, e, n);
    ReachedMore(s, SocketWait(e), n, sids, vids);
  }

  /** Data is for a read into a buffer no receive writes to, and there is no other data. */
  ghost predicate Alone(sio: Sio<VReq>, n: nat)
    requires sio.out != []
  {
    IsData(sio.out[0]) ==>
      && sio.out[0].user.value.op.VRead? && |sio.out[0].data| <= n && sio.out[0].user.value.op.size <= n
      && sio.recv == []
      && forall i :: 1 <= i < |sio.out| ==> !IsData(sio.out[i])
  }

  lemma TwoReads(out: seq<Reply<VReq>>, i: nat)
    requires 1 <= i < |out| && IsRead(OutTok(out[0])) == 1 && IsRead(OutTok(out[i])) == 1
    ensures Sum(out, OutTok, IsRead) >= 2
  {
    SumHead(out, OutTok, IsRead);
    SumMember(out[1..], i - 1, OutTok, IsRead);
  }

  lemma OtherDataIsNone(s: Session, n: nat, i: nat)
    requires OneRead(s, n) && 1 <= i < |s.sio.out| && IsData(s.sio.out[0])
    ensures !IsData(s.sio.out[i])
  {
    assert ReadReplyOk(s.sio.out[0], n) && ReadReplyOk(s.sio.out[i], n);
    if IsData(s.sio.out[i]) {
      TwoReads(s.sio.out, i);
    }
  }

  lemma NextIsAlone(s: Session, n: nat)
    requires OneRead(s, n) && s.sio.out != []
    ensures Alone(s.sio, n)
  {
    if IsData(s.sio.out[0]) {
      assert ReadReplyOk(s.sio.out[0], n);
      if s.sio.recv != [] {
        ReceivingMeansLooked(s, n);
      }
      forall i | 1 <= i < |s.sio.out| ensures !IsData(s.sio.out[i]) {
        OtherDataIsNone(s, n, i);
      }
    }
  }

  lemma ReachedIsAlone(s: Session, n: nat, sids: set<nat>, vids: set<nat>)
    requires Reached(s, n, sids, vids) && s.sio.out != []
    ensures Alone(s.sio, n)
  {
    ReachedIsGood(s, n, sids, vids);
    NextIsAlone(s, n);
  }

  lemma SockTakesOne(s: Session)
    requires s.sio.out != []
    ensures HandleSock(s).sio.out == s.sio.out[1..]
  {
    SockShape(s);
  }

  ghost predicate Forwardable(s: Session, started: bool, n: nat)
    requires s.vcon.toUser != []
  {
    var t := HandleVcon(s, started);
    && t.sio.out == s.sio.out && t.vcon.toUser == s.vcon.toUser[1..]
    && (s.vcon.toUser[0].op.VRead? ==> s.vcon.toUser[0].op.size <= n)
  }

  /** And before a console message is. */
  lemma MessageFacts(s: Session, started: bool, n: nat, sids: set<nat>, vids: set<nat>)
    requires Reached(s, n, sids, vids) && s.vcon.toUser != []
    ensures Reached(HandleVcon(s, started), n, sids, vids) && Forwardable(s, started, n)
  {
    ReachedIsGood(s, n, sids, vids);
    VconShape(s, started);
    VconTakesOne(s, started);
    ReachedMore(s, ConsoleMessage(started), n, sids, vids);
    assert ForwardOk(s.vcon.toUser[0], n);
  }
}
