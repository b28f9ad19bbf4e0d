/**
 The socket message service as it runs: lists and ports that are updated in place, byte buffers that belong to the
 callers, a push-back buffer of its own, and counters for the transfers in progress. Every operation is proved to
 take the abstract machine of SockioSpec through exactly its step.
 */
module SockioService {
  import opened Common
  import opened SockioSpec
  import opened SockioTimers
  import opened Timer

  class SockioHandle<U> {
    const timer: TimerHandle
    const pushBase: array<byte>
    /** The client's memory: what each buffer name stands for. */
    const mem: imap<nat, array<byte>>
    /** The user's report buffer, which shared sends are read from. */
    const reportBuf: array<byte>
    var freeList: seq<nat>
    var msgPort: seq<Req<U>>
    var recvList: seq<RecvReq<U>>
    var sendList: seq<SendReq<U>>
    var waitList: seq<WaitReq<U>>
    var userPort: seq<Reply<U>>
    var rxActual: nat
    var txActual: nat
    var state: State
    var pushOff: nat
    var pushSize: nat
    ghost var held: seq<nat>
    ghost var hist: Hist

    predicate Fits(buf: nat, cap: nat) { buf in mem && cap <= mem[buf].Length }

    ghost predicate MemOk() {
      && reportBuf.Length >= 3 && reportBuf != pushBase
      && forall b: nat :: b in mem && mem[b] != pushBase && mem[b] != reportBuf
    }

    function BytesOf(load: Load): seq<byte>
      requires reportBuf.Length >= 3
      reads reportBuf
    {
      Bytes(reportBuf[..3], load)
    }

    ghost predicate BuffersFit()
      reads this
    {
      && (forall i :: 0 <= i < |recvList| ==> Fits(recvList[i].buf, recvList[i].cap))
      && (forall i :: 0 <= i < |msgPort| && msgPort[i].Rx? ==> Fits(msgPort[i].recv.buf, msgPort[i].recv.cap))
    }

    ghost predicate Valid()
      reads this, timer
    {
      && timer.Valid() && BuffersFit()
      && MemOk()
      && pushOff + pushSize <= pushBase.Length
      && (state != Failed ==> if recvList == [] || state == Eof then rxActual == 0 else rxActual <= recvList[0].cap)
    }

    /** The memory a wait may write to: the buffer of the first receive. */
    ghost function Target(): set<array<byte>>
      reads this
    {
      if recvList != [] && recvList[0].buf in mem then {mem[recvList[0].buf]} else {}
    }

    ghost function Partial(): seq<byte>
      requires Valid()
      reads this, timer, Target()
    {
      if state == Failed || recvList == [] then [] else mem[recvList[0].buf][..rxActual]
    }

    ghost predicate Holds(buf: nat, data: seq<byte>)
      reads if buf in mem then {mem[buf]} else {}
    {
      buf in mem && |data| <= mem[buf].Length && mem[buf][..|data|] == data
    }

    ghost function View(): Sio<U>
      requires Valid()
      reads this, timer, Target(), pushBase, reportBuf
    {
      Sio(freeList, msgPort, recvList, sendList, waitList, userPort, held, Partial(),
          if state == Failed then 0 else txActual, state, pushBase[pushOff..pushOff + pushSize], pushBase.Length,
          timer.jobs, timer.nextJob, reportBuf[..3], hist)
    }

    constructor (ids: seq<nat>, pushMax: nat, mem: imap<nat, array<byte>>, reportBuf: array<byte>)
      requires forall b: nat :: b in mem && mem[b] != reportBuf
      requires reportBuf.Length >= 3 && reportBuf[..3] == [0, 0, 0]
      ensures Valid() && View() == Initial(ids, pushMax) && this.mem == mem && this.reportBuf == reportBuf
      ensures fresh(timer) && fresh(pushBase)
    {
      timer := new TimerHandle();
      pushBase := new byte[pushMax];
      this.mem := mem;
      this.reportBuf := reportBuf;
      freeList, msgPort, recvList, sendList, waitList, userPort := ids, [], [], [], [], [];
      rxActual, txActual, state, pushOff, pushSize := 0, 0, Ok, 0, 0;
      held, hist := [], Hist([], [], [], []);
    }

    // ----- what the user calls -----

    /** A new message on the port. */
    method PutMsg(m: Req<U>)
      requires Valid() && freeList != [] && (m.Rx? ==> Fits(m.recv.buf, m.recv.cap))
      modifies this`freeList, this`msgPort
      ensures Valid()
      ensures var s := old(View()); View() == s.(free := s.free[1..], port := s.port + [m])
    {
      freeList := freeList[1..];
      msgPort := msgPort + [m];
    }

    method Recv(buf: nat, maxSize: nat, minSize: nat, user: Option<U>) returns (accepted: bool)
      requires Valid() && Fits(buf, maxSize)
      modifies this
      ensures Valid() && accepted == CanSubmit(old(View()))
      ensures View() == if accepted then SubmitRecv(old(View()), buf, maxSize, minSize, user) else old(View())
    {
      if state == Failed || freeList == [] {
        return false;
      }
      PutMsg(Rx(RecvReq(freeList[0], buf, maxSize, minSize, user)));
      accepted := true;
    }

    method Send(load: Load, user: Option<U>) returns (accepted: bool)
      requires Valid()
      modifies this
      ensures Valid() && accepted == CanSubmit(old(View()))
      ensures View() == if accepted then SubmitSend(old(View()), load, user) else old(View())
    {
      if state == Failed || freeList == [] {
        return false;
      }
      PutMsg(Tx(SendReq(freeList[0], load, user)));
      hist := hist.(submitted := hist.submitted + [BytesOf(load)]);
      accepted := true;
    }

    /** The timer may fail to start; the message is queued all the same. */
    method WaitChar(timeoutUs: nat, haveMemory: bool, canOpen: bool, user: Option<U>) returns (accepted: bool)
      requires Valid()
      modifies this, timer
      ensures Valid() && accepted == CanSubmit(old(View()))
      ensures View() ==
                if accepted
                then SubmitWait(old(View()), haveMemory && (old(|timer.jobs|) > 0 || canOpen), user)
                else old(View())
    {
      if state == Failed || freeList == [] {
        return false;
      }
      var secs, micros := SplitTimeout(timeoutUs);
      var job := timer.Start(freeList[0], haveMemory, canOpen);
      PutMsg(Wt(WaitReq(freeList[0], job, user)));
      accepted := true;
    }

    method TakeReply() returns (r: Reply<U>)
      requires Valid() && userPort != []
      modifies this
      ensures Valid() && View() == Take(old(View())) && r == old(userPort[0])
    {
      r := userPort[0];
      userPort := userPort[1..];
      held := held + [r.id];
    }

    method FreeMsg(id: nat)
      requires Valid()
      modifies this
      ensures Valid() && View() == SockioSpec.FreeMsg(old(View()), id)
    {
      freeList := freeList + [id];
      held := Without(held, id);
    }

    method FillPushBack(data: seq<byte>)
      requires Valid() && |data| <= pushBase.Length
      modifies this`pushOff, this`pushSize, pushBase
      ensures Valid() && View() == old(View()).(push := data)
    {
      pushOff := 0;
      pushSize := |data|;
      CopyMem(data, pushBase, 0);
    }

    /** Too large a push-back is refused; anything pushed back before is overwritten. */
    method PushBack(src: array<byte>, off: nat, size: nat) returns (ok: bool)
      requires Valid() && off + size <= src.Length
      modifies this`pushOff, this`pushSize, this`hist, pushBase
      ensures Valid() && View() == SockioSpec.PushBack(old(View()), old(src[off..off + size]))
      ensures ok <==> size <= pushBase.Length
    {
      if size > pushBase.Length {
        return false;
      }
      FillPushBack(src[off..off + size]);
      ghost var kept := hist.kept;
      hist := hist.(kept := if size <= |kept| then kept[..|kept| - size] else kept);
      ok := true;
    }

    // ----- answering everything -----

    method AnswerReceives()
      modifies this`recvList, this`userPort
      ensures recvList == [] && userPort == old(userPort) + EofReplies(old(recvList))
    {
      ghost var rs := recvList;
      ghost var i := 0;
      while recvList != []
        invariant i <= |rs| && recvList == rs[i..]
        invariant userPort == old(userPort) + EofReplies(rs)[..i]
      {
        var m := recvList[0];
        recvList := recvList[1..];
        userPort := userPort + [RecvDone(m.id, [], m.user)];
        i := i + 1;
      }
    }

    method AnswerSends()
      modifies this`sendList, this`userPort
      ensures sendList == [] && userPort == old(userPort) + SendReplies(old(sendList))
    {
      ghost var ms := sendList;
      ghost var i := 0;
      while sendList != []
        invariant i <= |ms| && sendList == ms[i..]
        invariant userPort == old(userPort) + SendReplies(ms)[..i]
      {
        var m := sendList[0];
        sendList := sendList[1..];
        userPort := userPort + [SendDone(m.id, m.user)];
        i := i + 1;
      }
    }

    method AnswerWaiters(ghost s: Sio<U>)
      requires timer.Valid() && JobsMatch(s) && s.wait == waitList && s.jobs == timer.jobs
      modifies this`waitList, this`userPort, timer
      ensures timer.Valid() && timer.jobs == StopJobs(s.jobs, s.wait) && timer.nextJob == old(timer.nextJob)
      ensures waitList == [] && userPort == old(userPort) + TimeoutReplies(s.wait)
    {
      ghost var ws := waitList;
      ghost var i := 0;
      while waitList != []
        invariant i <= |ws| && waitList == ws[i..]
        invariant timer.Valid() && timer.jobs == StopJobs(s.jobs, ws[..i]) && timer.nextJob == old(timer.nextJob)
        invariant userPort == old(userPort) + TimeoutReplies(ws)[..i]
      {
        StopAllKeepsJobs(s, i);
        var m := waitList[0];
        if m.job.Some? {
          WaiterRuns(s.(wait := s.wait[i..], jobs := StopJobs(s.jobs, s.wait[..i])), 0);
        }
        timer.Stop(m.job);
        waitList := waitList[1..];
        userPort := userPort + [WaitDone(m.id, false, m.user)];
        assert ws[..i + 1][..i] == ws[..i];
        i := i + 1;
      }
      assert ws[..i] == ws;
    }

    method FlushRecv()
      requires Valid() && JobsMatch(View()) && (state == Failed || rxActual == 0)
      modifies this`recvList, this`waitList, this`userPort, timer
      ensures Valid() && View() == SockioSpec.FlushRecv(old(View()))
    {
      ghost var s := View();
      AnswerReceives();
      AnswerWaiters(s);
    }

    method FlushSend()
      requires Valid()
      modifies this`sendList, this`userPort
      ensures Valid() && View() == SockioSpec.FlushSend(old(View()))
    {
      AnswerSends();
    }

    method ReplyError(code: nat)
      requires Valid()
      modifies this`freeList, this`userPort
      ensures Valid()
      ensures var s := old(View());
              View() == if s.free == [] then s else s.(free := s.free[1..], out := s.out + [ErrorNote(s.free[0], code, None)])
    {
      if freeList != [] {
        userPort := userPort + [ErrorNote(freeList[0], code, None)];
        freeList := freeList[1..];
      }
    }

    /** From now on the transfers in progress are void. */
    method EnterFailed()
      requires Valid()
      modifies this`state
      ensures Valid() && View() == Voided(old(View()))
    {
      state := Failed;
    }

    method Fail(code: nat)
      requires Valid() && JobsMatch(View())
      modifies this, timer
      ensures Valid() && View() == FailAll(old(View()), code)
    {
      ghost var s := View();
      EnterFailed();
      ghost var s1 := View();
      FlushSend();
      ghost var s2 := View();
      FlushRecv();
      ghost var s3 := View();
      ReplyError(code);
      FailInSteps(s, s1, s2, s3, code);
    }

    method FlushForState()
      requires Valid() && JobsMatch(View())
      modifies this`recvList, this`sendList, this`waitList, this`userPort, timer
      ensures Valid() && View() == SockioSpec.FlushForState(old(View()))
    {
      if state == Eof {
        FlushRecv();
      } else if state == Failed {
        FlushSend();
        FlushRecv();
      }
    }

    // ----- the phases of a wait -----

    method ReplyMsg(r: Reply<U>)
      requires Valid()
      modifies this`userPort
      ensures Valid() && View() == old(View()).(out := old(userPort) + [r])
    {
      userPort := userPort + [r];
    }

    /** The first receive leaves its list; a transfer in progress starts over. */
    method RemHeadRecv()
      requires Valid() && recvList != [] && state == Ok
      modifies this`recvList, this`rxActual
      ensures Valid() && View() == old(View()).(recv := old(recvList[1..]), partial := [])
    {
      recvList := recvList[1..];
      rxActual := 0;
    }

    method RemHeadSend()
      requires Valid() && sendList != [] && state != Failed
      modifies this`sendList, this`txActual
      ensures Valid() && View() == old(View()).(send := old(sendList[1..]), tx := 0)
    {
      sendList := sendList[1..];
      txActual := 0;
    }

    method CompleteHead()
      requires Valid() && recvList != [] && state == Ok
      modifies this`recvList, this`userPort, this`rxActual, this`hist
      ensures Valid() && View() == CompleteRecv(old(View()))
    {
      var m := recvList[0];
      var data := mem[m.buf][..rxActual];
      RemHeadRecv();
      ReplyMsg(RecvDone(m.id, data, m.user));
      hist := hist.(kept := hist.kept + data);
    }

    /** Is the first receive done? */
    method CompleteIfEnough(min: nat) returns (done: bool)
      requires Valid() && recvList != [] && state == Ok
      modifies this`recvList, this`userPort, this`rxActual, this`hist
      ensures Valid() && (done <==> old(|Partial()|) >= min)
      ensures View() == if done then CompleteRecv(old(View())) else old(View())
    {
      done := rxActual >= min;
      if done {
        CompleteHead();
      }
    }

    /** More bytes for the first receive. */
    method AppendHead(data: seq<byte>)
      requires Valid() && recvList != [] && state == Ok && rxActual + |data| <= recvList[0].cap
      modifies this`rxActual, Target()
      ensures Valid() && View() == old(View()).(partial := old(Partial()) + data)
      ensures rxActual == old(rxActual) + |data|
    {
      var buf := mem[recvList[0].buf];
      CopyMem(data, buf, rxActual);
      assert buf[..rxActual + |data|] == buf[..rxActual] + buf[rxActual..rxActual + |data|];
      rxActual := rxActual + |data|;
    }

    /** Takes bytes off the front of the push-back buffer. */
    method DropPushBack(n: nat)
      requires Valid() && n <= pushSize
      modifies this`pushOff, this`pushSize
      ensures Valid() && View() == old(View()).(push := old(View()).push[n..])
    {
      pushSize := pushSize - n;
      pushOff := pushOff + n;
    }

    /** Pushed-back bytes go to the first receive, as many as it has room for. */
    method UsePushBack()
      requires Valid() && recvList != [] && state == Ok && pushSize > 0
      modifies this`pushOff, this`pushSize, this`rxActual, Target()
      ensures Valid() && View() == Refilled(old(View())) && rxActual == |Partial()|
    {
      var room := recvList[0].cap - rxActual;
      var n := if pushSize > room then room else pushSize;
      var data := pushBase[pushOff..pushOff + pushSize][..n];
      DropPushBack(n);
      AppendHead(data);
    }

    method HandlePushBack() returns (done: bool)
      requires Valid() && recvList != [] && state == Ok && pushSize > 0
      modifies this, Target()
      ensures Valid()
      ensures var (s, rx) := ServePushBack(old(View())); View() == s && (done <==> rx.None?)
      ensures Holds(old(recvList[0].buf), Filled(old(View())))
    {
      ghost var s := View();
      UsePushBack();
      ServedInSteps(s, View());
      done := CompleteIfEnough(recvList[0].min);
    }

    method HandleMsg(m: Req<U>)
      modifies this`recvList, this`sendList, this`waitList
      ensures recvList == old(recvList) + (if m.Rx? then [m.recv] else [])
      ensures sendList == old(sendList) + (if m.Tx? then [m.send] else [])
      ensures waitList == old(waitList) + (if m.Wt? then [m.wait] else [])
    {
      match m
      case Rx(r) => recvList := recvList + [r];
      case Tx(t) => sendList := sendList + [t];
      case Wt(w) => waitList := waitList + [w];
    }

    method DrainPort()
      modifies this`msgPort, this`recvList, this`sendList, this`waitList
      ensures msgPort == []
      ensures recvList == old(recvList) + RecvsOf(old(msgPort))
      ensures sendList == old(sendList) + SendsOf(old(msgPort))
      ensures waitList == old(waitList) + WaitsOf(old(msgPort))
    {
      ghost var port := msgPort;
      ghost var i := 0;
      while msgPort != []
        invariant i <= |port| && msgPort == port[i..]
        invariant recvList == old(recvList) + RecvsOf(port[..i])
        invariant sendList == old(sendList) + SendsOf(port[..i])
        invariant waitList == old(waitList) + WaitsOf(port[..i])
      {
        var m := msgPort[0];
        msgPort := msgPort[1..];
        HandleMsg(m);
        assert port[..i + 1][..i] == port[..i];
        i := i + 1;
      }
      assert port[..i] == port;
    }

    method HandlePort()
      requires Valid()
      modifies this`msgPort, this`recvList, this`sendList, this`waitList
      ensures Valid() && View() == Drain(old(View()))
    {
      ghost var before, port := recvList, msgPort;
      RecvsFromPort(port);
      DrainPort();
      forall k | 0 <= k < |recvList| ensures Fits(recvList[k].buf, recvList[k].cap) {
        if k >= |before| {
          assert RecvsOf(port)[k - |before|] == recvList[k];
          assert Asks(port, recvList[k]);
        }
      }
    }

    /** The job is stopped and the message it points back to answered. */
    method ExpireJob(jid: nat, ghost s: Sio<U>)
      requires timer.Valid() && JobsMatch(s) && s.port == [] && Running(s.jobs, jid)
      requires s.wait == waitList && s.jobs == timer.jobs && s.out == userPort
      modifies this`waitList, this`userPort, timer
      ensures timer.Valid() && timer.nextJob == old(timer.nextJob)
      ensures var t := ExpireOne(s, jid); waitList == t.wait && timer.jobs == t.jobs && userPort == t.out
    {
      ghost var j :| 0 <= j < |s.jobs| && s.jobs[j].jid == jid;
      RunningIsWaiting(s, s.jobs[j]);
      timer.Stop(Some(jid));
      var k := WaiterOf(waitList, jid);
      var m := waitList[k];
      waitList := waitList[..k] + waitList[k + 1..];
      userPort := userPort + [WaitDone(m.id, false, m.user)];
    }

    /** All jobs that are done, one after the other. */
    method ExpireJobs(expired: seq<nat>, ghost s: Sio<U>)
      requires timer.Valid() && JobsMatch(s) && s.port == []
      requires s.wait == waitList && s.jobs == timer.jobs && s.out == userPort
      requires forall i :: 0 <= i < |expired| ==> Running(s.jobs, expired[i])
      requires forall i, j :: 0 <= i < j < |expired| ==> expired[i] != expired[j]
      modifies this`waitList, this`userPort, timer
      ensures timer.Valid() && timer.nextJob == old(timer.nextJob)
      ensures var t := Expire(s, expired); waitList == t.wait && timer.jobs == t.jobs && userPort == t.out
    {
      for i := 0 to |expired|
        invariant timer.Valid() && timer.nextJob == old(timer.nextJob)
        invariant var t := Expire(s, expired[..i]); waitList == t.wait && timer.jobs == t.jobs && userPort == t.out
      {
        ExpiredAreAnswered(s, expired[..i]);
        ghost var t := Expire(s, expired[..i]);
        assert expired[..i + 1][..i] == expired[..i];
        ExpireJob(expired[i], t);
      }
      assert expired[..|expired|] == expired;
    }

    method HandleTimer(expired: seq<nat>)
      requires Valid() && JobsMatch(View()) && msgPort == []
      requires forall i :: 0 <= i < |expired| ==> Running(timer.jobs, expired[i])
      requires forall i, j :: 0 <= i < j < |expired| ==> expired[i] != expired[j]
      modifies this`waitList, this`userPort, timer
      ensures Valid() && View() == Expire(old(View()), expired)
    {
      ghost var s := View();
      ExpireKeeps(s, expired);
      ExpireJobs(expired, s);
    }

    /** The socket is readable: the first waiting message is answered and its job stopped. */
    method AnswerWaiter()
      requires Valid() && waitList != []
      requires waitList[0].job.Some? ==> Running(timer.jobs, waitList[0].job.value)
      modifies this`waitList, this`userPort, timer
      ensures Valid() && View() == AnswerWait(old(View()))
    {
      var m := waitList[0];
      waitList := waitList[1..];
      timer.Stop(m.job);
      userPort := userPort + [WaitDone(m.id, true, m.user)];
    }

    /**
     The receive picked before the wait, when it is due: up to the missing bytes are read if the socket is ready,
     and the receive is answered once it has enough.
     */
    method HandleRx(min: nat, read: bool, res: RecvResult) returns (error: bool)
      requires Valid() && recvList != [] && state == Ok
      requires read && res.Data? ==> rxActual + |res.chunk| <= recvList[0].cap
      modifies this, Target()
      ensures Valid()
      ensures var (t, bad) := RxPhase(old(View()), min, read, res); View() == t && error == bad
      ensures Holds(old(recvList[0].buf), Got(old(Partial()), read, res))
    {
      error := false;
      if read {
        match res
        case RecvAgain =>
        case RecvError => error := true;
        case Data(chunk) =>
          AppendHead(chunk);
          hist := hist.(received := hist.received + chunk);
        case Closed =>
          if rxActual < min {
            DropFirst();
            return;
          }
      }
      var done := CompleteIfEnough(min);
    }

    /** The connection ended before there were enough bytes: they are dropped. */
    method DropFirst()
      requires Valid() && recvList != [] && state == Ok
      modifies this`recvList, this`userPort, this`rxActual, this`state
      ensures Valid() && View() == DropHead(old(View()))
    {
      var m := recvList[0];
      RemHeadRecv();
      ReplyMsg(RecvDone(m.id, [], m.user));
      state := Eof;
    }

    method HandleTx(write: bool, res: SendResult) returns (error: bool)
      requires Valid() && sendList != [] && state != Failed
      requires write && res.Sent? ==> txActual + res.n <= |BytesOf(sendList[0].load)|
      modifies this`txActual, this`sendList, this`userPort, this`hist
      ensures Valid()
      ensures var (t, bad) := TxPhase(old(View()), write, res); View() == t && error == bad
    {
      error := write && res.SendError?;
      if write && res.Sent? {
        CountSent(res.n);
      }
      if |BytesOf(sendList[0].load)| == txActual {
        CompleteFirstSend();
      }
    }

    /** The socket took `n` more bytes of the first send. */
    method CountSent(n: nat)
      requires Valid() && sendList != [] && state != Failed && txActual + n <= |BytesOf(sendList[0].load)|
      modifies this`txActual, this`hist
      ensures Valid()
      ensures var s := old(View());
              View() == s.(tx := s.tx + n, hist := s.hist.(sent := s.hist.sent + Payload(s, s.send[0])[s.tx..s.tx + n]))
    {
      hist := hist.(sent := hist.sent + BytesOf(sendList[0].load)[txActual..txActual + n]);
      txActual := txActual + n;
    }

    method CompleteFirstSend()
      requires Valid() && sendList != [] && state != Failed
      modifies this`sendList, this`txActual, this`userPort
      ensures Valid() && View() == CompleteSend(old(View()))
    {
      var m := sendList[0];
      RemHeadSend();
      ReplyMsg(SendDone(m.id, m.user));
    }

    // ----- the wait -----

    /** Picks the requests to serve and what to ask of the socket. */
    method PrepareWait() returns (plan: Plan<U>)
      requires Valid() && JobsMatch(View())
      modifies this, timer, Target()
      ensures Valid()
      ensures View() == Prepare(old(View())).0 && plan == Prepare(old(View())).1
      ensures old(state == Ok && recvList != []) ==> Holds(old(recvList[0].buf), Filled(old(View())))
    {
      FlushForState();
      var rx, tx := HeadOf(recvList), HeadOf(sendList);
      if rx.Some? && pushSize > 0 {
        var done := HandlePushBack();
        if done {
          rx := None;
        }
      }
      var read := rx.Some? && rxActual < rx.value.min;
      var write := tx.Some? && txActual < |BytesOf(tx.value.load)|;
      plan := Plan(rx, tx, HeadOf(waitList), read, write);
    }

    method HandleSignals(e: Env)
      requires Valid() && JobsMatch(View())
      requires SignalsPromised(View(), e)
      modifies this`msgPort, this`recvList, this`sendList, this`waitList, this`userPort, timer
      ensures Valid() && View() == Signals(old(View()), e)
    {
      ghost var s := View();
      if e.msgSig {
        HandlePort();
      }
      if e.timerSig {
        DrainKeepsJobs(s);
        HandleTimer(e.expired);
      }
    }

    method ServeWaiter(plan: Plan<U>, e: Env)
      requires Valid() && JobsMatch(View()) && Servable(View(), plan, e) && RxFits(View(), plan, e)
      modifies this`waitList, this`userPort, timer
      ensures Valid() && View() == ServeWait(old(View()), plan, e) && RxFits(View(), plan, e)
    {
      if plan.wait.Some? && SeenReadable(plan, e) {
        if waitList[0].job.Some? {
          WaiterRuns(View(), 0);
        }
        AnswerWaiter();
      }
    }

    method ServeReceive(plan: Plan<U>, e: Env, ghost s: Sio<U>) returns (error: bool)
      requires Valid() && Servable(s, plan, e) && View() == ServeWait(s, plan, e) && RxFits(View(), plan, e)
      modifies this, if plan.rx.Some? then Target() else {}
      ensures Valid() && (View(), error) == ServeRx(s, plan, e)
      ensures old(state) != Failed ==> state != Failed
      ensures plan.rx.Some? ==> Holds(plan.rx.value.buf, Got(old(Partial()), plan.read && SeenReadable(plan, e), e.rx))
    {
      error := false;
      if plan.rx.Some? {
        error := HandleRx(plan.rx.value.min, plan.read && SeenReadable(plan, e), e.rx);
      }
    }

    /** Both directions are tried, whatever becomes of the first. */
    method ServeTransfers(plan: Plan<U>, e: Env) returns (error: bool)
      requires Valid() && JobsMatch(View()) && Servable(View(), plan, e) && RxFits(View(), plan, e)
      modifies this, timer, if plan.rx.Some? then Target() else {}
      ensures Valid() && (View(), error) == ServeTx(old(View()), plan, e)
      ensures plan.rx.Some? ==> Holds(plan.rx.value.buf, Got(old(Partial()), plan.read && SeenReadable(plan, e), e.rx))
    {
      ghost var s := View();
      ServeWaiter(plan, e);
      error := ServeReceive(plan, e, s);
      ServeRxTouches(s, plan, e);
      if plan.tx.Some? {
        var txError := HandleTx(plan.write && e.writable, e.tx);
        error := error || txError;
      }
    }

    /** Everything the socket is ready for; `plan` was made before the wait. */
    method ServeSocket(plan: Plan<U>, e: Env)
      requires Valid() && JobsMatch(View()) && Servable(View(), plan, e) && RxFits(View(), plan, e)
      modifies this, timer, if plan.rx.Some? then Target() else {}
      ensures Valid() && View() == Serve(old(View()), plan, e)
      ensures plan.rx.Some? ==> Holds(plan.rx.value.buf, Got(old(Partial()), plan.read && SeenReadable(plan, e), e.rx))
    {
      ghost var s := View();
      var error := ServeTransfers(plan, e);
      if error {
        ServeTxKeepsJobs(s, plan, e);
        Fail(ERROR_IO);
      }
    }

    /** The socket is ready; `s` is the state before the wait. */
    method ServePicked(plan: Plan<U>, e: Env, ghost s: Sio<U>)
      requires EnvOk(s, e) && e.outcome == SocketReady && plan == Prepare(s).1
      requires Valid() && JobsMatch(View()) && View() == Signals(Prepare(s).0, e)
      modifies this, timer, if plan.rx.Some? then Target() else {}
      ensures Valid() && View() == WaitStep(s, e)
      ensures plan.rx.Some? ==> Holds(plan.rx.value.buf, Got(old(Partial()), plan.read && SeenReadable(plan, e), e.rx))
    {
      PickedStaysHead(s, e);
      PickedFits(s, e);
      ServeSocket(plan, e);
    }

    /** What happens once the wait is over; `s` is the state before it. */
    method FinishWait(plan: Plan<U>, e: Env, ghost s: Sio<U>)
      requires EnvOk(s, e) && plan == Prepare(s).1
      requires Valid() && JobsMatch(View()) && View() == Prepare(s).0
      modifies this, timer, if e.outcome == SocketReady && plan.rx.Some? then Target() else {}
      ensures Valid() && View() == WaitStep(s, e)
      ensures e.outcome == SocketReady && plan.rx.Some? ==> Holds(plan.rx.value.buf, HeadBytes(s, e))
    {
      HeadInSteps(s, e);
      if e.outcome == SelectFailed {
        Fail(ERROR_WAIT);
        return;
      }
      SignalsKeepJobs(View(), e);
      SignalsArePromised(s, e);
      HandleSignals(e);
      if e.outcome == SocketReady {
        ServePicked(plan, e, s);
      }
    }

    method WaitHandle(e: Env)
      requires Valid() && JobsMatch(View()) && EnvOk(View(), e)
      modifies this, timer, Target()
      ensures Valid() && View() == WaitStep(old(View()), e)
      ensures old(state == Ok && recvList != []) ==> Holds(old(recvList[0].buf), HeadBytes(old(View()), e))
    {
      ghost var s := View();
      PrepareKeepsJobs(s);
      HeadInSteps(s, e);
      var plan := PrepareWait();
      FinishWait(plan, e, s);
    }

    // ----- another buffer for a pending receive -----

    /** The first receive goes on in another buffer, with the first `n` of its bytes. */
    method MoveHead(buf: nat, cap: nat, min: nat, n: nat)
      requires Valid() && recvList != [] && state == Ok && Fits(buf, cap) && n <= rxActual && n <= cap
      modifies this`recvList, this`rxActual, mem[buf]
      ensures Valid() && rxActual == n
      ensures var s := old(View());
              View() == s.(recv := s.recv[0 := s.recv[0].(buf := buf, cap := cap, min := min)], partial := s.partial[..n])
    {
      var data := mem[recvList[0].buf][..n];
      CopyMem(data, mem[buf], 0);
      recvList := recvList[0 := recvList[0].(buf := buf, cap := cap, min := min)];
      rxActual := n;
    }

    /** A later receive just gets other fields. */
    method SetBuffer(k: nat, buf: nat, cap: nat, min: nat)
      requires Valid() && 0 < k < |recvList| && Fits(buf, cap)
      modifies this`recvList
      ensures Valid()
      ensures var s := old(View()); View() == s.(recv := s.recv[k := s.recv[k].(buf := buf, cap := cap, min := min)])
    {
      recvList := recvList[k := recvList[k].(buf := buf, cap := cap, min := min)];
    }

    /** `k` is the place of the message in the list of receives. Refused when the bytes that do not fit cannot be pushed back. */
    method ReplaceRecvBuffer(k: nat, buf: nat, cap: nat, min: nat) returns (ok: bool)
      requires Valid() && k < |recvList| && state == Ok && Fits(buf, cap)
      modifies this, pushBase, mem[buf]
      ensures !ok <==> k == 0 && old(rxActual) > cap + pushBase.Length
      ensures ok ==> Valid() && (View(), ok) == ReplaceRecv(old(View()), k, buf, cap, min)
    {
      if k > 0 {
        SetBuffer(k, buf, cap, min);
        return true;
      }
      var n := rxActual;
      if n > cap {
        if n - cap > pushBase.Length {
          return false;
        }
        FillPushBack(mem[recvList[0].buf][cap..n]);
        n := cap;
      }
      MoveHead(buf, cap, min, n);
      var done := CompleteIfEnough(min);
      ok := true;
    }
  }

  // ----- steps in between -----

  function Voided<U>(s: Sio<U>): Sio<U> { s.(state := Failed, partial := [], tx := 0) }

  lemma FailInSteps<U>(s: Sio<U>, s1: Sio<U>, s2: Sio<U>, s3: Sio<U>, code: nat)
    requires s1 == Voided(s) && s2 == SockioSpec.FlushSend(s1) && s3 == SockioSpec.FlushRecv(s2)
    ensures FailAll(s, code) ==
              if s3.free == [] then s3 else s3.(free := s3.free[1..], out := s3.out + [ErrorNote(s3.free[0], code, None)])
  {
  }

  function Refilled<U>(s: Sio<U>): Sio<U>
    requires s.recv != [] && |s.partial| <= s.recv[0].cap
  {
    var room := s.recv[0].cap - |s.partial|;
    var n := if |s.push| > room then room else |s.push|;
    s.(partial := s.partial + s.push[..n], push := s.push[n..])
  }

  lemma ServedInSteps<U>(s: Sio<U>, t: Sio<U>)
    requires s.recv != [] && s.push != [] && |s.partial| <= s.recv[0].cap && t == Refilled(s)
    ensures t.recv == s.recv
    ensures Filled(s) == t.partial
    ensures ServePushBack(s) == if |t.partial| >= s.recv[0].min then (CompleteRecv(t), None) else (t, Some(s.recv[0]))
  {
  }

  ghost predicate SignalsPromised<U>(s: Sio<U>, e: Env) {
    && (s.port != [] ==> e.msgSig)
    && (e.timerSig ==>
          && (forall i :: 0 <= i < |e.expired| ==> Running(s.jobs, e.expired[i]))
          && (forall i, j :: 0 <= i < j < |e.expired| ==> e.expired[i] != e.expired[j]))
  }

  /** What is received fits into the buffer, and a transfer is only picked in a state that serves it. */
  ghost predicate RxFits<U>(s: Sio<U>, p: Plan<U>, e: Env) {
    && (p.rx.Some? ==>
          && s.state == Ok && s.recv != [] && s.recv[0] == p.rx.value
          && (p.read && e.readable && e.rx.Data? ==> |s.partial| + |e.rx.chunk| <= p.rx.value.cap))
    && (p.tx.Some? ==> s.state != Failed)
  }

  lemma SignalsArePromised<U>(s: Sio<U>, e: Env)
    requires Promised(s, e) && e.outcome != SelectFailed
    ensures SignalsPromised(Prepare(s).0, e)
  {
  }

  lemma PickedFits<U>(s: Sio<U>, e: Env)
    requires EnvOk(s, e) && e.outcome == SocketReady
    ensures var (s1, p) := Prepare(s); RxFits(Signals(s1, e), p, e)
  {
    PickedStaysHead(s, e);
  }

  /** The receive that is picked is the first one, and what it has by then stays until it is served. */
  lemma HeadInSteps<U>(s: Sio<U>, e: Env)
    requires EnvOk(s, e)
    ensures var (s1, p) := Prepare(s);
            && (p.rx.Some? ==>
                  && s.state == Ok && s.recv != [] && p.rx.value == s.recv[0] && s1.recv != [] && s1.recv[0] == s.recv[0]
                  && Signals(s1, e).recv != [] && Signals(s1, e).recv[0] == s.recv[0] && Signals(s1, e).partial == Filled(s))
            && (!(e.outcome == SocketReady && p.rx.Some?) ==> HeadBytes(s, e) == Filled(s))
  {
    var s1 := Prepare(s).0;
    ExpireKeeps(if e.msgSig then Drain(s1) else s1, e.expired);
  }

  lemma ServeRxTouches<U>(s: Sio<U>, p: Plan<U>, e: Env)
    requires Servable(s, p, e)
    ensures var t := ServeRx(s, p, e).0; t.send == s.send && t.tx == s.tx
  {
    if p.rx.Some? {
      RxPhaseFrame(ServeWait(s, p, e), p.rx.value.min, p.read && SeenReadable(p, e), e.rx);
    }
  }

  ghost predicate Asks<U>(port: seq<Req<U>>, r: RecvReq<U>) { exists i :: 0 <= i < |port| && port[i] == Rx(r) }

  /** What is drained was on the port. */
  lemma {:induction false} RecvsFromPort<U>(port: seq<Req<U>>)
    ensures forall k :: 0 <= k < |RecvsOf(port)| ==> Asks(port, RecvsOf(port)[k])
  {
    if port != [] {
      var n := |port| - 1;
      RecvsFromPort(port[..n]);
      forall k | 0 <= k < |RecvsOf(port)| ensures Asks(port, RecvsOf(port)[k]) {
        var r := RecvsOf(port)[k];
        if k < |RecvsOf(port[..n])| {
          assert Asks(port[..n], r);
          var i :| 0 <= i < n && port[..n][i] == Rx(r);
          assert port[i] == Rx(r);
        } else {
          assert port[n] == Rx(r);
        }
      }
    }
  }
}
