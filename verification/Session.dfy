/**
 A remote session as it runs: the socket service, the console and the flags of the main loop, updated in place. Each
 handler is proved to take the session of SessionSpec through exactly one event, and a pass of the main loop through a run.
 */
module SessionService {
  import opened Common
  import opened SignalBytes
  import opened SockioSpec
  import opened SockioTimers
  import opened SockioService
  import opened VconSpec
  import opened VconService
  import opened SessionSpec
  import opened SessionTheorems
  import opened SessionReads
  import opened SessionOneReader
  import opened SessionMemory
  import opened SessionRuns

  /** A console with the two file handles of the session. */
  method NewConsole(vids: seq<nat>) returns (vcon: VconHandle)
    ensures fresh(vcon) && vcon.View() == CreateHandle(CreateHandle(Fresh(vids))) && vcon.signals == []
  {
    vcon := new VconHandle(vids);
    vcon.CreateFh();
    vcon.CreateFh();
  }

  class SessionHandle {
    const sio: SockioHandle<VReq>
    const vcon: VconHandle
    const splitLines: bool
    const parseSignals: bool
    const doMedium: bool
    const sendMode: bool
    var bufferMode: nat
    var socketActive: bool
    var vconActive: bool
    ghost var consumed: seq<byte>
    ghost var posted: seq<Posting>

    /** The console's tasks have got what was posted. */
    ghost predicate Valid()
      reads this`posted, vcon`signals, sio, sio.timer
    {
      sio.Valid() && vcon.signals == BreaksOf(posted)
    }

    ghost function View(): Session
      requires Valid()
      reads this, sio, sio.timer, sio.Target(), sio.pushBase, sio.reportBuf, vcon
    {
      Session(sio.View(), vcon.View(), socketActive, vconActive, splitLines, parseSignals, doMedium, sendMode, bufferMode,
              consumed, posted)
    }

    constructor (sids: seq<nat>, vids: seq<nat>, pushMax: nat, mem: imap<nat, array<byte>>, split: bool, parse: bool, medium: bool, send: bool)
      requires forall b: nat :: b in mem
      ensures Valid() && View() == Start(sids, vids, pushMax, split, parse, medium, send) && sio.mem == mem
      ensures fresh(sio) && fresh(sio.timer) && fresh(sio.pushBase) && fresh(sio.reportBuf) && fresh(vcon)
    {
      var tmp := new byte[8](i => 0);
      assert tmp[..3] == [0, 0, 0];
      var socket := new SockioHandle<VReq>(sids, pushMax, mem, tmp);
      var console := NewConsole(vids);
      sio, vcon := socket, console;
      splitLines, parseSignals, doMedium, sendMode := split, parse, medium, send;
      bufferMode, socketActive, vconActive := MODE_COOKED, true, true;
      consumed, posted := [], [];
    }

    /** Finds the first newline and pushes back what is behind it; returns the size that is left. */
    method LineSplitBuffer(buf: array<byte>, size: nat) returns (left: nat)
      requires Valid() && 0 < size <= buf.Length
      modifies sio, sio.pushBase
      ensures Valid() && left == |LineOf(old(buf[..size]))|
      ensures var data, s := old(buf[..size]), old(sio.View());
              sio.View() == if Splits(data) then PushBack(s, TailOf(data)) else s
    {
      ghost var data := buf[..size];
      var i := 0;
      while i < size && buf[i] != 0x0A
        invariant i <= size && LineEnd(data) == i + LineEnd(data[i..])
      {
        assert data[i..][1..] == data[i + 1..];
        i := i + 1;
      }
      if i < size {
        i := i + 1;
      }
      if i < size - 1 {
        var ok := sio.PushBack(buf, i, size - i);
        left := i;
      } else {
        left := size;
      }
    }

    /** If there were signals, the tasks have got just this break. */
    ghost predicate Signalled(before: seq<Break>, data: seq<byte>, mask: seq<bool>)
      reads vcon
    {
      if SignalsIn(data) == [] then vcon.signals == before else Broke(before, vcon.signals, SignalTargets(vcon.View()), mask)
    }

    ghost function Posted(bytes: seq<byte>): Posting
      reads vcon
    {
      Posting(bytes, vcon.readSignalPort, vcon.writeSignalPort)
    }

    /** Takes the signal bytes out of the buffer; the console's tasks get those breaks whose byte occurred. */
    method ProcessSignalsInBuffer(buf: array<byte>, size: nat) returns (left: nat, mask: seq<bool>)
      requires size <= buf.Length && vcon.signals == BreaksOf(posted)
      modifies buf, this`posted, vcon`signals
      ensures var data := old(buf[..size]);
              && left <= size && buf[..left] == Visible(data)
              && posted == old(posted) + (if SignalsIn(data) != [] then [Posted(SignalsIn(data))] else [])
              && MaskTells(data, mask) && Signalled(old(vcon.signals), data, mask)
      ensures vcon.View() == old(vcon.View()) && vcon.signals == BreaksOf(posted)
    {
      ghost var data := buf[..size];
      var counts, changes;
      left, counts, changes := ExtractSignals(buf, size);
      mask := seq(NUM_SIGNALS, k requires 0 <= k < NUM_SIGNALS => counts[k] > 0);
      forall k | 0 <= k < NUM_SIGNALS ensures mask[k] <==> START_SIGNAL + k in data {
        CountPositive(data, START_SIGNAL + k);
      }
      if changes > 0 {
        var sent := vcon.SendSignal(mask);
        MaskIs(data, mask);
        ghost var before := posted;
        posted := posted + [Posted(SignalsIn(data))];
        assert posted[..|before|] == before;
      }
    }

    // ----- replies of the socket service -----

    /** The data of a reply is in the buffer of the read it answers, which no receive in progress writes to. */
    ghost predicate HoldsData(r: Reply<VReq>)
      reads sio, DataBuffer(r)
    {
      r.RecvDone? && r.data != [] && r.user.Some? ==>
        && r.user.value.op.VRead?
        && var buf := r.user.value.op.buf;
           && sio.Fits(buf, |r.data|) && sio.Fits(buf, r.user.value.op.size)
           && sio.mem[buf][..|r.data|] == r.data && sio.mem[buf] !in sio.Target()
    }

    ghost function DataBuffer(r: Reply<VReq>): set<array<byte>>
    {
      if r.RecvDone? && r.data != [] && r.user.Some? && r.user.value.op.VRead? && r.user.value.op.buf in sio.mem
      then {sio.mem[r.user.value.op.buf]}
      else {}
    }

    method ReplyMsg(q: VReq, result: VResult)
      requires Valid()
      modifies vcon
      ensures Valid() && View() == ReplyTo(old(View()), q, result)
    {
      vcon.vmsgPort := vcon.vmsgPort + [VReply(q.vid, q.pkt, result)];
    }

    /** In cooked mode only the first line is looked at now. */
    method SplitCooked(buf: array<byte>, size: nat) returns (left: nat)
      requires Valid() && buf != sio.pushBase && 0 < size <= buf.Length
      modifies sio, sio.pushBase
      ensures Valid() && left <= size
      ensures var s, data := old(View()), old(buf[..size]);
              buf[..left] == Looked(s, data) && View() == s.(sio := PushedBack(s, data))
    {
      left := size;
      ghost var data := buf[..size];
      LineIsPrefix(data);
      if splitLines && bufferMode == MODE_COOKED {
        left := LineSplitBuffer(buf, size);
      }
    }

    method ParseSignals(buf: array<byte>, size: nat) returns (left: nat)
      requires Valid() && buf != sio.pushBase && buf != sio.reportBuf && buf !in sio.Target() && size <= buf.Length
      modifies buf, this`posted, this`consumed, vcon`signals
      ensures Valid() && left <= size
      ensures var s, data := old(View()), old(buf[..size]);
              && buf[..left] == Shown(s, data)
              && View() == PostSignals(s, data).(consumed := s.consumed + data)
    {
      left := size;
      ghost var data := buf[..size];
      if parseSignals {
        left := FilterSignals(buf, size);
      }
      Consume(data);
    }

    ghost method Consume(data: seq<byte>)
      requires Valid()
      modifies this`consumed
      ensures Valid() && View() == old(View()).(consumed := old(consumed) + data)
    {
      consumed := consumed + data;
    }

    method FilterSignals(buf: array<byte>, size: nat) returns (left: nat)
      requires Valid() && buf != sio.pushBase && buf != sio.reportBuf && buf !in sio.Target() && size <= buf.Length
      requires parseSignals
      modifies buf, this`posted, vcon`signals
      ensures Valid() && left <= size
      ensures var s, data := old(View()), old(buf[..size]); buf[..left] == Shown(s, data) && View() == PostSignals(s, data)
    {
      ghost var s, data := View(), buf[..size];
      var mask;
      left, mask := ProcessSignalsInBuffer(buf, size);
      assert sio.View() == s.sio && vcon.View() == s.vcon;
      PostedInSteps(s, data, View());
    }

    /** Received data is looked at, and the socket message that brought it is free again. */
    method LookAtData(id: nat, buf: array<byte>, size: nat) returns (left: nat)
      requires Valid() && buf != sio.pushBase && buf != sio.reportBuf && buf !in sio.Target() && 0 < size <= buf.Length
      modifies sio, sio.pushBase, buf, this`posted, this`consumed, vcon`signals
      ensures Valid() && left <= size
      ensures var s, data := old(View()), old(buf[..size]);
              buf[..left] == Shown(s, Looked(s, data)) && View() == LookedAt(s, id, data)
    {
      ghost var s, data := View(), buf[..size];
      left := SplitCooked(buf, size);
      ghost var s1 := View();
      left := ParseSignals(buf, left);
      LookedInSteps(s, id, data, s1, View());
      sio.FreeMsg(id);
    }

    /** The read goes on with the size its message says, or the socket is given up. */
    method ReadAgain(q: VReq) returns (again: bool)
      requires Valid() && q.op.VRead? && sio.Fits(q.op.buf, q.op.size)
      modifies sio, this`socketActive
      ensures Valid() && again == CanSubmit(old(View()).sio)
      ensures var s := old(View());
              View() == if again
                        then s.(sio := SubmitRecv(s.sio, q.op.buf, q.op.size, 1, Some(Reread(q))))
                        else s.(socketActive := false)
    {
      again := sio.Recv(q.op.buf, q.op.size, 1, Some(Reread(q)));
      if !again {
        socketActive := false;
      }
    }

    method HandleReceived(id: nat, size: nat, q: VReq)
      requires Valid() && q.op.VRead? && sio.Fits(q.op.buf, size) && sio.Fits(q.op.buf, q.op.size) && size > 0
      requires sio.mem[q.op.buf] !in sio.Target()
      modifies this, sio, sio.pushBase, vcon, sio.mem[q.op.buf]
      ensures Valid() && View() == HandleData(old(View()), id, old(sio.mem[q.op.buf][..size]), q)
    {
      var buf := sio.mem[q.op.buf];
      ghost var s, data := View(), buf[..size];
      var left := LookAtData(id, buf, size);
      ghost var s1 := View();
      var shown := buf[..left];
      var again := false;
      if left == 0 {
        again := ReadAgain(q);
      }
      HandledInSteps(s, id, data, q, s1);
      if !again {
        ReplyMsg(q, ReadDone(shown));
      }
    }

    /** The next reply is off the port and its message free again. */
    method FreeReply() returns (r: Reply<VReq>)
      requires Valid() && sio.userPort != []
      modifies this`socketActive, sio
      ensures Valid() && View() == Freed(old(View())) && r == old(sio.userPort[0])
    {
      r := sio.TakeReply();
      sio.FreeMsg(r.id);
      if r.ErrorNote? {
        socketActive := false;
      }
    }

    method TakeReply() returns (r: Reply<VReq>)
      requires Valid() && sio.userPort != []
      modifies sio
      ensures Valid() && r == old(sio.userPort[0]) && sio.Target() == old(sio.Target())
      ensures var s := old(View()); View() == s.(sio := Take(s.sio))
    {
      r := sio.TakeReply();
    }

    /** The next reply of the socket service. */
    method HandleSockioMsg()
      requires Valid() && sio.userPort != [] && HoldsData(sio.userPort[0])
      modifies this, sio, sio.pushBase, vcon, DataBuffer(sio.userPort[0])
      ensures Valid() && View() == HandleSock(old(View()))
    {
      if sio.userPort[0].RecvDone? && sio.userPort[0].data != [] && sio.userPort[0].user.Some? {
        var r := TakeReply();
        HandleReceived(r.id, |r.data|, r.user.value);
      } else {
        var r := FreeReply();
        if r.user.Some? {
          ReplyMsg(r.user.value, ResultOf(r, r.user.value));
        }
      }
    }

    // ----- messages of the console -----

    method IsSockioIdle() returns (idle: bool)
      requires Valid()
      ensures idle <==> Idle(View())
    {
      idle := sio.recvList == [] && sio.waitList == [] && sio.sendList == [];
    }

    /** All reports are made in the one report buffer. */
    method WriteReport(mode: nat)
      requires Valid() && mode < 3
      modifies sio.reportBuf
      ensures Valid()
      ensures var s := old(View()); View() == s.(sio := s.sio.(report := ModeReport(mode)))
    {
      sio.reportBuf[0] := 0x9B;
      sio.reportBuf[1] := mode + 0x30;
      sio.reportBuf[2] := 0x56;
      assert sio.reportBuf[..3] == [0x9B, mode + 0x30, 0x56];
    }

    /** The report buffer goes to the other side; it is read when the socket is ready. */
    method SendReport(q: VReq) returns (accepted: bool)
      requires Valid()
      modifies sio
      ensures Valid() && accepted == CanSubmit(old(View()).sio)
      ensures var s := old(View()); View() == if accepted then s.(sio := SubmitSend(s.sio, Shared, Some(q))) else s
    {
      accepted := sio.Send(Shared, Some(q));
    }

    /** An accepted mode is reported to the other side, unless that side asked not to be told. */
    method AnswerMode(q: VReq, mode: nat)
      requires Valid() && mode < 3
      modifies sio, sio.reportBuf, vcon
      ensures Valid() && View() == Reported(old(View()), q, mode)
    {
      var forwarded := false;
      if !sendMode {
        WriteReport(mode);
        forwarded := SendReport(q);
      }
      if !forwarded {
        ReplyMsg(q, ModeResult(mode));
      }
    }

    method SetMode(mode: nat)
      requires Valid()
      modifies this`bufferMode
      ensures Valid() && View() == old(View()).(mode := mode)
    {
      bufferMode := mode;
    }

    /** Takes a new mode or rejects it. */
    method HandleBufferMode(q: VReq, mode: nat)
      requires Valid() && q.op == VMode(mode)
      modifies this`bufferMode, sio, sio.reportBuf, vcon
      ensures Valid() && View() == WithMode(old(View()), q, mode)
    {
      if mode == MODE_COOKED || mode == MODE_RAW || (mode == MODE_MEDIUM && doMedium) {
        SetMode(mode);
        AnswerMode(q, mode);
      } else {
        ReplyMsg(q, ModeResult(MODE_UNSUPPORTED));
      }
    }

    /** A request that the socket service is asked to take; if it does not, it is replied as it is. */
    method ForwardMsg(q: VReq, haveMemory: bool, canOpen: bool)
      requires Valid() && (q.op.VWrite? || q.op.VRead? || q.op.VWait?)
      requires q.op.VRead? ==> sio.Fits(q.op.buf, q.op.size)
      modifies sio, sio.timer, vcon
      ensures Valid()
      ensures var s := old(View());
              View() == Apply(s, q, DecideActive(s, q, haveMemory && (|s.sio.jobs| > 0 || canOpen)))
    {
      var accepted;
      match q.op {
        case VWrite(data) => accepted := sio.Send(Own(data), Some(q));
        case VRead(buf, size) => accepted := sio.Recv(buf, size, 1, Some(q));
        case VWait(us) => accepted := sio.WaitChar(us, haveMemory, canOpen, Some(q));
      }
      if !accepted {
        ReplyMsg(q, Untouched(q));
      }
    }

    method TakeMsg() returns (q: VReq)
      requires Valid() && vcon.userPort != []
      modifies vcon
      ensures Valid() && q == old(vcon.userPort[0])
      ensures var s := old(View()); View() == s.(vcon := s.vcon.(toUser := s.vcon.toUser[1..]))
    {
      q := vcon.userPort[0];
      vcon.userPort := vcon.userPort[1..];
    }

    /** The console is done; so is the socket, if nothing is pending on its lists. */
    method HandleEnd(q: VReq)
      requires Valid()
      modifies this`vconActive, this`socketActive, vcon
      ensures Valid() && View() == Ended(old(View()), q)
    {
      ReplyMsg(q, EndResult);
      vconActive := false;
      var idle := IsSockioIdle();
      if socketActive && idle {
        socketActive := false;
      }
    }

    /** The next message of the console; `haveMemory` and `canOpen` say whether a timer could be started for it. */
    method HandleVconMsg(haveMemory: bool, canOpen: bool)
      requires Valid() && vcon.userPort != []
      requires vcon.userPort[0].op.VRead? ==> sio.Fits(vcon.userPort[0].op.buf, vcon.userPort[0].op.size)
      modifies this`bufferMode, this`vconActive, this`socketActive, sio, sio.timer, sio.reportBuf, vcon
      ensures Valid()
      ensures View() == HandleVcon(old(View()), haveMemory && (old(|sio.timer.jobs|) > 0 || canOpen))
    {
      ghost var s := View();
      var q := TakeMsg();
      VconInSteps(s, View(), haveMemory && (|s.sio.jobs| > 0 || canOpen));
      if q.op.VEnd? {
        HandleEnd(q);
      } else if !socketActive {
        ReplyMsg(q, Inactive(q));
      } else if q.op.VMode? {
        HandleBufferMode(q, q.op.mode);
      } else {
        ForwardMsg(q, haveMemory, canOpen);
      }
    }

    /** Waits once for the socket, the timer and the signals. */
    method Wait(e: Env)
      requires Valid() && JobsMatch(View().sio) && EnvOk(View().sio, e)
      modifies sio, sio.timer, sio.Target()
      ensures Valid()
      ensures var s := old(View()); View() == s.(sio := WaitStep(s.sio, e))
      ensures old(sio.state == Ok && sio.recvList != []) ==> sio.Holds(old(sio.recvList[0].buf), HeadBytes(old(sio.View()), e))
    {
      sio.WaitHandle(e);
    }

    // ----- a pass of the main loop -----

    /** Delivered data nobody has looked at is in the buffer of the read it is for. */
    ghost predicate BuffersHold()
      reads sio, sio.mem.Values
    {
      forall i :: 0 <= i < |sio.userPort| && IsData(sio.userPort[i]) && sio.userPort[i].user.value.op.VRead? ==>
        sio.Holds(sio.userPort[i].user.value.op.buf, sio.userPort[i].data)
    }

    /** A session with one reader at a time, whose reads are of `n` bytes into buffers with room for them. */
    ghost predicate Good(n: nat, sids: set<nat>, vids: set<nat>)
      reads this, sio, sio.timer, sio.Target(), sio.pushBase, sio.reportBuf, vcon, sio.mem.Values
    {
      && Valid() && Reached(View(), n, sids, vids) && BuffersHold()
      && forall b: nat :: sio.Fits(b, n)
    }

    /** A wait leaves data only where it belongs. */
    method WaitHolding(e: Env)
      requires Valid() && JobsMatch(View().sio) && EnvOk(View().sio, e) && BuffersHold()
      requires AllAccounted(View().sio, e, WaitStep(View().sio, e))
      modifies sio, sio.timer, sio.Target()
      ensures Valid() && BuffersHold()
      ensures var s := old(View()); View() == s.(sio := WaitStep(s.sio, e))
    {
      ghost var s := View().sio;
      Wait(e);
      forall i | 0 <= i < |sio.userPort| && IsData(sio.userPort[i]) && sio.userPort[i].user.value.op.VRead?
        ensures sio.Holds(sio.userPort[i].user.value.op.buf, sio.userPort[i].data)
      {
        assert Accounted(s, e, sio.userPort[i], i);
      }
    }

    /** Looking at a reply changes no other data that waits to be looked at. */
    method HandleHolding(ghost n: nat)
      requires Valid() && BuffersHold() && sio.userPort != [] && Alone(View().sio, n)
      requires HandleSock(View()).sio.out == View().sio.out[1..] && forall b: nat :: sio.Fits(b, n)
      modifies this, sio, sio.pushBase, vcon, DataBuffer(sio.userPort[0])
      ensures Valid() && BuffersHold() && View() == HandleSock(old(View()))
    {
      if IsData(sio.userPort[0]) {
        assert sio.Fits(sio.userPort[0].user.value.op.buf, n);
      }
      HandleSockioMsg();
    }

    method ConsoleHolding(pktSig: bool, vmsgSig: bool)
      requires Valid() && BuffersHold()
      modifies vcon
      ensures Valid() && BuffersHold()
      ensures var s := old(View()); View() == s.(vcon := Drained(s.vcon, pktSig, vmsgSig))
    {
      var ok := vcon.HandleSigmask(pktSig, vmsgSig);
    }

    method MessageHolding(haveMemory: bool, canOpen: bool, ghost started: bool, ghost n: nat)
      requires Valid() && BuffersHold() && vcon.userPort != [] && started == (haveMemory && (|sio.timer.jobs| > 0 || canOpen))
      requires Forwardable(View(), started, n) && forall b: nat :: sio.Fits(b, n)
      modifies this`bufferMode, this`vconActive, this`socketActive, sio, sio.timer, sio.reportBuf, vcon
      ensures Valid() && BuffersHold() && View() == HandleVcon(old(View()), started)
      ensures |vcon.userPort| == old(|vcon.userPort|) - 1
    {
      if vcon.userPort[0].op.VRead? {
        assert sio.Fits(vcon.userPort[0].op.buf, n);
      }
      HandleVconMsg(haveMemory, canOpen);
    }

    method ArriveHolding(p: Pkt)
      requires Valid() && BuffersHold()
      modifies vcon
      ensures Valid() && BuffersHold()
      ensures var s := old(View()); View() == s.(vcon := Arrive(s.vcon, p))
    {
      vcon.Receive(p);
    }

    method IdleHolding()
      requires Valid() && BuffersHold()
      modifies this`socketActive
      ensures Valid() && BuffersHold()
      ensures var s := old(View()); View() == s.(socketActive := s.socketActive && !(Idle(s) && !s.vconActive))
    {
      var idle := IsSockioIdle();
      if idle && !vconActive {
        socketActive := false;
      }
    }

    // Each step keeps the session good: it is one more event of a disciplined run.

    /** Everything on the console's own ports. */
    method ConsolePass(pktSig: bool, vmsgSig: bool, ghost n: nat, ghost sids: set<nat>, ghost vids: set<nat>)
      requires Good(n, sids, vids)
      modifies vcon
      ensures Good(n, sids, vids)
    {
      PortsReached(View(), pktSig, vmsgSig, n, sids, vids);
      ConsoleHolding(pktSig, vmsgSig);
    }

    method WaitPass(e: Env, ghost n: nat, ghost sids: set<nat>, ghost vids: set<nat>)
      requires Good(n, sids, vids) && EnvOk(View().sio, e)
      modifies sio, sio.timer, sio.Target()
      ensures Good(n, sids, vids)
    {
      WaitFacts(View(), e, n, sids, vids);
      WaitHolding(e);
    }

    /** One reply of the socket service. */
    method SockioStep(ghost n: nat, ghost sids: set<nat>, ghost vids: set<nat>)
      requires Good(n, sids, vids) && sio.userPort != []
      modifies this, sio, sio.pushBase, vcon, DataBuffer(sio.userPort[0])
      ensures Good(n, sids, vids) && |sio.userPort| == old(|sio.userPort|) - 1
    {
      ReachedIsAlone(View(), n, sids, vids);
      SockTakesOne(View());
      ReachedMore(View(), SocketReply, n, sids, vids);
      HandleHolding(n);
    }

    /** One message of the console. */
    method VconStep(haveMemory: bool, canOpen: bool, ghost n: nat, ghost sids: set<nat>, ghost vids: set<nat>)
      requires Good(n, sids, vids) && vcon.userPort != []
      modifies this`bufferMode, this`vconActive, this`socketActive, sio, sio.timer, sio.reportBuf, vcon
      ensures Good(n, sids, vids) && |vcon.userPort| == old(|vcon.userPort|) - 1
    {
      ghost var started := haveMemory && (|sio.timer.jobs| > 0 || canOpen);
      MessageFacts(View(), started, n, sids, vids);
      MessageHolding(haveMemory, canOpen, started, n);
    }

    /** All replies of the socket service. */
    method SockioPass(ghost n: nat, ghost sids: set<nat>, ghost vids: set<nat>)
      requires Good(n, sids, vids)
      modifies this, sio, sio.pushBase, vcon, sio.mem.Values
      ensures Good(n, sids, vids) && sio.userPort == []
    {
      while sio.userPort != []
        invariant Good(n, sids, vids)
        decreases |sio.userPort|
      {
        SockioStep(n, sids, vids);
      }
    }

    /** With nothing pending on its lists and the console done, the socket is done too. */
    method CheckIdle(ghost n: nat, ghost sids: set<nat>, ghost vids: set<nat>)
      requires Good(n, sids, vids)
      modifies this`socketActive
      ensures Good(n, sids, vids)
    {
      ReachedMore(View(), IdleCheck, n, sids, vids);
      IdleHolding();
    }

    /** All messages of the console; for the i-th one a timer may or may not be had. */
    method VconPass(haveMemory: nat -> bool, canOpen: nat -> bool, ghost n: nat, ghost sids: set<nat>, ghost vids: set<nat>)
      requires Good(n, sids, vids)
      modifies this`bufferMode, this`vconActive, this`socketActive, sio, sio.timer, sio.reportBuf, vcon
      ensures Good(n, sids, vids) && vcon.userPort == []
    {
      var i := 0;
      while vcon.userPort != []
        invariant Good(n, sids, vids)
        decreases |vcon.userPort|
      {
        VconStep(haveMemory(i), canOpen(i), n, sids, vids);
        i := i + 1;
      }
    }

    /** DOS sends a packet; a read only when no other one waits. */
    method PacketArrives(p: Pkt, ghost n: nat, ghost sids: set<nat>, ghost vids: set<nat>)
      requires Good(n, sids, vids) && p.id !in vcon.arrived && Disciplined(View(), PktArrives(p), n)
      modifies vcon
      ensures Good(n, sids, vids)
    {
      ReachedMore(View(), PktArrives(p), n, sids, vids);
      ArriveHolding(p);
    }

    /** What the socket service and the console have for the session. */
    method PortsPass(sportSig: bool, vportSig: bool, haveMemory: nat -> bool, canOpen: nat -> bool,
                     ghost n: nat, ghost sids: set<nat>, ghost vids: set<nat>)
      requires Good(n, sids, vids)
      modifies this, sio, sio.timer, sio.pushBase, sio.reportBuf, vcon, sio.mem.Values
      ensures Good(n, sids, vids) && (vportSig ==> vcon.userPort == [])
    {
      if sportSig {
        SockioPass(n, sids, vids);
        CheckIdle(n, sids, vids);
      }
      if vportSig {
        VconPass(haveMemory, canOpen, n, sids, vids);
      }
    }

    /** One pass of the main loop; the masks say which ports raised their signal. */
    method Pass(e: Env, pktSig: bool, vmsgSig: bool, sportSig: bool, vportSig: bool, haveMemory: nat -> bool, canOpen: nat -> bool,
                ghost n: nat, ghost sids: set<nat>, ghost vids: set<nat>)
      requires Good(n, sids, vids) && EnvOk(View().sio, e)
      modifies this, sio, sio.timer, sio.pushBase, sio.reportBuf, vcon, sio.mem.Values
      ensures Good(n, sids, vids) && (vportSig ==> vcon.userPort == [])
    {
      WaitPass(e, n, sids, vids);
      if pktSig || vmsgSig {
        ConsolePass(pktSig, vmsgSig, n, sids, vids);
      }
      PortsPass(sportSig, vportSig, haveMemory, canOpen, n, sids, vids);
    }
  }

  function PushedBack(s: Session, data: seq<byte>): Sio<VReq> {
    if Rest(s, data) != [] then PushBack(s.sio, Rest(s, data)) else s.sio
  }

  lemma LineIsPrefix(data: seq<byte>)
    ensures |LineOf(data)| <= |data| && data[..|LineOf(data)|] == LineOf(data)
    ensures Splits(data) <==> TailOf(data) != []
  {
  }

  /** The report is made before the service is asked to send it. */
  function Told(s: Session, mode: nat): Session
    requires mode < 3
  {
    if s.sendMode then s else s.(sio := s.sio.(report := ModeReport(mode)))
  }

  function WithMode(s: Session, q: VReq, mode: nat): Session {
    if !ModeAccepted(s, mode) then ReplyTo(s, q, ModeResult(MODE_UNSUPPORTED)) else Reported(s.(mode := mode), q, mode)
  }

  function Reported(s: Session, q: VReq, mode: nat): Session
    requires mode < 3
  {
    var t := Told(s, mode);
    if s.sendMode || !CanSubmit(s.sio)
    then ReplyTo(t, q, ModeResult(mode))
    else t.(sio := SubmitSend(t.sio, Shared, Some(q)))
  }

  function Ended(s: Session, q: VReq): Session {
    ReplyTo(s, q, EndResult).(vconActive := false, socketActive := s.socketActive && !Idle(s))
  }

  /** The message is off the port. */
  ghost predicate OffPort(s: Session, t: Session) {
    s.vcon.toUser != [] && t == s.(vcon := s.vcon.(toUser := s.vcon.toUser[1..]))
  }

  lemma ModeInSteps(s: Session, t: Session, started: bool)
    requires OffPort(s, t) && s.vcon.toUser[0].op.VMode? && s.socketActive
    ensures HandleVcon(s, started) == WithMode(t, s.vcon.toUser[0], s.vcon.toUser[0].op.mode)
  {
    var q, w := s.vcon.toUser[0], Wrote(s);
    var mode := q.op.mode;
    assert HandleVcon(s, started) == Apply(Popped(w), q, DecideMode(w, q, mode));
    if ModeAccepted(s, mode) {
      assert Popped(w) == Told(t.(mode := mode), mode);
    } else {
      assert Popped(w) == t;
    }
  }

  lemma OtherInSteps(s: Session, t: Session, started: bool)
    requires OffPort(s, t) && !(s.vcon.toUser[0].op.VMode? && s.socketActive)
    ensures var q := s.vcon.toUser[0];
            HandleVcon(s, started) ==
              if q.op.VEnd? then Ended(t, q)
              else if !s.socketActive then ReplyTo(t, q, Inactive(q))
              else Apply(t, q, DecideActive(t, q, started))
  {
    assert Wrote(s) == s;
  }

  /** What a console message does, case by case, once it is off the port. */
  lemma VconInSteps(s: Session, t: Session, started: bool)
    requires OffPort(s, t)
    ensures var q := s.vcon.toUser[0];
            HandleVcon(s, started) ==
              if q.op.VEnd? then Ended(t, q)
              else if !s.socketActive then ReplyTo(t, q, Inactive(q))
              else if q.op.VMode? then WithMode(t, q, q.op.mode)
              else Apply(t, q, DecideActive(t, q, started))
  {
    if s.vcon.toUser[0].op.VMode? && s.socketActive {
      ModeInSteps(s, t, started);
    } else {
      OtherInSteps(s, t, started);
    }
  }

  function LookedAt(s: Session, id: nat, data: seq<byte>): Session {
    PostSignals(s, Looked(s, data)).(consumed := s.consumed + Looked(s, data), sio := SockioSpec.FreeMsg(PushedBack(s, data), id))
  }

  lemma PostedInSteps(s: Session, data: seq<byte>, t: Session)
    requires s.parseSignals
    requires t == s.(posted := s.posted + (if SignalsIn(data) != [] then [Posting(SignalsIn(data), s.vcon.readPort, s.vcon.writePort)] else []))
    ensures t == PostSignals(s, data) && Shown(s, data) == Visible(data)
  {
    assert s.posted + [] == s.posted;
  }

  /** Exactly the breaks whose byte occurs. */
  predicate MaskTells(data: seq<byte>, mask: seq<bool>) {
    |mask| == NUM_SIGNALS && forall k :: 0 <= k < NUM_SIGNALS ==> (mask[k] <==> START_SIGNAL + k in data)
  }

  /** The mask of the bytes is that of the signals among them. */
  lemma MaskIs(data: seq<byte>, mask: seq<bool>)
    requires MaskTells(data, mask)
    ensures mask == MaskOf(SignalsIn(data))
  {
    VisibleSplits(data);
    forall k | 0 <= k < NUM_SIGNALS ensures mask[k] <==> START_SIGNAL + k in SignalsIn(data) {
      assert IsSignal(START_SIGNAL + k);
    }
  }

  lemma LookedInSteps(s: Session, id: nat, data: seq<byte>, s1: Session, t: Session)
    requires s1 == s.(sio := PushedBack(s, data))
    requires t == PostSignals(s1, Looked(s, data)).(consumed := s.consumed + Looked(s, data))
    ensures LookedAt(s, id, data) == t.(sio := SockioSpec.FreeMsg(t.sio, id))
    ensures Shown(s1, Looked(s, data)) == Shown(s, Looked(s, data))
  {
  }

  lemma HandledInSteps(s: Session, id: nat, data: seq<byte>, q: VReq, t: Session)
    requires t == LookedAt(s, id, data) && q.op.VRead?
    ensures var shown := Shown(s, Looked(s, data));
            HandleData(s, id, data, q) ==
              if shown == [] && CanSubmit(t.sio)
              then t.(sio := SubmitRecv(t.sio, q.op.buf, q.op.size, 1, Some(Reread(q))))
              else ReplyTo(t.(socketActive := t.socketActive && shown != []), q, ReadDone(shown))
  {
  }

  /** A new session is good. */
  method Open(sids: seq<nat>, vids: seq<nat>, pushMax: nat, mem: imap<nat, array<byte>>, split: bool, parse: bool, medium: bool, send: bool, n: nat)
    returns (s: SessionHandle)
    requires Distinct(sids) && Distinct(vids) && 0 < n <= pushMax + 1
    requires forall b: nat :: b in mem && n <= mem[b].Length
    ensures s.Good(n, set i | i in sids, set i | i in vids)
  {
    StartIsReached(sids, vids, pushMax, split, parse, medium, send, n);
    s := new SessionHandle(sids, vids, pushMax, mem, split, parse, medium, send);
  }
}
