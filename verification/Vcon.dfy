/** The virtual console as it runs: ports, a free list and counters that every packet and every reply update in place. */
module VconService {
  import opened Common
  import opened VconSpec

  class VconHandle {
    var freeList: seq<nat>
    var pktPort: seq<Pkt>
    var userPort: seq<VReq>
    var vmsgPort: seq<VReply>
    var openCnt: nat
    var bufferMode: nat
    var state: VState
    var readSignalPort: nat
    var writeSignalPort: nat
    /** The answers DOS got, in order. */
    var answers: seq<Answer>
    /** The breaks tasks were signalled with, in order. */
    var signals: seq<Break>
    ghost var arrived: seq<nat>

    ghost function View(): Vcon
      reads this
    {
      Vcon(freeList, pktPort, userPort, vmsgPort, openCnt, bufferMode, state, readSignalPort, writeSignalPort, arrived, answers)
    }

    constructor (vids: seq<nat>)
      ensures View() == Fresh(vids) && signals == []
    {
      freeList, pktPort, userPort, vmsgPort, answers, arrived, signals := vids, [], [], [], [], [], [];
      openCnt, bufferMode, state, readSignalPort, writeSignalPort := 0, MODE_COOKED, VClose, 0, 0;
    }

    method CreateFh()
      modifies this`openCnt, this`state
      ensures View() == CreateHandle(old(View()))
    {
      if state == VError {
        return;
      }
      openCnt := openCnt + 1;
      state := VOpen;
    }

    /** DOS puts a packet to the port. */
    method Receive(p: Pkt)
      modifies this`pktPort, this`arrived
      ensures View() == Arrive(old(View()), p)
    {
      pktPort := pktPort + [p];
      arrived := arrived + [p.id];
    }

    method ReplyPkt(pkt: nat, res1: int, res2: int, data: seq<byte>)
      modifies this`answers
      ensures answers == old(answers) + [Answer(pkt, res1, res2, data)]
    {
      answers := answers + [Answer(pkt, res1, res2, data)];
    }

    /** Puts a message to the session, if one is free. */
    method PostMsg(pkt: Option<nat>, op: VOp) returns (posted: bool)
      modifies this`freeList, this`userPort
      ensures posted <==> old(freeList) != []
      ensures View() == if posted then Post(old(View()), pkt, op) else old(View())
    {
      if freeList == [] {
        return false;
      }
      var vid := freeList[0];
      freeList := freeList[1..];
      userPort := userPort + [VReq(vid, pkt, op)];
      posted := true;
    }

    /** The next packet: it is answered at once, or turned into a message that will be answered later. */
    method HandleDosPkt()
      requires pktPort != []
      modifies this`pktPort, this`freeList, this`userPort, this`openCnt, this`bufferMode, this`state
      modifies this`readSignalPort, this`writeSignalPort, this`answers
      ensures View() == HandlePkt(old(View()))
    {
      var p := pktPort[0];
      pktPort := pktPort[1..];
      var res1, res2 := DOSTRUE, 0;
      var doReply := true;
      match p.action {
        case Open =>
          openCnt := (openCnt + 1) % 0x1_0000_0000;
        case End =>
          res1, res2 := HandleEnd();
        case ChangeSignal(port) =>
          res2 := readSignalPort;
          readSignalPort := port;
        case ScreenMode(mode) =>
          bufferMode := ModeByte(mode);
          var posted := PostMsg(Some(p.id), VMode(bufferMode));
          if posted {
            doReply := false;
          } else {
            res1, res2 := DOSFALSE, ERROR_NO_FREE_STORE;
          }
        case DiskInfo =>
        case UndiskInfo =>
        case Write(data) =>
          if state == VFlush {
            res1 := |data|;
          } else {
            doReply := PostRequest(p.id, VWrite(data));
            res1, res2 := DOSFALSE, ERROR_NO_FREE_STORE;
          }
          writeSignalPort := p.sender;
        case Read(buf, size) =>
          if state == VFlush {
            res1 := 0;
          } else {
            doReply := PostRequest(p.id, VRead(buf, size));
            res1, res2 := DOSFALSE, ERROR_NO_FREE_STORE;
          }
          readSignalPort := p.sender;
        case Seek =>
          res1, res2 := DOSFALSE, ERROR_OBJECT_WRONG_TYPE;
        case WaitChar(us) =>
          if state == VFlush {
            res1 := DOSFALSE;
          } else {
            doReply := PostRequest(p.id, VWait(us));
            res1, res2 := DOSFALSE, ERROR_NO_FREE_STORE;
          }
        case Unknown =>
          res1, res2 := DOSFALSE, ERROR_ACTION_NOT_KNOWN;
      }
      if doReply {
        ReplyPkt(p.id, res1, res2, []);
      }
    }

    /** The last close posts the end message. */
    method HandleEnd() returns (res1: int, res2: int)
      modifies this`openCnt, this`state, this`freeList, this`userPort
      ensures var s := old(View());
              var v := s.(openCnt := (s.openCnt - 1) % 0x1_0000_0000);
              if v.openCnt > 0 then View() == v && (res1, res2) == (DOSTRUE, 0)
              else if s.free == [] then View() == v.(state := VClose) && (res1, res2) == (DOSFALSE, ERROR_NO_FREE_STORE)
              else View() == Post(v.(state := VClose), None, VEnd) && (res1, res2) == (DOSTRUE, 0)
    {
      openCnt := (openCnt - 1) % 0x1_0000_0000;
      res1, res2 := DOSTRUE, 0;
      if openCnt == 0 {
        state := VClose;
        var posted := PostMsg(None, VEnd);
        if !posted {
          res1, res2 := DOSFALSE, ERROR_NO_FREE_STORE;
        }
      }
    }

    /** A request that puts the console in its error state when out of messages. */
    method PostRequest(pkt: nat, op: VOp) returns (refused: bool)
      modifies this`freeList, this`userPort, this`state
      ensures refused <==> old(freeList) == []
      ensures View() == if refused then old(View()).(state := VError) else Post(old(View()), Some(pkt), op)
    {
      var posted := PostMsg(Some(pkt), op);
      refused := !posted;
      if refused {
        state := VError;
      }
    }

    /** The session replied to the next message: its packet, if any, is answered and the message is free again. */
    method HandleVmsgReply()
      requires vmsgPort != []
      modifies this`vmsgPort, this`freeList, this`answers
      ensures View() == HandleReply(old(View()))
    {
      var r := vmsgPort[0];
      vmsgPort := vmsgPort[1..];
      var res1, res2 := DOSTRUE, 0;
      var data: seq<byte> := [];
      match r.result {
        case ReadDone(d) => data := d; res1 := |d|;
        case ReadRefused(size) => res1 := size;
        case WriteDone(size) => res1 := size;
        case WaitResult(lines) =>
          if lines == 0 {
            res1 := DOSFALSE;
          } else {
            res2 := lines;
          }
        case ModeResult(mode) =>
          if mode == MODE_UNSUPPORTED {
            res1, res2 := DOSFALSE, ERROR_OBJECT_WRONG_TYPE;
          }
        case EndResult =>
      }
      if r.pkt.Some? {
        ReplyPkt(r.pkt.value, res1, res2, data);
      }
      freeList := freeList + [r.vid];
    }

    method HandlePktPort()
      modifies this
      ensures View() == HandlePkts(old(View())) && signals == old(signals)
    {
      ghost var s := View();
      while pktPort != []
        invariant HandlePkts(View()) == HandlePkts(s) && signals == old(signals)
        decreases |pktPort|
      {
        HandleDosPkt();
      }
    }

    method HandleVmsgPort()
      modifies this
      ensures View() == HandleReplies(old(View())) && signals == old(signals)
    {
      ghost var s := View();
      while vmsgPort != []
        invariant HandleReplies(View()) == HandleReplies(s) && signals == old(signals)
        decreases |vmsgPort|
      {
        HandleVmsgReply();
      }
    }

    /** Everything on the two ports that signalled. */
    method HandleSigmask(pktSig: bool, vmsgSig: bool) returns (ok: bool)
      modifies this
      ensures View() == Drained(old(View()), pktSig, vmsgSig) && signals == old(signals)
      ensures ok <==> state != VError
    {
      if pktSig {
        HandlePktPort();
      }
      if vmsgSig {
        HandleVmsgPort();
      }
      ok := state != VError;
    }

    method SendTaskSignal(task: nat, mask: seq<bool>)
      modifies this`signals
      ensures signals == old(signals) + [Break(task, mask)]
    {
      signals := signals + [Break(task, mask)];
    }

    /** Signals the reader's task and the writer's with these breaks, but no task twice. */
    method SendSignal(mask: seq<bool>) returns (sent: bool)
      modifies this`signals
      ensures View() == old(View())
      ensures signals == old(signals) + BreaksTo(readSignalPort, writeSignalPort, mask)
      ensures Broke(old(signals), signals, SignalTargets(View()), mask)
      ensures sent <==> SignalTargets(View()) != {}
    {
      sent := false;
      assert signals + [] == signals;
      if readSignalPort != 0 {
        SendTaskSignal(readSignalPort, mask);
        sent := true;
      }
      if writeSignalPort != 0 && writeSignalPort != readSignalPort {
        SendTaskSignal(writeSignalPort, mask);
        sent := true;
      }
      ReachesTasks(old(signals), View(), mask);
    }
  }

  /** Exactly these tasks got this break, each once. */
  ghost predicate Broke(before: seq<Break>, after: seq<Break>, tasks: set<nat>, mask: seq<bool>) {
    && |before| <= |after| && after[..|before|] == before
    && var more := after[|before|..];
       && (forall i :: 0 <= i < |more| ==> more[i].mask == mask && more[i].task in tasks)
       && (forall t :: t in tasks ==> exists i :: 0 <= i < |more| && more[i].task == t)
       && (forall i, j :: 0 <= i < j < |more| ==> more[i].task != more[j].task)
  }

  lemma ReachesTasks(before: seq<Break>, v: Vcon, mask: seq<bool>)
    ensures Broke(before, before + BreaksTo(v.readPort, v.writePort, mask), SignalTargets(v), mask)
  {
    var more := BreaksTo(v.readPort, v.writePort, mask);
    assert (before + more)[|before|..] == more;
    assert v.readPort != 0 ==> more[0].task == v.readPort;
    assert v.writePort != 0 && v.writePort != v.readPort ==> more[|more| - 1].task == v.writePort;
  }

  // ----- everything that is on a port -----

  lemma PktTakesOne(v: Vcon)
    requires v.pkts != []
    ensures HandlePkt(v).pkts == v.pkts[1..] && HandlePkt(v).replies == v.replies
  {
  }

  function HandlePkts(v: Vcon): (r: Vcon)
    ensures r.pkts == [] && r.replies == v.replies
    decreases |v.pkts|
  {
    if v.pkts == [] then v
    else
      PktTakesOne(v);
      HandlePkts(HandlePkt(v))
  }

  function HandleReplies(v: Vcon): (r: Vcon)
    ensures r.replies == [] && r.pkts == v.pkts
    decreases |v.replies|
  {
    if v.replies == [] then v else HandleReplies(HandleReply(v))
  }

  function Drained(v: Vcon, pktSig: bool, vmsgSig: bool): Vcon {
    var v1 := if pktSig then HandlePkts(v) else v;
    if vmsgSig then HandleReplies(v1) else v1
  }
}
