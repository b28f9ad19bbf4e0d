/** What a series of packets does to the console, said of the series and not of its steps. */
module VconTheorems {
  import opened VconSpec
  import opened VconService

  /** The port of the last reader: who read last, or who was put there since. */
  function LastReader(ps: seq<Pkt>, before: nat): nat {
    if ps == [] then before
    else
      var p := ps[|ps| - 1];
      match p.action
      case Read(_, _) => p.sender
      case ChangeSignal(port) => port
      case _ => LastReader(ps[..|ps| - 1], before)
  }

  function LastWriter(ps: seq<Pkt>, before: nat): nat {
    if ps == [] then before
    else if ps[|ps| - 1].action.Write? then ps[|ps| - 1].sender
    else LastWriter(ps[..|ps| - 1], before)
  }

  function LastMode(ps: seq<Pkt>, before: nat): nat {
    if ps == [] then before
    else
      match ps[|ps| - 1].action
      case ScreenMode(mode) => ModeByte(mode)
      case _ => LastMode(ps[..|ps| - 1], before)
  }

  /** How many handles the packets open, less those they close. */
  function Opened(ps: seq<Pkt>): int {
    if ps == [] then 0
    else Opened(ps[..|ps| - 1]) + (match ps[|ps| - 1].action case Open => 1 case End => -1 case _ => 0)
  }

  lemma {:induction false} LastOfTail(ps: seq<Pkt>, r: nat, w: nat, m: nat)
    requires ps != []
    ensures LastReader(ps, r) == LastReader(ps[1..], LastReader(ps[..1], r))
    ensures LastWriter(ps, w) == LastWriter(ps[1..], LastWriter(ps[..1], w))
    ensures LastMode(ps, m) == LastMode(ps[1..], LastMode(ps[..1], m))
    ensures Opened(ps) == Opened(ps[..1]) + Opened(ps[1..])
  {
    var n := |ps| - 1;
    if n == 0 {
      assert ps[..1] == ps && ps[1..] == [];
    } else {
      LastOfTail(ps[..n], r, w, m);
      assert ps[..n][..1] == ps[..1] && ps[..n][1..] == ps[1..][..n - 1];
    }
  }

  /** One packet. */
  lemma PktSets(v: Vcon)
    requires v.pkts != [] && v.openCnt < 0x1_0000_0000
    ensures var t, one := HandlePkt(v), v.pkts[..1];
            && t.pkts == v.pkts[1..]
            && t.readPort == LastReader(one, v.readPort) && t.writePort == LastWriter(one, v.writePort)
            && t.mode == LastMode(one, v.mode) && t.openCnt == (v.openCnt + Opened(one)) % 0x1_0000_0000
  {
    assert v.pkts[..1][..0] == [] && v.pkts[..1][0] == v.pkts[0];
  }

  /** After a drained packet port a break goes to the last reader and the last writer, and the mode is the last one asked for. */
  lemma {:induction false} PktsSet(v: Vcon)
    requires v.openCnt < 0x1_0000_0000
    ensures var t := HandlePkts(v);
            && t.readPort == LastReader(v.pkts, v.readPort) && t.writePort == LastWriter(v.pkts, v.writePort)
            && t.mode == LastMode(v.pkts, v.mode)
    decreases |v.pkts|
  {
    if v.pkts != [] {
      PktSets(v);
      LastOfTail(v.pkts, v.readPort, v.writePort, v.mode);
      PktsSet(HandlePkt(v));
    }
  }

  /** And the count of handles has followed every open and close. */
  lemma {:induction false} PktsCount(v: Vcon)
    requires v.openCnt < 0x1_0000_0000
    ensures HandlePkts(v).openCnt == (v.openCnt + Opened(v.pkts)) % 0x1_0000_0000
    decreases |v.pkts|
  {
    if v.pkts != [] {
      CountNext(v);
      PktsCount(HandlePkt(v));
      Wraps(v.openCnt, Opened(v.pkts[..1]), Opened(v.pkts[1..]));
    }
  }

  lemma CountNext(v: Vcon)
    requires v.pkts != [] && v.openCnt < 0x1_0000_0000
    ensures HandlePkt(v).openCnt == (v.openCnt + Opened(v.pkts[..1])) % 0x1_0000_0000 && HandlePkt(v).pkts == v.pkts[1..]
    ensures Opened(v.pkts) == Opened(v.pkts[..1]) + Opened(v.pkts[1..])
  {
    PktSets(v);
    LastOfTail(v.pkts, 0, 0, 0);
  }

  lemma Wraps(a: int, b: int, c: int)
    ensures ((a + b) % 0x1_0000_0000 + c) % 0x1_0000_0000 == (a + (b + c)) % 0x1_0000_0000
  {
  }

  /** The state is set by the last close, and by a request for which there was no message. */
  lemma StateAfter(v: Vcon)
    requires v.pkts != []
    ensures var a, t := v.pkts[0].action, HandlePkt(v);
            t.state == if a.End? && (v.openCnt - 1) % 0x1_0000_0000 == 0 then VClose
                       else if (a.Write? || a.Read? || a.WaitChar?) && v.state != VFlush && v.free == [] then VError
                       else v.state
  {
  }

  /** A task gets a signal if it is the last reader's or the last writer's; 0 is none. */
  lemma TargetsAre(v: Vcon, task: nat)
    ensures task in SignalTargets(v) <==> task != 0 && (task == v.readPort || task == v.writePort)
  {
  }

  /** A new console, with the two handles of the session. */
  lemma NewConsoleIs(vids: seq<nat>)
    ensures var v := CreateHandle(CreateHandle(Fresh(vids)));
            && v.openCnt == 2 && v.state == VOpen && v.mode == 0 && v.readPort == 0 && v.writePort == 0 && v.free == vids
            && v.pkts == [] && v.toUser == [] && v.replies == [] && v.answers == [] && v.arrived == []
  {
  }
}
