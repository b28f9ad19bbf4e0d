/** The session handles the console's messages in the order in which their packets arrived. */
module SessionOrder {
  import opened Common
  import opened SockioSpec
  import opened VconSpec
  import opened SessionSpec
  import opened SessionReads
  import opened SessionRestarts

  /** Packet `a` arrived before packet `b`. */
  ghost predicate Before(arrived: seq<nat>, a: nat, b: nat) {
    exists i, j :: 0 <= i < j < |arrived| && arrived[i] == a && arrived[j] == b
  }

  /** Messages first, then packets, each in the order of arrival. */
  ghost predicate InOrder(v: Vcon) {
    && (forall i :: 0 <= i < |v.toUser| && v.toUser[i].pkt.Some? ==> v.toUser[i].pkt.value in v.arrived)
    && (forall i :: 0 <= i < |v.pkts| ==> v.pkts[i].id in v.arrived)
    && (forall i, j :: 0 <= i < j < |v.toUser| && v.toUser[i].pkt.Some? && v.toUser[j].pkt.Some? ==>
          Before(v.arrived, v.toUser[i].pkt.value, v.toUser[j].pkt.value))
    && (forall i, j :: 0 <= i < |v.toUser| && v.toUser[i].pkt.Some? && 0 <= j < |v.pkts| ==>
          Before(v.arrived, v.toUser[i].pkt.value, v.pkts[j].id))
    && (forall i, j :: 0 <= i < j < |v.pkts| ==> Before(v.arrived, v.pkts[i].id, v.pkts[j].id))
  }

  lemma StillBefore(arrived: seq<nat>, a: nat, b: nat, k: nat)
    requires Before(arrived, a, b)
    ensures Before(arrived + [k], a, b)
  {
    var i, j :| 0 <= i < j < |arrived| && arrived[i] == a && arrived[j] == b;
    assert (arrived + [k])[i] == a && (arrived + [k])[j] == b;
  }

  lemma BeforeLast(arrived: seq<nat>, a: nat, k: nat)
    requires a in arrived
    ensures Before(arrived + [k], a, k)
  {
    var i :| 0 <= i < |arrived| && arrived[i] == a;
    assert (arrived + [k])[i] == a && (arrived + [k])[|arrived|] == k;
  }

  lemma ArriveKeepsOrder(v: Vcon, p: Pkt)
    requires InOrder(v)
    ensures InOrder(Arrive(v, p))
  {
    var t := Arrive(v, p);
    forall i, j | 0 <= i < j < |t.toUser| && t.toUser[i].pkt.Some? && t.toUser[j].pkt.Some?
      ensures Before(t.arrived, t.toUser[i].pkt.value, t.toUser[j].pkt.value)
    {
      StillBefore(v.arrived, t.toUser[i].pkt.value, t.toUser[j].pkt.value, p.id);
    }
    forall i, j | 0 <= i < |t.toUser| && t.toUser[i].pkt.Some? && 0 <= j < |t.pkts|
      ensures Before(t.arrived, t.toUser[i].pkt.value, t.pkts[j].id)
    {
      if j < |v.pkts| {
        StillBefore(v.arrived, t.toUser[i].pkt.value, t.pkts[j].id, p.id);
      } else {
        BeforeLast(v.arrived, t.toUser[i].pkt.value, p.id);
      }
    }
    forall i, j | 0 <= i < j < |t.pkts| ensures Before(t.arrived, t.pkts[i].id, t.pkts[j].id) {
      if j < |v.pkts| {
        StillBefore(v.arrived, t.pkts[i].id, t.pkts[j].id, p.id);
      } else {
        BeforeLast(v.arrived, t.pkts[i].id, p.id);
      }
    }
  }

  /** What becomes of the messages when a packet is handled: one is added for it, or for none, or none at all. */
  lemma PacketMoves(v: Vcon)
    requires v.pkts != []
    ensures var t := HandlePkt(v);
            && t.pkts == v.pkts[1..] && t.arrived == v.arrived
            && (t.toUser == v.toUser
                || (|t.toUser| == |v.toUser| + 1 && t.toUser[..|v.toUser|] == v.toUser
                    && (t.toUser[|v.toUser|].pkt.None? || t.toUser[|v.toUser|].pkt == Some(v.pkts[0].id))))
  {
  }

  lemma MovedInOrder(v: Vcon, t: Vcon)
    requires InOrder(v) && v.pkts != [] && t.pkts == v.pkts[1..] && t.arrived == v.arrived
    requires || t.toUser == v.toUser
             || (|t.toUser| == |v.toUser| + 1 && t.toUser[..|v.toUser|] == v.toUser
                 && (t.toUser[|v.toUser|].pkt.None? || t.toUser[|v.toUser|].pkt == Some(v.pkts[0].id)))
    ensures InOrder(t)
  {
    assert forall i :: 0 <= i < |v.toUser| ==> t.toUser[i] == v.toUser[i];
    assert forall j :: 0 <= j < |t.pkts| ==> t.pkts[j] == v.pkts[j + 1];
  }

  lemma PopKeepsOrder(v: Vcon, t: Vcon)
    requires InOrder(v) && v.toUser != [] && t.toUser == v.toUser[1..] && t.pkts == v.pkts && t.arrived == v.arrived
    ensures InOrder(t)
  {
    assert forall i :: 0 <= i < |t.toUser| ==> t.toUser[i] == v.toUser[i + 1];
  }

  lemma SameOrder(v: Vcon, t: Vcon)
    requires InOrder(v) && t.toUser == v.toUser && t.pkts == v.pkts && t.arrived == v.arrived
    ensures InOrder(t)
  {
  }

  lemma StepKeepsOrder(s: Session, ev: Event)
    requires Enabled(s, ev) && InOrder(s.vcon)
    ensures InOrder(Step(s, ev).vcon)
  {
    match ev
    case PktArrives(p) => ArriveKeepsOrder(s.vcon, p);
    case SocketWait(e) =>
    case ConsolePacket =>
      PacketMoves(s.vcon);
      MovedInOrder(s.vcon, HandlePkt(s.vcon));
    case ConsoleReply => SameOrder(s.vcon, HandleReply(s.vcon));
    case SocketReply => SockKeepsOrder(s);
    case ConsoleMessage(started) =>
      VconTakesOne(s, started);
      PopKeepsOrder(s.vcon, HandleVcon(s, started).vcon);
    case IdleCheck =>
  }

  lemma SockKeepsOrder(s: Session)
    requires s.sio.out != [] && InOrder(s.vcon)
    ensures InOrder(HandleSock(s).vcon)
  {
    if IsData(s.sio.out[0]) {
      LooksAt(s);
    } else {
      PassesOn(s);
    }
    SameOrder(s.vcon, HandleSock(s).vcon);
  }

  lemma {:induction false} RunKeepsOrder(states: seq<Session>, evs: seq<Event>, i: nat)
    requires IsRun(states, evs) && i < |states| && InOrder(states[0].vcon)
    ensures InOrder(states[i].vcon)
  {
    if i > 0 {
      RunKeepsOrder(states, evs, i - 1);
      OrderNext(states, evs, i - 1);
    }
  }

  lemma OrderNext(states: seq<Session>, evs: seq<Event>, n: nat)
    requires IsRun(states, evs) && n < |evs| && InOrder(states[n].vcon)
    ensures InOrder(states[n + 1].vcon)
  {
    StepKeepsOrder(states[n], evs[n]);
  }

  /** Over every run: when a message is handled, no packet that arrived earlier still waits to become one or to be handled. */
  lemma HandledInOrder(states: seq<Session>, evs: seq<Event>, i: nat, k: nat, other: nat)
    requires IsRun(states, evs) && i < |states| && InOrder(states[0].vcon)
    requires states[i].vcon.toUser != [] && states[i].vcon.toUser[0].pkt == Some(k)
    requires var v := states[i].vcon;
             || (exists j :: 1 <= j < |v.toUser| && v.toUser[j].pkt == Some(other))
             || (exists j :: 0 <= j < |v.pkts| && v.pkts[j].id == other)
    ensures Before(states[i].vcon.arrived, k, other)
  {
    RunKeepsOrder(states, evs, i);
  }

  lemma StartInOrder(sids: seq<nat>, vids: seq<nat>, pushMax: nat, split: bool, parse: bool, medium: bool, send: bool)
    ensures InOrder(Start(sids, vids, pushMax, split, parse, medium, send).vcon)
  {
  }
}
