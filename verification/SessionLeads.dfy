/** Runs in pieces: how one state leads to another. */
module SessionLeads {
  import opened Common
  import opened SockioSpec
  import opened VconSpec
  import opened SessionSpec

  /** How many messages the two services begin with: the console raises its number to eight. */
  predicate Counts(sids: seq<nat>, vids: seq<nat>) { |vids| == if |sids| < 8 then 8 else |sids| }

  /** The wait that takes what is on the port. */
  const TakesRequest := Env(SignalsOnly, true, false, [], false, false, RecvAgain, SendAgain)

  function Receives(res: RecvResult): Env { Env(SocketReady, false, false, [], true, false, res, SendAgain) }

  function Sends(n: nat): Env { Env(SocketReady, false, false, [], false, true, RecvAgain, Sent(n)) }

  lemma OneStep(s: Session, ev: Event)
    requires Enabled(s, ev)
    ensures IsRun([s, Step(s, ev)], [ev])
  {
  }

  lemma RunJoin(a: seq<Session>, evs: seq<Event>, b: seq<Session>, more: seq<Event>)
    requires IsRun(a, evs) && IsRun(b, more) && a[|evs|] == b[0]
    ensures IsRun(a + b[1..], evs + more)
  {
    var states, events := a + b[1..], evs + more;
    forall i | 0 <= i < |events| ensures Enabled(states[i], events[i]) && states[i + 1] == Step(states[i], events[i]) {
      if i < |evs| {
        assert states[i] == a[i] && states[i + 1] == a[i + 1] && events[i] == evs[i];
      } else {
        assert states[i] == b[i - |evs|] && states[i + 1] == b[i - |evs| + 1] && events[i] == more[i - |evs|];
      }
    }
  }

  /** `t` is reached from `s` by these events. */
  ghost predicate Leads(s: Session, evs: seq<Event>, t: Session) {
    exists states: seq<Session> :: IsRun(states, evs) && states[0] == s && states[|evs|] == t
  }

  lemma LeadsOne(s: Session, ev: Event)
    requires Enabled(s, ev)
    ensures Leads(s, [ev], Step(s, ev))
  {
    OneStep(s, ev);
    assert [s, Step(s, ev)][0] == s && [s, Step(s, ev)][|[ev]|] == Step(s, ev);
  }

  lemma LeadsOn(s: Session, evs: seq<Event>, t: Session, more: seq<Event>, u: Session)
    requires Leads(s, evs, t) && Leads(t, more, u)
    ensures Leads(s, evs + more, u)
  {
    var a: seq<Session> :| IsRun(a, evs) && a[0] == s && a[|evs|] == t;
    var b: seq<Session> :| IsRun(b, more) && b[0] == t && b[|more|] == u;
    RunJoin(a, evs, b, more);
    var states := a + b[1..];
    assert states[0] == s && states[|evs + more|] == u;
  }

  lemma LeadsMore(s: Session, evs: seq<Event>, t: Session, ev: Event)
    requires Leads(s, evs, t) && Enabled(t, ev)
    ensures Leads(s, evs + [ev], Step(t, ev))
  {
    LeadsOne(t, ev);
    LeadsOn(s, evs, t, [ev], Step(t, ev));
  }

  lemma WaitLeads(s: Session, e: Env, t: Sio<VReq>)
    requires EnvOk(s.sio, e) && WaitStep(s.sio, e) == t
    ensures Leads(s, [SocketWait(e)], s.(sio := t))
  {
    LeadsOne(s, SocketWait(e));
  }

  // ----- packets -----

  /** What a packet asks of the session. */
  function Asks(a: Action): Option<VOp> {
    match a
    case Write(data) => Some(VWrite(data))
    case Read(buf, size) => Some(VRead(buf, size))
    case WaitChar(us) => Some(VWait(us))
    case ScreenMode(mode) => Some(VMode(ModeByte(mode)))
    case _ => None
  }

  /** A packet becomes the next message. */
  lemma PacketArrives(s: Session, p: Pkt) returns (t: Session)
    requires s.vcon.pkts == [] && s.vcon.free != [] && s.vcon.state == VOpen && Asks(p.action).Some? && p.id !in s.vcon.arrived
    ensures Leads(s, [PktArrives(p), ConsolePacket], t)
    ensures t == s.(vcon := t.vcon) && t.vcon.pkts == [] && t.vcon.state == VOpen && t.vcon.free == s.vcon.free[1..]
    ensures t.vcon.toUser == s.vcon.toUser + [VReq(s.vcon.free[0], Some(p.id), Asks(p.action).value)]
    ensures t.vcon.arrived == s.vcon.arrived + [p.id] && t.vcon.replies == s.vcon.replies && t.vcon.answers == s.vcon.answers
  {
    var s1 := s.(vcon := Arrive(s.vcon, p));
    t := s1.(vcon := HandlePkt(s1.vcon));
    LeadsOne(s, PktArrives(p));
    LeadsMore(s, [PktArrives(p)], s1, ConsolePacket);
    assert [PktArrives(p)] + [ConsolePacket] == [PktArrives(p), ConsolePacket];
  }

  /** A read is asked for. */
  function AskFor(p: Pkt): seq<Event> { [PktArrives(p), ConsolePacket, ConsoleMessage(false)] }

  /** A session that could start a read. */
  predicate Ready(s: Session) {
    s.socketActive && CanSubmit(s.sio) && s.vcon.state == VOpen && s.vcon.pkts == [] && s.vcon.toUser == [] && s.vcon.free != []
  }

  lemma ReadHandled(s: Session, q: VReq)
    requires s.socketActive && CanSubmit(s.sio) && s.vcon.toUser == [q] && q.op.VRead?
    ensures HandleVcon(s, false) == s.(sio := SubmitRecv(s.sio, q.op.buf, q.op.size, 1, Some(q)), vcon := s.vcon.(toUser := []))
  {
  }

  lemma ReadAsked(s: Session, p: Pkt) returns (t: Session, q: VReq)
    requires Ready(s) && p.action.Read? && p.id !in s.vcon.arrived
    ensures q == VReq(s.vcon.free[0], Some(p.id), VRead(p.action.buf, p.action.size))
    ensures Leads(s, AskFor(p), t) && t == s.(sio := SubmitRecv(s.sio, q.op.buf, q.op.size, 1, Some(q)), vcon := t.vcon)
    ensures t.vcon.state == VOpen && t.vcon.pkts == [] && t.vcon.toUser == [] && t.vcon.free == s.vcon.free[1..]
    ensures t.vcon.arrived == s.vcon.arrived + [p.id] && t.vcon.replies == s.vcon.replies
  {
    var s1 := PacketArrives(s, p);
    q := VReq(s.vcon.free[0], Some(p.id), VRead(p.action.buf, p.action.size));
    assert s1.vcon.toUser == [q];
    ReadHandled(s1, q);
    t := HandleVcon(s1, false);
    LeadsMore(s, [PktArrives(p), ConsolePacket], s1, ConsoleMessage(false));
    assert [PktArrives(p), ConsolePacket] + [ConsoleMessage(false)] == AskFor(p);
  }
}
