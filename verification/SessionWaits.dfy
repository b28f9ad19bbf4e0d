/** A wait for a character whose time runs out in the very wait that finds one: it comes up in a run from a new session. */
module SessionWaits {
  import opened Common
  import opened SockioSpec
  import opened SockioTimers
  import opened VconSpec
  import opened SessionSpec
  import opened SessionLeads

  /** The first timer job expires, and there is a character. */
  const BothAtOnce := Env(SocketReady, false, true, [0], true, false, RecvAgain, SendAgain)

  lemma WaitHandled(s: Session, q: VReq)
    requires s.socketActive && CanSubmit(s.sio) && s.vcon.toUser == [q] && q.op.VWait?
    ensures HandleVcon(s, true) == s.(sio := SubmitWait(s.sio, true, Some(q)), vcon := s.vcon.(toUser := []))
  {
  }

  lemma WaitTaken(s: Session, w: WaitReq<VReq>) returns (t: Session)
    requires s.sio.state == Ok && s.sio.port == [Wt(w)] && s.sio.wait == [] && s.sio.recv == [] && s.sio.send == []
    ensures Leads(s, [SocketWait(TakesRequest)], t) && t == s.(sio := s.sio.(port := [], wait := [w]))
  {
    var none: seq<Req<VReq>> := [];
    assert s.sio.port[..0] == none && WaitsOf(none) == [] && RecvsOf(none) == [] && SendsOf(none) == [];
    t := s.(sio := s.sio.(port := [], wait := [w]));
    WaitLeads(s, TakesRequest, t.sio);
  }

  predicate NothingYet(sio: Sio<VReq>) { sio == Initial<VReq>(sio.free, 0) }

  lemma WaitIsAsked(s: Session, p: Pkt) returns (evs: seq<Event>, t: Session)
    requires Ready(s) && NothingYet(s.sio) && p.action.WaitChar? && p.id !in s.vcon.arrived
    ensures Leads(s, evs, t) && t.sio.port == [] && t.sio.recv == [] && t.sio.send == [] && t.sio.state == Ok && t.sio.out == []
    ensures |t.sio.wait| == 1 && t.sio.wait[0].job == Some(0) && t.sio.jobs == [Job(0, t.sio.wait[0].id)]
  {
    var s1 := PacketArrives(s, p);
    WaitHandled(s1, s1.vcon.toUser[0]);
    var s2 := HandleVcon(s1, true);
    LeadsMore(s, [PktArrives(p), ConsolePacket], s1, ConsoleMessage(true));
    t := WaitTaken(s2, s2.sio.port[0].wait);
    evs := [PktArrives(p), ConsolePacket] + [ConsoleMessage(true)] + [SocketWait(TakesRequest)];
    LeadsOn(s, [PktArrives(p), ConsolePacket] + [ConsoleMessage(true)], s2, [SocketWait(TakesRequest)], t);
  }

  lemma CanHappen(sio: Sio<VReq>)
    requires sio.state == Ok && sio.port == [] && sio.recv == [] && sio.send == []
    requires |sio.wait| == 1 && sio.wait[0].job == Some(0) && sio.jobs == [Job(0, sio.wait[0].id)]
    ensures Promised(sio, BothAtOnce) && !WaiterNotStale(sio, BothAtOnce)
    ensures var (s1, p) := Prepare(sio); s1 == sio && p.wait == Some(sio.wait[0])
  {
    assert sio.jobs[0].jid == BothAtOnce.expired[0];
  }

  /**
   A new session and one wait: when its time runs out just as a character comes, its message has been answered with a
   timeout and its job is gone, before the answer that there is a character.
   */
  lemma AnsweredAlready(sids: seq<nat>, vids: seq<nat>) returns (evs: seq<Event>, t: Session)
    requires sids != [] && Counts(sids, vids)
    ensures Leads(Start(sids, vids, 0, false, false, false, false), evs, t)
    ensures Promised(t.sio, BothAtOnce) && !WaiterNotStale(t.sio, BothAtOnce)
    ensures var (s1, p) := Prepare(t.sio);
            var u := Signals(s1, BothAtOnce);
            p.wait.Some? && SeenReadable(p, BothAtOnce) && u.jobs == [] && |u.out| == 1 && TimedOut(u.out[0], p.wait.value.id)
  {
    var s := Start(sids, vids, 0, false, false, false, false);
    evs, t := WaitIsAsked(s, Pkt(0, 1, WaitChar(1000)));
    CanHappen(t.sio);
    OneExpires(t.sio);
  }

  lemma OneExpires(sio: Sio<VReq>)
    requires |sio.wait| == 1 && sio.wait[0].job == Some(0) && sio.jobs == [Job(0, sio.wait[0].id)] && sio.out == []
    ensures var u := Signals(sio, BothAtOnce); u.jobs == [] && |u.out| == 1 && TimedOut(u.out[0], sio.wait[0].id)
  {
    assert BothAtOnce.expired[..0] == [];
    assert Expire(sio, []) == sio;
    assert Expire(sio, BothAtOnce.expired) == ExpireOne(sio, 0);
  }
}
