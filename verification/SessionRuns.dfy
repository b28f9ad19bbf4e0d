/** Runs put together: what a session can come to, step by step. */
module SessionRuns {
  import opened SignalBytes
  import opened SockioSpec
  import opened VconSpec
  import opened VconService
  import opened SessionSpec
  import opened SessionTheorems
  import opened SessionStream
  import opened SessionOneReader

  /** A run from a sound state with one reader, who keeps to that. */
  ghost predicate IsHistory(states: seq<Session>, evs: seq<Event>, n: nat, sids: set<nat>, vids: set<nat>) {
    && IsRun(states, evs) && OneRead(states[0], n) && Sound(states[0], sids, vids)
    && forall k :: 0 <= k < |evs| ==> Disciplined(states[k], evs[k], n)
  }

  ghost predicate Reached(s: Session, n: nat, sids: set<nat>, vids: set<nat>) {
    exists states: seq<Session>, evs: seq<Event> :: IsHistory(states, evs, n, sids, vids) && states[|evs|] == s
  }

  lemma RunOfNothing(s: Session)
    ensures IsRun([s], [])
  {
  }

  lemma HistoryBegins(s: Session, n: nat, sids: set<nat>, vids: set<nat>)
    requires OneRead(s, n) && Sound(s, sids, vids)
    ensures Reached(s, n, sids, vids)
  {
    RunOfNothing(s);
    HistoryReaches([s], [], s, n, sids, vids);
  }

  lemma StartIsReached(sids: seq<nat>, vids: seq<nat>, pushMax: nat, split: bool, parse: bool, medium: bool, send: bool, n: nat)
    requires Distinct(sids) && Distinct(vids) && 0 < n <= pushMax + 1
    ensures Reached(Start(sids, vids, pushMax, split, parse, medium, send), n, set i | i in sids, set i | i in vids)
  {
    StartIsSound(sids, vids, pushMax, split, parse, medium, send);
    StartIsOneRead(sids, vids, pushMax, split, parse, medium, send, n);
    HistoryBegins(Start(sids, vids, pushMax, split, parse, medium, send), n, set i | i in sids, set i | i in vids);
  }

  lemma RunMore(states: seq<Session>, evs: seq<Event>, ev: Event)
    requires IsRun(states, evs) && Enabled(states[|evs|], ev)
    ensures IsRun(states + [Step(states[|evs|], ev)], evs + [ev])
  {
    var more, events := states + [Step(states[|evs|], ev)], evs + [ev];
    forall i | 0 <= i < |events| ensures Enabled(more[i], events[i]) && more[i + 1] == Step(more[i], events[i]) {
      if i < |evs| {
        assert more[i] == states[i] && more[i + 1] == states[i + 1] && events[i] == evs[i];
      }
    }
  }

  lemma DisciplineMore(states: seq<Session>, evs: seq<Event>, t: Session, ev: Event, n: nat)
    requires |states| == |evs| + 1 && Disciplined(states[|evs|], ev, n)
    requires forall k :: 0 <= k < |evs| ==> Disciplined(states[k], evs[k], n)
    ensures forall k :: 0 <= k < |evs + [ev]| ==> Disciplined((states + [t])[k], (evs + [ev])[k], n)
  {
    forall k | 0 <= k < |evs + [ev]| ensures Disciplined((states + [t])[k], (evs + [ev])[k], n) {
      if k < |evs| {
        assert (states + [t])[k] == states[k] && (evs + [ev])[k] == evs[k];
      }
    }
  }

  /** One more event. */
  lemma ReachedMore(s: Session, ev: Event, n: nat, sids: set<nat>, vids: set<nat>)
    requires Reached(s, n, sids, vids) && Enabled(s, ev) && Disciplined(s, ev, n)
    ensures Reached(Step(s, ev), n, sids, vids)
  {
    var states: seq<Session>, evs: seq<Event> :| IsHistory(states, evs, n, sids, vids) && states[|evs|] == s;
    var t := Step(s, ev);
    RunMore(states, evs, ev);
    DisciplineMore(states, evs, t, ev, n);
    HistoryReaches(states + [t], evs + [ev], t, n, sids, vids);
  }

  lemma HistoryReaches(states: seq<Session>, evs: seq<Event>, t: Session, n: nat, sids: set<nat>, vids: set<nat>)
    requires IsHistory(states, evs, n, sids, vids) && states[|evs|] == t
    ensures Reached(t, n, sids, vids)
  {
  }

  /** What is reached is sound, and its read stream is in order. */
  lemma ReachedIsGood(s: Session, n: nat, sids: set<nat>, vids: set<nat>)
    requires Reached(s, n, sids, vids)
    ensures OneRead(s, n) && Sound(s, sids, vids)
  {
    var states: seq<Session>, evs: seq<Event> :| IsHistory(states, evs, n, sids, vids) && states[|evs|] == s;
    EndToEnd(states, evs, |evs|, n);
    RunIsSound(states, evs, |evs|, sids, vids);
  }

  /**
   What a disciplined session guarantees whenever it is looked at: received bytes are accounted for in order, the
   answers carry exactly the bytes looked at that are no signals, and no packet is answered twice or forgotten.
   */
  lemma ReachedAccounts(s: Session, n: nat, sids: set<nat>, vids: set<nat>)
    requires Reached(s, n, sids, vids)
    ensures s.sio.state == Ok ==> s.sio.hist.received == s.consumed + DataOf(s.sio.out) + s.sio.push
    ensures s.consumed <= s.sio.hist.received
    ensures AnswerData(s.vcon.answers) + ReplyData(s.vcon.replies) == if s.parseSignals then Visible(s.consumed) else s.consumed
    ensures forall k: nat :: Waiting(s, k) + CountAnswers(s.vcon.answers, k) == if k in s.vcon.arrived then 1 else 0
  {
    ReachedIsGood(s, n, sids, vids);
    StreamAccounts(s, n);
    OnceAccounts(s);
  }

  lemma StreamAccounts(s: Session, n: nat)
    requires OneRead(s, n)
    ensures s.sio.state == Ok ==> s.sio.hist.received == s.consumed + DataOf(s.sio.out) + s.sio.push
    ensures s.consumed <= s.sio.hist.received
    ensures AnswerData(s.vcon.answers) + ReplyData(s.vcon.replies) == if s.parseSignals then Visible(s.consumed) else s.consumed
  {
    AccountOf(s, n);
  }

  lemma OnceAccounts(s: Session)
    requires ExactlyOnce(s)
    ensures forall k: nat :: Waiting(s, k) + CountAnswers(s.vcon.answers, k) == if k in s.vcon.arrived then 1 else 0
  {
  }

  lemma {:induction false} PktsReached(s: Session, n: nat, sids: set<nat>, vids: set<nat>)
    requires Reached(s, n, sids, vids)
    ensures Reached(s.(vcon := HandlePkts(s.vcon)), n, sids, vids)
    decreases |s.vcon.pkts|
  {
    if s.vcon.pkts == [] {
      assert s.(vcon := HandlePkts(s.vcon)) == s;
    } else {
      PktTakesOne(s.vcon);
      ReachedMore(s, ConsolePacket, n, sids, vids);
      PktsReached(s.(vcon := HandlePkt(s.vcon)), n, sids, vids);
    }
  }

  lemma {:induction false} RepliesReached(s: Session, n: nat, sids: set<nat>, vids: set<nat>)
    requires Reached(s, n, sids, vids)
    ensures Reached(s.(vcon := HandleReplies(s.vcon)), n, sids, vids)
    decreases |s.vcon.replies|
  {
    if s.vcon.replies == [] {
      assert s.(vcon := HandleReplies(s.vcon)) == s;
    } else {
      ReachedMore(s, ConsoleReply, n, sids, vids);
      RepliesReached(s.(vcon := HandleReply(s.vcon)), n, sids, vids);
    }
  }

  lemma PortsReached(s: Session, pktSig: bool, vmsgSig: bool, n: nat, sids: set<nat>, vids: set<nat>)
    requires Reached(s, n, sids, vids)
    ensures Reached(s.(vcon := Drained(s.vcon, pktSig, vmsgSig)), n, sids, vids)
  {
    var s1 := if pktSig then s.(vcon := HandlePkts(s.vcon)) else s;
    PktsReached(s, n, sids, vids);
    RepliesReached(s1, n, sids, vids);
    assert s.(vcon := Drained(s.vcon, pktSig, vmsgSig)) == if vmsgSig then s1.(vcon := HandleReplies(s1.vcon)) else s1;
  }
}
