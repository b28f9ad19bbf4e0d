/** What the session serves, told from its events: when it gives the socket up, which mode it is in, what it looks at. */
module SessionFlags {
  import opened Common
  import opened SignalBytes
  import opened SockioSpec
  import opened VconSpec
  import opened SessionSpec
  import opened SessionStream
  import opened SessionReads
  import opened SessionRestarts

  /** Nothing is listed at the socket service. */
  predicate NothingListed(s: Sio<VReq>) { |s.recv| == 0 && |s.wait| == 0 && |s.send| == 0 }

  /** The reply that is next is an error note, or signals only for a read that cannot go on. */
  predicate ReplyEnds(s: Session) {
    s.sio.out != [] &&
    var r := s.sio.out[0];
    || r.ErrorNote?
    || (r.RecvDone? && r.data != [] && r.user.Some? && Shown(s, Looked(s, r.data)) == [] && s.sio.state == Failed)
  }

  /** The event with which the session stops using the socket. */
  predicate GivesUp(s: Session, ev: Event) {
    match ev
    case SocketReply => ReplyEnds(s)
    case ConsoleMessage(_) => s.vcon.toUser != [] && s.vcon.toUser[0].op == VEnd && NothingListed(s.sio)
    case IdleCheck => NothingListed(s.sio) && !s.vconActive
    case _ => false
  }

  /** The console message that ends the console's part. */
  predicate Ends(s: Session, ev: Event) { ev.ConsoleMessage? && s.vcon.toUser != [] && s.vcon.toUser[0].op == VEnd }

  /** The mode a message sets: cooked, raw, or medium if that is allowed. */
  function ModeSet(s: Session, ev: Event): Option<nat> {
    if ev.ConsoleMessage? && s.vcon.toUser != [] && s.socketActive && s.vcon.toUser[0].op.VMode? then
      var m := s.vcon.toUser[0].op.mode;
      if m == 0 || m == 1 || (m == 2 && s.doMedium) then Some(m) else None
    else None
  }

  function Or(m: Option<nat>, mode: nat): nat { if m.Some? then m.value else mode }

  predicate FlagsAre(s: Session, ev: Event, t: Session) {
    && (t.socketActive <==> s.socketActive && !GivesUp(s, ev))
    && (t.vconActive <==> s.vconActive && !Ends(s, ev))
    && t.mode == Or(ModeSet(s, ev), s.mode)
    && t.splitLines == s.splitLines && t.parseSignals == s.parseSignals && t.doMedium == s.doMedium && t.sendMode == s.sendMode
  }

  lemma TakenFlags(s: Session, id: nat, data: seq<byte>)
    ensures var t, shown := TakeData(s, id, data), Shown(s, Looked(s, data));
            && (t.socketActive <==> s.socketActive && (shown != [] || s.sio.state != Failed))
            && t.vconActive == s.vconActive && t.mode == s.mode && t.splitLines == s.splitLines
            && t.parseSignals == s.parseSignals && t.doMedium == s.doMedium && t.sendMode == s.sendMode
  {
    TakeLeavesMessage(s, id, data);
  }

  lemma AppliedFlags(s: Session, q: VReq, d: Decision)
    ensures Apply(s, q, d) == s.(sio := Apply(s, q, d).sio, vcon := Apply(s, q, d).vcon)
  {
  }

  lemma ReplyFlags(s: Session)
    requires s.sio.out != []
    ensures FlagsAre(s, SocketReply, HandleSock(s))
  {
    var r := s.sio.out[0];
    if IsData(r) {
      DataFlags(s);
    } else {
      OtherFlags(s);
    }
  }

  lemma DataFlags(s: Session)
    requires s.sio.out != [] && IsData(s.sio.out[0])
    ensures FlagsAre(s, SocketReply, HandleSock(s))
  {
    var r, taken := s.sio.out[0], s.(sio := Take(s.sio));
    var u, shown := TakeData(taken, r.id, r.data), Shown(s, Looked(s, r.data));
    SockCases(s);
    TakenFlags(taken, r.id, r.data);
    AppliedFlags(u, r.user.value, DecideData(u.sio, shown, r.user.value));
  }

  lemma OtherShape(s: Session)
    requires s.sio.out != [] && !IsData(s.sio.out[0])
    ensures var t := HandleSock(s);
            t == s.(sio := t.sio, vcon := t.vcon, socketActive := s.socketActive && !s.sio.out[0].ErrorNote?)
  {
    var r := s.sio.out[0];
    if r.user.Some? {
      AppliedFlags(Freed(s), r.user.value, Reply(ResultOf(r, r.user.value)));
    }
  }

  lemma OtherFlags(s: Session)
    requires s.sio.out != [] && !IsData(s.sio.out[0])
    ensures FlagsAre(s, SocketReply, HandleSock(s))
  {
    OtherShape(s);
  }

  lemma MessageFlags(s: Session, started: bool)
    requires s.vcon.toUser != []
    ensures FlagsAre(s, ConsoleMessage(started), HandleVcon(s, started))
  {
    AppliedFlags(Popped(Wrote(s)), s.vcon.toUser[0], DecideVcon(Wrote(s), s.vcon.toUser[0], started));
  }

  /** Every event leaves the flags and the mode as they are, but for these. */
  lemma StepFlags(s: Session, ev: Event)
    requires Enabled(s, ev)
    ensures FlagsAre(s, ev, Step(s, ev))
  {
    match ev
    case SocketReply => ReplyFlags(s);
    case ConsoleMessage(started) => MessageFlags(s, started);
    case _ =>
  }

  // ----- over whole runs -----

  /** The mode set last; cooked in the beginning. */
  function ModeAt(states: seq<Session>, evs: seq<Event>, i: nat): nat
    requires i <= |evs| && i <= |states|
  {
    if i == 0 then 0 else Or(ModeSet(states[i - 1], evs[i - 1]), ModeAt(states, evs, i - 1))
  }

  predicate ServesUntil(states: seq<Session>, evs: seq<Event>, i: nat)
    requires i <= |evs| && i < |states|
  {
    && (states[i].socketActive <==> forall k :: 0 <= k < i ==> !GivesUp(states[k], evs[k]))
    && (states[i].vconActive <==> forall k :: 0 <= k < i ==> !Ends(states[k], evs[k]))
    && states[i].mode == ModeAt(states, evs, i)
  }

  lemma ServesNext(states: seq<Session>, evs: seq<Event>, n: nat)
    requires n < |evs| && n + 1 < |states| && ServesUntil(states, evs, n) && FlagsAre(states[n], evs[n], states[n + 1])
    ensures ServesUntil(states, evs, n + 1)
  {
  }

  lemma FlagsNext(states: seq<Session>, evs: seq<Event>, n: nat)
    requires IsRun(states, evs) && n < |evs|
    ensures FlagsAre(states[n], evs[n], states[n + 1])
  {
    StepFlags(states[n], evs[n]);
  }

  lemma {:induction false} RunServes(states: seq<Session>, evs: seq<Event>, i: nat)
    requires IsRun(states, evs) && i < |states| && ServesUntil(states, evs, 0)
    ensures ServesUntil(states, evs, i)
  {
    if i > 0 {
      RunServes(states, evs, i - 1);
      FlagsNext(states, evs, i - 1);
      ServesNext(states, evs, i - 1);
    }
  }

  /** A new session serves the socket until it gives it up and the console until its end, first in cooked mode. */
  lemma NewSessionServes(states: seq<Session>, evs: seq<Event>, i: nat, sids: seq<nat>, vids: seq<nat>, pushMax: nat,
                         split: bool, parse: bool, medium: bool, send: bool)
    requires IsRun(states, evs) && i < |states| && states[0] == Start(sids, vids, pushMax, split, parse, medium, send)
    ensures ServesUntil(states, evs, i)
  {
    RunServes(states, evs, i);
  }

  predicate StaysUnused(states: seq<Session>, n: nat)
    requires n + 1 < |states|
  {
    !states[n].socketActive ==> !states[n + 1].socketActive
  }

  lemma UnusedNext(states: seq<Session>, evs: seq<Event>, n: nat)
    requires IsRun(states, evs) && n < |evs|
    ensures StaysUnused(states, n)
  {
    FlagsNext(states, evs, n);
  }

  lemma {:induction false} UnusedForGood(states: seq<Session>, j: nat, i: nat)
    requires j <= i < |states| && !states[j].socketActive && forall n :: j <= n < i ==> StaysUnused(states, n)
    ensures !states[i].socketActive
  {
    if j < i {
      UnusedForGood(states, j, i - 1);
      assert StaysUnused(states, i - 1);
    }
  }

  lemma NoteIsTaken(states: seq<Session>, evs: seq<Event>, j: nat)
    requires IsRun(states, evs) && j < |evs|
    requires evs[j].SocketReply? && states[j].sio.out != [] && states[j].sio.out[0].ErrorNote?
    ensures !states[j + 1].socketActive
  {
    FlagsNext(states, evs, j);
  }

  /** Once the user has been told of an error the socket is never used again. */
  lemma ErrorEnds(states: seq<Session>, evs: seq<Event>, j: nat, i: nat)
    requires IsRun(states, evs) && j < i < |states|
    requires evs[j].SocketReply? && states[j].sio.out != [] && states[j].sio.out[0].ErrorNote?
    ensures !states[i].socketActive
  {
    NoteIsTaken(states, evs, j);
    forall n | j + 1 <= n < i ensures StaysUnused(states, n) {
      UnusedNext(states, evs, n);
    }
    UnusedForGood(states, j + 1, i);
  }

  // ----- what is looked at -----

  /** Only in cooked mode, and only if that is wanted, is data looked at line by line. */
  lemma LooksByLine(s: Session, data: seq<byte>)
    ensures if s.splitLines && s.mode == 0 then Looked(s, data) == LineOf(data) && Rest(s, data) == TailOf(data)
            else Looked(s, data) == data && Rest(s, data) == []
  {
  }

  /** Bytes 3 to 6 are signals, Ctrl-C to Ctrl-F, and each has its bit in this order. */
  lemma SignalTable(bytes: seq<byte>, b: byte)
    ensures IsSignal(b) <==> b == 3 || b == 4 || b == 5 || b == 6
    ensures MaskOf(bytes) == [3 in bytes, 4 in bytes, 5 in bytes, 6 in bytes]
  {
  }
}
