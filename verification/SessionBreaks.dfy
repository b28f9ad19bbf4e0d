/** Breaks over whole runs: which tasks get which of them, and when. */
module SessionBreaks {
  import opened Common
  import opened SignalBytes
  import opened SockioSpec
  import opened VconSpec
  import opened SessionSpec
  import opened SessionStream
  import opened SessionReads

  /** The signal bytes an event looks at. */
  function SignalsSeen(s: Session, ev: Event): seq<byte> {
    if ev.SocketReply? && s.sio.out != [] && IsData(s.sio.out[0]) && s.parseSignals
    then SignalsIn(Looked(s, s.sio.out[0].data))
    else []
  }

  function Posts(s: Session, ev: Event): seq<Posting> {
    var bytes := SignalsSeen(s, ev);
    if bytes == [] then [] else [Posting(bytes, s.vcon.readPort, s.vcon.writePort)]
  }

  lemma ApplyPostsNothing(s: Session, q: VReq, d: Decision)
    ensures Apply(s, q, d).posted == s.posted
  {
  }

  lemma TakePosts(s: Session, id: nat, data: seq<byte>)
    ensures TakeData(s, id, data).posted == PostSignals(s, Looked(s, data)).posted
  {
  }

  lemma DataPosts(s: Session, id: nat, data: seq<byte>, q: VReq)
    ensures HandleData(s, id, data, q).posted == PostSignals(s, Looked(s, data)).posted
  {
    var t := TakeData(s, id, data);
    TakePosts(s, id, data);
    ApplyPostsNothing(t, q, DecideData(t.sio, Shown(s, Looked(s, data)), q));
  }

  /** Taking the reply off the port does not change what is posted for it. */
  lemma PostsOfData(s: Session)
    requires s.sio.out != [] && IsData(s.sio.out[0])
    ensures var taken := s.(sio := Take(s.sio));
            PostSignals(taken, Looked(taken, s.sio.out[0].data)).posted == s.posted + Posts(s, SocketReply)
  {
    assert s.posted + [] == s.posted;
  }

  lemma OtherPostsNothing(s: Session)
    requires s.sio.out != [] && !IsData(s.sio.out[0])
    ensures HandleSock(s).posted == s.posted
  {
    var r := s.sio.out[0];
    if r.user.Some? {
      ApplyPostsNothing(Freed(s), r.user.value, Reply(ResultOf(r, r.user.value)));
    }
  }

  lemma ReplyPosts(s: Session)
    requires s.sio.out != []
    ensures HandleSock(s).posted == s.posted + Posts(s, SocketReply)
  {
    var r := s.sio.out[0];
    if IsData(r) {
      SockCases(s);
      DataPosts(s.(sio := Take(s.sio)), r.id, r.data, r.user.value);
      PostsOfData(s);
    } else {
      OtherPostsNothing(s);
      assert s.posted + [] == s.posted;
    }
  }

  lemma MessagePostsNothing(s: Session, started: bool)
    requires s.vcon.toUser != []
    ensures HandleVcon(s, started).posted == s.posted
  {
    ApplyPostsNothing(Popped(Wrote(s)), s.vcon.toUser[0], DecideVcon(Wrote(s), s.vcon.toUser[0], started));
  }

  /** The console is signalled when signal bytes are looked at, with the ports of that moment, and at no other time. */
  lemma StepPosts(s: Session, ev: Event)
    requires Enabled(s, ev)
    ensures Step(s, ev).posted == s.posted + Posts(s, ev)
  {
    assert s.posted + [] == s.posted;
    match ev
    case SocketReply => ReplyPosts(s);
    case ConsoleMessage(started) => MessagePostsNothing(s, started);
    case _ =>
  }

  /** This event sends this break. */
  predicate Breaks(s: Session, ev: Event, b: Break) {
    SignalsSeen(s, ev) != [] && b.task in SignalTargets(s.vcon) && b.mask == MaskOf(SignalsSeen(s, ev))
  }

  lemma TargetsGetIt(v: Vcon, mask: seq<bool>, b: Break)
    ensures b in BreaksTo(v.readPort, v.writePort, mask) <==> b.task in SignalTargets(v) && b.mask == mask
  {
  }

  lemma BreaksOfMore(posted: seq<Posting>, p: Posting, b: Break)
    ensures b in BreaksOf(posted + [p]) <==> b in BreaksOf(posted) || b in BreaksTo(p.reader, p.writer, MaskOf(p.bytes))
  {
    assert (posted + [p])[..|posted|] == posted;
  }

  lemma PostsBreak(posted: seq<Posting>, s: Session, ev: Event, b: Break)
    ensures b in BreaksOf(posted + Posts(s, ev)) <==> b in BreaksOf(posted) || Breaks(s, ev, b)
  {
    var bytes := SignalsSeen(s, ev);
    if bytes == [] {
      assert posted + [] == posted;
    } else {
      BreaksOfMore(posted, Posting(bytes, s.vcon.readPort, s.vcon.writePort), b);
      TargetsGetIt(s.vcon, MaskOf(bytes), b);
    }
  }

  /** This break has been sent. */
  predicate Got(s: Session, b: Break) { b in BreaksOf(s.posted) }

  ghost predicate SentBefore(states: seq<Session>, evs: seq<Event>, i: nat, b: Break)
    requires |states| == |evs| + 1 && i <= |evs|
  {
    exists j :: 0 <= j < i && Breaks(states[j], evs[j], b)
  }

  lemma SentOneMore(states: seq<Session>, evs: seq<Event>, i: nat, b: Break)
    requires |states| == |evs| + 1 && i < |evs|
    ensures SentBefore(states, evs, i + 1, b) <==> SentBefore(states, evs, i, b) || Breaks(states[i], evs[i], b)
  {
  }

  /**
   Over every run: a task has got a break of these signals if and only if, at some moment at which it was the last reader's
   or the last writer's, data was looked at in which just these signals occurred.
   */
  lemma {:induction false} BreaksSentIff(states: seq<Session>, evs: seq<Event>, i: nat, b: Break)
    requires IsRun(states, evs) && i < |states| && states[0].posted == []
    ensures Got(states[i], b) <==> SentBefore(states, evs, i, b)
  {
    if i > 0 {
      BreaksSentIff(states, evs, i - 1, b);
      StepInRunBreaks(states, evs, i - 1, b);
      SentOneMore(states, evs, i - 1, b);
    }
  }

  lemma StepInRunBreaks(states: seq<Session>, evs: seq<Event>, j: nat, b: Break)
    requires IsRun(states, evs) && j < |evs|
    ensures Got(states[j + 1], b) <==> Got(states[j], b) || Breaks(states[j], evs[j], b)
  {
    StepInRunPosts(states, evs, j);
    PostsBreak(states[j].posted, states[j], evs[j], b);
  }

  lemma StepInRunPosts(states: seq<Session>, evs: seq<Event>, j: nat)
    requires IsRun(states, evs) && j < |evs|
    ensures states[j + 1].posted == states[j].posted + Posts(states[j], evs[j])
  {
    StepPosts(states[j], evs[j]);
  }
}
