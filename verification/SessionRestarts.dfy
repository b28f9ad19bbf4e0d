/**
 Reads that find only signals, over whole runs: while all is well no read is answered with nothing; a read goes on, the
 first time with all its room, and from the second time on with none.
 */
module SessionRestarts {
  import opened Common
  import opened SockioSpec
  import opened SockioStreams
  import opened SockioPool
  import opened SockioReplies
  import opened VconSpec
  import opened SessionSpec
  import opened SessionStream
  import opened SessionTheorems
  import opened SessionReads

  // ----- no read is answered with nothing -----

  /** While the socket is fine and in use, every answered read carries data, at the socket service and at the console. */
  ghost predicate NoEmptyRead(s: Session) { ReadsCarryData(s.sio) && FullReplies(s) }

  predicate FullReply(r: VReply) { r.result.ReadDone? ==> r.result.data != [] }

  predicate FullReplies(s: Session) {
    s.sio.state == Ok && s.socketActive ==> forall i :: 0 <= i < |s.vcon.replies| ==> FullReply(s.vcon.replies[i])
  }

  /** Data was looked at, nothing of it is for the reader, and the read goes on. */
  predicate GoesOn(s: Session) {
    s.sio.out != [] && IsData(s.sio.out[0]) && Shown(s, Looked(s, s.sio.out[0].data)) == [] && s.sio.state != Failed
  }

  lemma TakeLeavesMessage(s: Session, id: nat, data: seq<byte>)
    ensures var t := TakeData(s, id, data);
            && t.sio.port == s.sio.port && t.sio.recv == s.sio.recv && t.sio.out == s.sio.out && t.sio.state == s.sio.state
            && (CanSubmit(t.sio) <==> s.sio.state != Failed) && t.vcon == s.vcon
            && (t.socketActive ==> s.socketActive)
  {
  }

  /** The reply is gone, and otherwise only replies to the console and requests on the port may have been added. */
  predicate Handled(s: Session, t: Session)
    requires s.sio.out != []
  {
    && t.sio.recv == s.sio.recv && t.sio.out == s.sio.out[1..] && t.sio.state == s.sio.state
    && (t.socketActive ==> s.socketActive) && t.vcon == s.vcon.(replies := t.vcon.replies)
  }

  /** One receive more on the port. */
  predicate AskedAgain(before: seq<Req<VReq>>, after: seq<Req<VReq>>, q: VReq) {
    && |after| == |before| + 1 && after[..|before|] == before && after[|before|].Rx?
    && after[|before|].recv.cap == ReadSize(q) && after[|before|].recv.min == 1 && after[|before|].recv.user == Some(Reread(q))
  }

  lemma DecidedAgain(sio: Sio<VReq>, shown: seq<byte>, q: VReq)
    ensures var d := DecideData(sio, shown, q);
            if shown == [] && CanSubmit(sio)
            then d.Forward? && AskedAgain(sio.port, d.sio.port, q) && d.sio.recv == sio.recv && d.sio.out == sio.out && d.sio.state == sio.state
            else d == Reply(ReadDone(shown))
  {
  }

  /** The read that goes on is asked again, with the size its message says; any other is replied with what is shown. */
  lemma LooksAt(s: Session)
    requires s.sio.out != [] && IsData(s.sio.out[0])
    ensures var r, t := s.sio.out[0], HandleSock(s);
            var q := r.user.value;
            && Handled(s, t)
            && if GoesOn(s) then t.vcon == s.vcon && AskedAgain(s.sio.port, t.sio.port, q)
               else
                 && t.sio.port == s.sio.port
                 && t.vcon.replies == s.vcon.replies + [VReply(q.vid, q.pkt, ReadDone(Shown(s, Looked(s, r.data))))]
  {
    var r := s.sio.out[0];
    var q, shown := r.user.value, Shown(s, Looked(s, r.data));
    var taken := s.(sio := Take(s.sio));
    var u := TakeData(taken, r.id, r.data);
    SockCases(s);
    TakeLeavesMessage(taken, r.id, r.data);
    assert Shown(taken, Looked(taken, r.data)) == shown;
    DecidedAgain(u.sio, shown, q);
  }

  /** A reply without data changes neither what is asked nor what is answered otherwise. */
  lemma PassesOn(s: Session)
    requires s.sio.out != [] && !IsData(s.sio.out[0])
    ensures var r, t := s.sio.out[0], HandleSock(s);
            && Handled(s, t) && t.sio.port == s.sio.port
            && t.vcon.replies == if r.user.None? then s.vcon.replies
                                 else s.vcon.replies + [VReply(r.user.value.vid, r.user.value.pkt, ResultOf(r, r.user.value))]
  {
    FreedLeaves(s);
  }

  lemma FreedLeaves(s: Session)
    requires s.sio.out != []
    ensures Handled(s, Freed(s)) && Freed(s).sio.port == s.sio.port && Freed(s).vcon == s.vcon
  {
  }

  lemma OneMoreReply(s: Session, t: Session, r: VReply)
    requires FullReplies(s) && (t.sio.state == Ok && t.socketActive ==> s.sio.state == Ok && s.socketActive && FullReply(r))
    requires t.vcon.replies == s.vcon.replies + [r]
    ensures FullReplies(t)
  {
  }

  lemma SockKeepsNoEmptyRead(s: Session)
    requires s.sio.out != [] && NoEmptyRead(s)
    ensures NoEmptyRead(HandleSock(s))
  {
    var r, t := s.sio.out[0], HandleSock(s);
    if IsData(r) {
      LooksAt(s);
      if !GoesOn(s) {
        OneMoreReply(s, t, VReply(r.user.value.vid, r.user.value.pkt, ReadDone(Shown(s, Looked(s, r.data)))));
      }
    } else {
      PassesOn(s);
      if r.user.Some? {
        OneMoreReply(s, t, VReply(r.user.value.vid, r.user.value.pkt, ResultOf(r, r.user.value)));
      }
    }
  }

  lemma VconAdds(s: Session, started: bool)
    requires s.vcon.toUser != []
    ensures var t := HandleVcon(s, started);
            && t.sio.state == s.sio.state && t.sio.out == s.sio.out && (t.socketActive ==> s.socketActive)
            && (t.vcon.replies == s.vcon.replies
                || (|t.vcon.replies| == |s.vcon.replies| + 1 && t.vcon.replies == s.vcon.replies + [t.vcon.replies[|s.vcon.replies|]]
                    && (s.socketActive ==> FullReply(t.vcon.replies[|s.vcon.replies|]))))
  {
    var q, w := s.vcon.toUser[0], Wrote(s);
    var d := DecideVcon(w, q, started);
    MessageShape(s, started);
    DecisionShape(w, q, started);
    PoppedLeaves(s);
    ApplyReplies(Popped(w), q, d);
    NoReadRefusedEmpty(w, q, started);
  }

  lemma PoppedLeaves(s: Session)
    requires s.vcon.toUser != []
    ensures var w := Wrote(s);
            && Popped(w).vcon.replies == s.vcon.replies && (Popped(w).socketActive ==> s.socketActive)
            && w.sio.state == s.sio.state && w.sio.out == s.sio.out && w.socketActive == s.socketActive
  {
  }

  lemma ApplyReplies(s: Session, q: VReq, d: Decision)
    ensures Apply(s, q, d).vcon.replies == s.vcon.replies + (if d.Reply? then [VReply(q.vid, q.pkt, d.result)] else [])
    ensures Apply(s, q, d).socketActive == s.socketActive
  {
  }

  lemma NoReadRefusedEmpty(s: Session, q: VReq, started: bool)
    ensures var d := DecideVcon(s, q, started); s.socketActive && d.Reply? ==> !d.result.ReadDone?
  {
  }

  lemma VconKeepsNoEmptyRead(s: Session, started: bool)
    requires s.vcon.toUser != [] && NoEmptyRead(s)
    ensures NoEmptyRead(HandleVcon(s, started))
  {
    var t := HandleVcon(s, started);
    VconAdds(s, started);
    if t.vcon.replies != s.vcon.replies {
      OneMoreReply(s, t, t.vcon.replies[|s.vcon.replies|]);
    }
  }

  lemma WaitKeepsNoEmptyRead(s: Session, e: Env)
    requires EnvOk(s.sio, e) && RecvsOk(s.sio) && NoEmptyRead(s)
    ensures NoEmptyRead(s.(sio := WaitStep(s.sio, e)))
  {
    WaitKeepsReadsCarryData(s.sio, e);
    if WaitStep(s.sio, e).state == Ok {
      OkWasOk(s.sio, e);
    }
  }

  lemma StepKeepsNoEmptyRead(s: Session, ev: Event)
    requires Enabled(s, ev) && RecvsOk(s.sio) && NoEmptyRead(s)
    ensures NoEmptyRead(Step(s, ev))
  {
    match ev
    case PktArrives(p) =>
    case SocketWait(e) => WaitKeepsNoEmptyRead(s, e);
    case ConsolePacket => PktShape(s.vcon);
    case ConsoleReply =>
    case SocketReply => SockKeepsNoEmptyRead(s);
    case ConsoleMessage(started) => VconKeepsNoEmptyRead(s, started);
    case IdleCheck =>
  }

  /** Over every run from a new session: while the socket is fine and in use, no read is answered with nothing. */
  lemma {:induction false} RunAnswersReads(states: seq<Session>, evs: seq<Event>, i: nat, sids: set<nat>, vids: set<nat>)
    requires IsRun(states, evs) && i < |states| && NoEmptyRead(states[0]) && Sound(states[0], sids, vids)
    ensures NoEmptyRead(states[i])
  {
    if i > 0 {
      RunAnswersReads(states, evs, i - 1, sids, vids);
      RunIsSound(states, evs, i - 1, sids, vids);
      StepKeepsNoEmptyRead(states[i - 1], evs[i - 1]);
    }
  }

  lemma StartAnswersReads(sids: seq<nat>, vids: seq<nat>, pushMax: nat, split: bool, parse: bool, medium: bool, send: bool)
    ensures NoEmptyRead(Start(sids, vids, pushMax, split, parse, medium, send))
  {
  }

  // ----- how often a read has gone on -----

  /** This event makes the read of packet `k` go on. */
  predicate Restarts(s: Session, ev: Event, k: nat) { ev.SocketReply? && GoesOn(s) && s.sio.out[0].user.value.pkt == Some(k) }

  /** How often the read of packet `k` has gone on in the first `i` events. */
  function Rounds(states: seq<Session>, evs: seq<Event>, i: nat, k: nat): nat
    requires |states| == |evs| + 1 && i < |states|
  {
    if i == 0 then 0
    else Rounds(states, evs, i - 1, k) + (if Restarts(states[i - 1], evs[i - 1], k) then 1 else 0)
  }

  /** What is attached to a receive is a read, whose size field is zero exactly when it has gone on. */
  function SizeTells(rounds: nat -> nat): Option<VReq> -> bool {
    (u: Option<VReq>) =>
      u.Some? && u.value.op.VRead? && u.value.pkt.Some? && (u.value.op.size > 0 <==> rounds(u.value.pkt.value) == 0)
  }

  /** And the receive itself has room exactly when the read has gone on once at most. */
  function RoomTells(rounds: nat -> nat): RecvReq<VReq> -> bool {
    (r: RecvReq<VReq>) => SizeTells(rounds)(r.user) && (r.cap > 0 <==> rounds(r.user.value.pkt.value) <= 1)
  }

  /** A read the session has not looked at yet. */
  predicate NotBegun(q: VReq, rounds: nat -> nat)
    requires q.op.VRead?
  {
    q.pkt.Some? && q.op.size > 0 && rounds(q.pkt.value) == 0
  }

  ghost predicate RoomsTell(s: Session, rounds: nat -> nat) {
    && AllRecvs(s.sio, RoomTells(rounds)) && AllReaders(s.sio, SizeTells(rounds))
    && (forall i :: 0 <= i < |s.vcon.toUser| && s.vcon.toUser[i].op.VRead? ==> NotBegun(s.vcon.toUser[i], rounds))
    && (forall i :: 0 <= i < |s.vcon.pkts| && s.vcon.pkts[i].action.Read? ==>
          s.vcon.pkts[i].action.size > 0 && rounds(s.vcon.pkts[i].id) == 0)
    && (forall k :: rounds(k) > 0 ==> k in s.vcon.arrived)
  }

  lemma PortTells(s: Session, rounds: nat -> nat)
    requires AllRecvs(s.sio, RoomTells(rounds))
    ensures forall i :: 0 <= i < |s.sio.port| && s.sio.port[i].Rx? ==> SizeTells(rounds)(s.sio.port[i].recv.user)
  {
    forall i | 0 <= i < |s.sio.port| && s.sio.port[i].Rx? ensures SizeTells(rounds)(s.sio.port[i].recv.user) {
      assert RoomTells(rounds)(s.sio.port[i].recv);
    }
  }

  lemma WaitKeepsRooms(s: Session, e: Env, rounds: nat -> nat)
    requires EnvOk(s.sio, e) && RoomsTell(s, rounds)
    ensures RoomsTell(s.(sio := WaitStep(s.sio, e)), rounds)
  {
    PortTells(s, rounds);
    WaitKeepsAll(s.sio, e, RoomTells(rounds));
    WaitKeepsAllReaders(s.sio, e, SizeTells(rounds));
  }

  lemma PktKeepsRooms(s: Session, rounds: nat -> nat)
    requires s.vcon.pkts != [] && RoomsTell(s, rounds)
    ensures RoomsTell(s.(vcon := HandlePkt(s.vcon)), rounds)
  {
    PktShape(s.vcon);
    NewReadOfPacket(s.vcon);
    var t := HandlePkt(s.vcon);
    if |t.toUser| > |s.vcon.toUser| && t.toUser[|s.vcon.toUser|].op.VRead? {
      ReadTakesPacket(s.vcon);
    }
  }

  /** A read message stands for its packet. */
  lemma ReadTakesPacket(v: Vcon)
    requires v.pkts != [] && |HandlePkt(v).toUser| > |v.toUser| && HandlePkt(v).toUser[|v.toUser|].op.VRead?
    ensures HandlePkt(v).toUser[|v.toUser|].pkt == Some(v.pkts[0].id)
  {
  }

  lemma ForwardKeepsRooms(s: Session, q: VReq, started: bool, rounds: nat -> nat)
    requires CanSubmit(s.sio) && !q.op.VEnd? && AllRecvs(s.sio, RoomTells(rounds)) && (q.op.VRead? ==> NotBegun(q, rounds))
    ensures AllRecvs(Forwarded(s, q, started), RoomTells(rounds))
  {
    var t, n := Forwarded(s, q, started), |s.sio.port|;
    ForwardedRequest(s, q, started);
    if t.port[n].Rx? {
      assert RoomTells(rounds)(t.port[n].recv);
    }
    OneMoreRecv(s.sio, t, RoomTells(rounds));
  }

  lemma OneMoreRecv(sio: Sio<VReq>, t: Sio<VReq>, P: RecvReq<VReq> -> bool)
    requires AllRecvs(sio, P) && t.recv == sio.recv && |t.port| == |sio.port| + 1 && t.port[..|sio.port|] == sio.port
    requires t.port[|sio.port|].Rx? ==> P(t.port[|sio.port|].recv)
    ensures AllRecvs(t, P)
  {
    forall i | 0 <= i < |t.port| && t.port[i].Rx? ensures P(t.port[i].recv) {
      if i < |sio.port| {
        assert t.port[i] == t.port[..|sio.port|][i];
      }
    }
  }

  lemma VconAsks(s: Session, started: bool, rounds: nat -> nat)
    requires s.vcon.toUser != [] && AllRecvs(s.sio, RoomTells(rounds))
    requires s.vcon.toUser[0].op.VRead? ==> NotBegun(s.vcon.toUser[0], rounds)
    ensures var t := HandleVcon(s, started).sio; AllRecvs(t, RoomTells(rounds)) && t.recv == s.sio.recv && t.out == s.sio.out
  {
    var q, w := s.vcon.toUser[0], Wrote(s);
    var d := DecideVcon(w, q, started);
    MessageShape(s, started);
    DecisionShape(w, q, started);
    WroteAsks(s, rounds);
    if d.Forward? {
      ForwardKeepsRooms(w, q, started, rounds);
      ForwardedRequest(w, q, started);
    }
  }

  lemma WroteAsks(s: Session, rounds: nat -> nat)
    requires s.vcon.toUser != [] && AllRecvs(s.sio, RoomTells(rounds))
    ensures var t := Wrote(s).sio; AllRecvs(t, RoomTells(rounds)) && t.recv == s.sio.recv && t.out == s.sio.out
  {
  }

  lemma SameReaders(s: Session, t: Session, rounds: nat -> nat)
    requires RoomsTell(s, rounds) && s.vcon.toUser != [] && AllRecvs(t.sio, RoomTells(rounds))
    requires t.sio.recv == s.sio.recv && t.sio.out == s.sio.out && t.vcon.toUser == s.vcon.toUser[1..]
    requires t.vcon.pkts == s.vcon.pkts && t.vcon.arrived == s.vcon.arrived
    ensures RoomsTell(t, rounds)
  {
  }

  lemma MessageKeepsRooms(s: Session, started: bool, rounds: nat -> nat)
    requires s.vcon.toUser != [] && RoomsTell(s, rounds)
    ensures RoomsTell(HandleVcon(s, started), rounds)
  {
    VconAsks(s, started, rounds);
    VconTakesOne(s, started);
    SameReaders(s, HandleVcon(s, started), rounds);
  }

  // ----- a read that goes on is the only one of its packet -----

  function Next(rounds: nat -> nat, k: nat): nat -> nat { (x: nat) => if x == k then rounds(x) + 1 else rounds(x) }

  /** Nothing else stands for the packet of the reply that is looked at. */
  ghost predicate OnlyOne(s: Session, k: nat) {
    && (forall i :: 0 <= i < |s.vcon.pkts| ==> s.vcon.pkts[i].id != k)
    && (forall i :: 0 <= i < |s.vcon.toUser| ==> s.vcon.toUser[i].pkt != Some(k))
    && (forall i :: 0 <= i < |s.sio.recv| && s.sio.recv[i].user.Some? ==> s.sio.recv[i].user.value.pkt != Some(k))
    && (forall i :: 0 <= i < |s.sio.port| && s.sio.port[i].Rx? && s.sio.port[i].recv.user.Some? ==>
          s.sio.port[i].recv.user.value.pkt != Some(k))
    && (forall i :: 1 <= i < |s.sio.out| && s.sio.out[i].user.Some? ==> s.sio.out[i].user.value.pkt != Some(k))
  }

  lemma {:induction false} CountedPkt(pkts: seq<Pkt>, k: nat)
    ensures CountPkts(pkts, k) == 0 ==> forall i :: 0 <= i < |pkts| ==> pkts[i].id != k
  {
    if pkts != [] {
      CountedPkt(pkts[..|pkts| - 1], k);
    }
  }

  lemma NoneCounts<T, U>(list: seq<T>, f: T -> Tok<U>, w: Tok<U> -> nat)
    requires Sum(list, f, w) == 0
    ensures forall i :: 0 <= i < |list| ==> w(f(list[i])) == 0
  {
    forall i | 0 <= i < |list| ensures w(f(list[i])) == 0 {
      SumMember(list, i, f, w);
    }
  }

  lemma OnlyOneOf(s: Session, k: nat)
    requires ExactlyOnce(s) && s.sio.out != [] && s.sio.out[0].user.Some? && s.sio.out[0].user.value.pkt == Some(k)
    ensures OnlyOne(s, k)
  {
    var w := Attached(PktIs(k));
    assert Waiting(s, k) + CountAnswers(s.vcon.answers, k) == if k in s.vcon.arrived then 1 else 0;
    SumHead(s.sio.out, OutTok, w);
    assert w(OutTok(s.sio.out[0])) == 1;
    CountedPkt(s.vcon.pkts, k);
    NoneCounts(s.vcon.toUser, ReqTag, PktIs(k));
    NoneCounts(s.sio.recv, RecvTok, w);
    NoneCounts(s.sio.port, ReqTok, w);
    NoneCounts(s.sio.out[1..], OutTok, w);
    OnlyOneIs(s, k);
  }

  lemma OnlyOneIs(s: Session, k: nat)
    requires s.sio.out != []
    requires forall i :: 0 <= i < |s.vcon.pkts| ==> s.vcon.pkts[i].id != k
    requires forall i :: 0 <= i < |s.vcon.toUser| ==> PktIs(k)(ReqTag(s.vcon.toUser[i])) == 0
    requires forall i :: 0 <= i < |s.sio.recv| ==> Attached(PktIs(k))(RecvTok(s.sio.recv[i])) == 0
    requires forall i :: 0 <= i < |s.sio.port| ==> Attached(PktIs(k))(ReqTok(s.sio.port[i])) == 0
    requires forall i :: 0 <= i < |s.sio.out[1..]| ==> Attached(PktIs(k))(OutTok(s.sio.out[1..][i])) == 0
    ensures OnlyOne(s, k)
  {
    forall i | 1 <= i < |s.sio.out| && s.sio.out[i].user.Some? ensures s.sio.out[i].user.value.pkt != Some(k) {
      assert s.sio.out[1..][i - 1] == s.sio.out[i];
    }
    forall i | 0 <= i < |s.vcon.toUser| ensures s.vcon.toUser[i].pkt != Some(k) {
      assert PktIs(k)(ReqTag(s.vcon.toUser[i])) == 0;
    }
    forall i | 0 <= i < |s.sio.recv| && s.sio.recv[i].user.Some? ensures s.sio.recv[i].user.value.pkt != Some(k) {
      assert Attached(PktIs(k))(RecvTok(s.sio.recv[i])) == 0;
    }
    forall i | 0 <= i < |s.sio.port| && s.sio.port[i].Rx? && s.sio.port[i].recv.user.Some?
      ensures s.sio.port[i].recv.user.value.pkt != Some(k)
    {
      assert Attached(PktIs(k))(ReqTok(s.sio.port[i])) == 0;
    }
  }

  /** The other reads see no change. */
  lemma OthersUnchanged(s: Session, k: nat, rounds: nat -> nat)
    requires s.sio.out != [] && OnlyOne(s, k) && RoomsTell(s, rounds)
    ensures var t := s.(sio := s.sio.(out := s.sio.out[1..]));
            && AllRecvs(t.sio, RoomTells(Next(rounds, k))) && AllReaders(t.sio, SizeTells(Next(rounds, k)))
            && (forall i :: 0 <= i < |t.vcon.toUser| && t.vcon.toUser[i].op.VRead? ==> NotBegun(t.vcon.toUser[i], Next(rounds, k)))
            && (forall i :: 0 <= i < |t.vcon.pkts| && t.vcon.pkts[i].action.Read? ==>
                  t.vcon.pkts[i].action.size > 0 && Next(rounds, k)(t.vcon.pkts[i].id) == 0)
  {
    forall i | 0 <= i < |s.sio.recv| ensures RoomTells(Next(rounds, k))(s.sio.recv[i]) {
      assert RoomTells(rounds)(s.sio.recv[i]);
    }
    forall i | 0 <= i < |s.sio.port| && s.sio.port[i].Rx? ensures RoomTells(Next(rounds, k))(s.sio.port[i].recv) {
      assert RoomTells(rounds)(s.sio.port[i].recv);
    }
    forall i | 0 <= i < |s.sio.recv| ensures SizeTells(Next(rounds, k))(s.sio.recv[i].user) {
      assert RoomTells(Next(rounds, k))(s.sio.recv[i]);
    }
    forall i | 0 <= i < |s.sio.out[1..]| && s.sio.out[1..][i].RecvDone? ensures SizeTells(Next(rounds, k))(s.sio.out[1..][i].user) {
      assert SizeTells(rounds)(s.sio.out[i + 1].user);
    }
  }

  /** The read that goes on has no size any more, and room for once more if it had a size. */
  lemma RestartKeepsRooms(s: Session, rounds: nat -> nat, k: nat)
    requires s.sio.out != [] && GoesOn(s) && s.sio.out[0].user.value.pkt == Some(k) && OnlyOne(s, k) && RoomsTell(s, rounds)
    requires k in s.vcon.arrived
    ensures RoomsTell(HandleSock(s), Next(rounds, k))
  {
    var t, q, n := HandleSock(s), s.sio.out[0].user.value, |s.sio.port|;
    var gone := s.(sio := s.sio.(out := s.sio.out[1..]));
    assert SizeTells(rounds)(s.sio.out[0].user);
    LooksAt(s);
    OthersUnchanged(s, k, rounds);
    assert RoomTells(Next(rounds, k))(t.sio.port[n].recv);
    OneMoreRecv(gone.sio, t.sio, RoomTells(Next(rounds, k)));
    SameButRecvs(gone, t, Next(rounds, k));
  }

  lemma SameButRecvs(s: Session, t: Session, rounds: nat -> nat)
    requires AllRecvs(t.sio, RoomTells(rounds)) && AllReaders(s.sio, SizeTells(rounds))
    requires t.sio.recv == s.sio.recv && t.sio.out == s.sio.out && t.vcon == s.vcon
    requires forall i :: 0 <= i < |s.vcon.toUser| && s.vcon.toUser[i].op.VRead? ==> NotBegun(s.vcon.toUser[i], rounds)
    requires forall i :: 0 <= i < |s.vcon.pkts| && s.vcon.pkts[i].action.Read? ==>
               s.vcon.pkts[i].action.size > 0 && rounds(s.vcon.pkts[i].id) == 0
    requires forall k :: rounds(k) > 0 ==> k in s.vcon.arrived
    ensures RoomsTell(t, rounds)
  {
  }

  lemma OtherReplyKeepsRooms(s: Session, rounds: nat -> nat)
    requires s.sio.out != [] && !GoesOn(s) && RoomsTell(s, rounds)
    ensures RoomsTell(HandleSock(s), rounds)
  {
    if IsData(s.sio.out[0]) {
      LooksAt(s);
    } else {
      PassesOn(s);
    }
  }

  // ----- over whole runs -----

  function RoundsAt(states: seq<Session>, evs: seq<Event>, i: nat): nat -> nat
    requires |states| == |evs| + 1 && i < |states|
  {
    (k: nat) => Rounds(states, evs, i, k)
  }

  /** Every read that arrives asks for something. */
  predicate AsksForSomething(ev: Event) { ev.PktArrives? && ev.p.action.Read? ==> ev.p.action.size > 0 }

  lemma SameTells(u: Option<VReq>, rounds: nat -> nat, more: nat -> nat)
    requires SizeTells(rounds)(u) && forall k :: more(k) == rounds(k)
    ensures SizeTells(more)(u) && more(u.value.pkt.value) == rounds(u.value.pkt.value)
  {
    var k := u.value.pkt.value;
    assert more(k) == rounds(k);
  }

  lemma SameRooms(s: Session, rounds: nat -> nat, more: nat -> nat)
    requires RoomsTell(s, rounds) && forall k :: more(k) == rounds(k)
    ensures RoomsTell(s, more)
  {
    forall i | 0 <= i < |s.sio.recv| ensures RoomTells(more)(s.sio.recv[i]) && SizeTells(more)(s.sio.recv[i].user) {
      assert RoomTells(rounds)(s.sio.recv[i]);
      SameTells(s.sio.recv[i].user, rounds, more);
    }
    forall i | 0 <= i < |s.sio.port| && s.sio.port[i].Rx? ensures RoomTells(more)(s.sio.port[i].recv) {
      assert RoomTells(rounds)(s.sio.port[i].recv);
      SameTells(s.sio.port[i].recv.user, rounds, more);
    }
    forall i | 0 <= i < |s.sio.out| && s.sio.out[i].RecvDone? ensures SizeTells(more)(s.sio.out[i].user) {
      assert SizeTells(rounds)(s.sio.out[i].user);
      SameTells(s.sio.out[i].user, rounds, more);
    }
    assert forall i :: 0 <= i < |s.vcon.toUser| && s.vcon.toUser[i].op.VRead? ==> NotBegun(s.vcon.toUser[i], more);
    assert forall i :: 0 <= i < |s.vcon.pkts| && s.vcon.pkts[i].action.Read? ==> more(s.vcon.pkts[i].id) == 0;
  }

  lemma ArriveKeepsRooms(s: Session, p: Pkt, rounds: nat -> nat)
    requires RoomsTell(s, rounds) && p.id !in s.vcon.arrived && (p.action.Read? ==> p.action.size > 0)
    ensures RoomsTell(s.(vcon := Arrive(s.vcon, p)), rounds)
  {
  }

  /** Events other than a read going on leave the rounds as they are. */
  lemma OtherKeepsRooms(s: Session, ev: Event, rounds: nat -> nat)
    requires Enabled(s, ev) && RoomsTell(s, rounds) && AsksForSomething(ev) && !(ev.SocketReply? && GoesOn(s))
    ensures RoomsTell(Step(s, ev), rounds)
  {
    match ev
    case PktArrives(p) => ArriveKeepsRooms(s, p, rounds);
    case SocketWait(e) => WaitKeepsRooms(s, e, rounds);
    case ConsolePacket => PktKeepsRooms(s, rounds);
    case ConsoleReply =>
    case SocketReply => OtherReplyKeepsRooms(s, rounds);
    case ConsoleMessage(started) => MessageKeepsRooms(s, started, rounds);
    case IdleCheck =>
  }

  lemma GoingOnKeepsRooms(s: Session, rounds: nat -> nat) returns (k: nat)
    requires s.sio.out != [] && GoesOn(s) && RoomsTell(s, rounds) && ExactlyOnce(s)
    ensures s.sio.out[0].user.value.pkt == Some(k) && RoomsTell(HandleSock(s), Next(rounds, k))
  {
    assert SizeTells(rounds)(s.sio.out[0].user);
    k := s.sio.out[0].user.value.pkt.value;
    OnlyOneOf(s, k);
    assert Waiting(s, k) + CountAnswers(s.vcon.answers, k) == if k in s.vcon.arrived then 1 else 0;
    SumMember(s.sio.out, 0, OutTok, Attached(PktIs(k)));
    RestartKeepsRooms(s, rounds, k);
  }

  /**
   In every state of every run: a read's size field is zero exactly when the read has gone on, and its receive has no
   room exactly when it has gone on twice.
   */
  lemma {:induction false} RunTellsRooms(states: seq<Session>, evs: seq<Event>, i: nat, sids: set<nat>, vids: set<nat>)
    requires IsRun(states, evs) && i < |states| && RoomsTell(states[0], k => 0) && Sound(states[0], sids, vids)
    requires forall j :: 0 <= j < i ==> AsksForSomething(evs[j])
    ensures RoomsTell(states[i], RoundsAt(states, evs, i))
  {
    if i == 0 {
      SameRooms(states[0], k => 0, RoundsAt(states, evs, 0));
    } else {
      var s, ev, before := states[i - 1], evs[i - 1], RoundsAt(states, evs, i - 1);
      RunTellsRooms(states, evs, i - 1, sids, vids);
      RunIsSound(states, evs, i - 1, sids, vids);
      assert states[i] == Step(s, ev) && Enabled(s, ev);
      var now := EventKeepsRooms(s, ev, before);
      SameRooms(states[i], now, RoundsAt(states, evs, i));
    }
  }

  /** What one event does to the rounds. */
  lemma EventKeepsRooms(s: Session, ev: Event, rounds: nat -> nat) returns (now: nat -> nat)
    requires Enabled(s, ev) && RoomsTell(s, rounds) && AsksForSomething(ev) && ExactlyOnce(s)
    ensures RoomsTell(Step(s, ev), now) && forall k :: now(k) == rounds(k) + (if Restarts(s, ev, k) then 1 else 0)
  {
    if ev.SocketReply? && GoesOn(s) {
      var k := GoingOnKeepsRooms(s, rounds);
      now := Next(rounds, k);
    } else {
      OtherKeepsRooms(s, ev, rounds);
      now := rounds;
    }
  }

  lemma StartTellsRooms(sids: seq<nat>, vids: seq<nat>, pushMax: nat, split: bool, parse: bool, medium: bool, send: bool)
    ensures RoomsTell(Start(sids, vids, pushMax, split, parse, medium, send), k => 0)
  {
  }

  /** A read that goes on is asked again with room if and only if it had not gone on before. */
  lemma RereadHasRoomIff(states: seq<Session>, evs: seq<Event>, i: nat, sids: set<nat>, vids: set<nat>)
    requires IsRun(states, evs) && i < |evs| && RoomsTell(states[0], k => 0) && Sound(states[0], sids, vids)
    requires forall j :: 0 <= j < i ==> AsksForSomething(evs[j])
    requires evs[i].SocketReply? && GoesOn(states[i])
    ensures var q, port := states[i].sio.out[0].user.value, states[i + 1].sio.port;
            && q.pkt.Some? && |port| > 0 && port[|port| - 1].Rx? && port[|port| - 1].recv.user == Some(Reread(q))
            && (port[|port| - 1].recv.cap > 0 <==> Rounds(states, evs, i, q.pkt.value) == 0)
  {
    var s := states[i];
    RunTellsRooms(states, evs, i, sids, vids);
    assert SizeTells(RoundsAt(states, evs, i))(s.sio.out[0].user);
    AsksAgain(s);
    assert states[i + 1] == Step(s, evs[i]);
  }

  lemma AsksAgain(s: Session)
    requires s.sio.out != [] && GoesOn(s)
    ensures AskedAgain(s.sio.port, HandleSock(s).sio.port, s.sio.out[0].user.value)
  {
    LooksAt(s);
  }

  /** The other side closes the connection: a receive with room gets nothing. */
  predicate PeerCloses(s: Session, ev: Event) {
    && ev.SocketWait? && ev.e.outcome == SocketReady && ev.e.readable && ev.e.rx.Closed?
    && s.sio.recv != [] && s.sio.recv[0].cap > 0
  }

  lemma OnlyWaitsEnd(s: Session, ev: Event)
    requires Enabled(s, ev) && s.sio.state == Ok && !ev.SocketWait?
    ensures Step(s, ev).sio.state == Ok
  {
    match ev
    case SocketReply =>
      if IsData(s.sio.out[0]) {
        LooksAt(s);
      } else {
        PassesOn(s);
      }
    case ConsoleMessage(started) => VconAdds(s, started);
    case _ =>
  }

  /** The end of the file, when the other side has not closed, is the work of a read that has gone on twice. */
  lemma EndWithoutClosing(s: Session, ev: Event, rounds: nat -> nat) returns (k: nat)
    requires Enabled(s, ev) && s.sio.state == Ok && Step(s, ev).sio.state == Eof && !PeerCloses(s, ev) && RoomsTell(s, rounds)
    ensures rounds(k) >= 2
  {
    if !ev.SocketWait? {
      OnlyWaitsEnd(s, ev);
    }
    EofComes(s.sio, ev.e);
    var r := s.sio.recv[0];
    assert RoomTells(rounds)(r);
    k := r.user.value.pkt.value;
  }

  lemma {:induction false} RoundsGrow(states: seq<Session>, evs: seq<Event>, i: nat, j: nat, k: nat)
    requires |states| == |evs| + 1 && i <= j < |states|
    ensures Rounds(states, evs, i, k) <= Rounds(states, evs, j, k)
  {
    if i < j {
      RoundsGrow(states, evs, i, j - 1, k);
    }
  }

  /**
   Over every run from a new session in which the other side does not close the connection: the end of the file comes
   only after some read has found nothing but signals twice.
   */
  lemma {:induction false} EndOnlyAfterTwoRounds(states: seq<Session>, evs: seq<Event>, i: nat, sids: set<nat>, vids: set<nat>)
    returns (k: nat)
    requires IsRun(states, evs) && i < |states| && RoomsTell(states[0], k => 0) && Sound(states[0], sids, vids)
    requires states[0].sio.state == Ok && states[i].sio.state == Eof
    requires forall j :: 0 <= j < i ==> AsksForSomething(evs[j]) && !PeerCloses(states[j], evs[j])
    ensures Rounds(states, evs, i, k) >= 2
  {
    var s, ev := states[i - 1], evs[i - 1];
    if s.sio.state == Eof {
      k := EndOnlyAfterTwoRounds(states, evs, i - 1, sids, vids);
    } else {
      StaysEnded(s, ev);
      RunTellsRooms(states, evs, i - 1, sids, vids);
      k := EndWithoutClosing(s, ev, RoundsAt(states, evs, i - 1));
    }
    RoundsGrow(states, evs, i - 1, i, k);
  }

  /** From an error there is no way to the end of the file. */
  lemma StaysEnded(s: Session, ev: Event)
    requires Enabled(s, ev) && Step(s, ev).sio.state == Eof
    ensures s.sio.state != Failed
  {
    match ev
    case SocketWait(e) =>
      if s.sio.state == Failed {
        FailedStays(s.sio, e);
      }
    case SocketReply =>
      if IsData(s.sio.out[0]) {
        LooksAt(s);
      } else {
        PassesOn(s);
      }
    case ConsoleMessage(started) => VconAdds(s, started);
    case _ =>
  }
}
