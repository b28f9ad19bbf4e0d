/**
 Whole runs of a session: every packet is answered exactly once, every message of both pools is always in exactly
 one place, sending and timing keep their invariants.
 */
module SessionTheorems {
  import opened Common
  import opened SockioSpec
  import opened SockioStreams
  import opened SockioPool
  import opened SockioTimers
  import opened VconSpec
  import opened SessionSpec

  // ----- console messages, wherever they are -----

  /** A console message as a token: its own number and the packet it stands for. */
  function ReqTag(q: VReq): Tok<nat> { Tok(q.vid, q.pkt) }

  function ReplyTag(r: VReply): Tok<nat> { Tok(r.vid, r.pkt) }

  /** A socket message weighs as much as the console message attached to it. */
  function Attached(w: Tok<nat> -> nat): Tok<VReq> -> nat {
    (t: Tok<VReq>) => AttachedWeight(w, t)
  }

  function AttachedWeight(w: Tok<nat> -> nat, t: Tok<VReq>): nat {
    if t.user.Some? then w(ReqTag(t.user.value)) else 0
  }

  /** The console messages in use: queued to the session, attached to a socket message, or on their way back. */
  ghost function InUse(s: Session, w: Tok<nat> -> nat): nat {
    Sum(s.vcon.toUser, ReqTag, w) + Pool(s.sio, Attached(w)) + Sum(s.vcon.replies, ReplyTag, w)
  }

  lemma ReplyWeighs(s: Session, q: VReq, result: VResult, w: Tok<nat> -> nat)
    ensures InUse(ReplyTo(s, q, result), w) == InUse(s, w) + w(ReqTag(q))
  {
    SumSnoc(s.vcon.replies, VReply(q.vid, q.pkt, result), ReplyTag, w);
  }

  lemma PushBackWeighs(sio: Sio<VReq>, data: seq<byte>, v: Tok<VReq> -> nat)
    ensures Pool(PushBack(sio, data), v) == Pool(sio, v)
  {
  }

  /** Taking a reply and freeing its message leaves only the message attached to it to be dealt with. */
  lemma TakeAndFree(sio: Sio<VReq>, w: Tok<nat> -> nat)
    requires sio.out != []
    ensures var v := Attached(w);
            Pool(FreeMsg(Take(sio), sio.out[0].id), v) + v(OutTok(sio.out[0])) == Pool(sio, v)
  {
    var v := Attached(w);
    TakeMovesOne(sio, v);
    FreeKeepsPool(Take(sio), sio.out[0].id, v);
  }

  lemma SubmitWeighs(sio: Sio<VReq>, m: Req<VReq>, t: Sio<VReq>, w: Tok<nat> -> nat)
    requires sio.free != [] && ReqTok(m).id == sio.free[0]
    requires t.free == sio.free[1..] && t.port == sio.port + [m] && t.recv == sio.recv && t.send == sio.send
    requires t.wait == sio.wait && t.out == sio.out && t.held == sio.held
    ensures Pool(t, Attached(w)) == Pool(sio, Attached(w)) + Attached(w)(ReqTok(m))
  {
    SubmitMovesOne(sio, m, t, Attached(w));
  }

  lemma ApplyWeighs(s: Session, q: VReq, d: Decision, w: Tok<nat> -> nat)
    requires d.Forward? ==> Pool(d.sio, Attached(w)) == Pool(s.sio, Attached(w)) + w(ReqTag(q))
    ensures InUse(Apply(s, q, d), w) == InUse(s, w) + w(ReqTag(q))
    ensures var v := Apply(s, q, d).vcon; v == s.vcon.(replies := v.replies)
  {
    match d
    case Reply(result) => ReplyWeighs(s, q, result, w);
    case Forward(sio) =>
  }

  lemma DataWeighs(s: Session, id: nat, data: seq<byte>, q: VReq, w: Tok<nat> -> nat)
    requires id in s.sio.held
    ensures InUse(HandleData(s, id, data, q), w) == InUse(s, w) + w(ReqTag(q))
    ensures var v := HandleData(s, id, data, q).vcon; v == s.vcon.(replies := v.replies)
  {
    var s1 := TakeData(s, id, data);
    TakeDataWeighs(s, id, data, w);
    var shown := Shown(s, Looked(s, data));
    if shown == [] && CanSubmit(s1.sio) {
      SubmitWeighs(s1.sio, Rx(RecvReq(s1.sio.free[0], ReadBuf(q), ReadSize(q), 1, Some(Reread(q)))),
                   SubmitRecv(s1.sio, ReadBuf(q), ReadSize(q), 1, Some(Reread(q))), w);
    }
    ApplyWeighs(s1, q, DecideData(s1.sio, shown, q), w);
  }

  lemma TakeDataWeighs(s: Session, id: nat, data: seq<byte>, w: Tok<nat> -> nat)
    requires id in s.sio.held
    ensures InUse(TakeData(s, id, data), w) == InUse(s, w) && TakeData(s, id, data).vcon == s.vcon
  {
    PushBackWeighs(s.sio, Rest(s, data), Attached(w));
    FreeKeepsPool(if Rest(s, data) != [] then PushBack(s.sio, Rest(s, data)) else s.sio, id, Attached(w));
  }

  lemma FreedWeighs(s: Session, w: Tok<nat> -> nat)
    requires s.sio.out != []
    ensures InUse(Freed(s), w) + AttachedWeight(w, OutTok(s.sio.out[0])) == InUse(s, w) && Freed(s).vcon == s.vcon
  {
    TakeAndFree(s.sio, w);
  }

  lemma SockWeighs(s: Session, w: Tok<nat> -> nat)
    requires s.sio.out != []
    ensures InUse(HandleSock(s), w) == InUse(s, w)
    ensures var v := HandleSock(s).vcon; v == s.vcon.(replies := v.replies)
  {
    var r := s.sio.out[0];
    FreedWeighs(s, w);
    if r.user.Some? {
      var q := r.user.value;
      if r.RecvDone? && r.data != [] {
        TakeMovesOne(s.sio, Attached(w));
        DataWeighs(s.(sio := Take(s.sio)), r.id, r.data, q, w);
      } else {
        ApplyWeighs(Freed(s), q, Reply(ResultOf(r, q)), w);
      }
    }
  }

  lemma ForwardWeighs(s: Session, q: VReq, started: bool, w: Tok<nat> -> nat)
    ensures var d := DecideVcon(s, q, started);
            d.Forward? ==> Pool(d.sio, Attached(w)) == Pool(s.sio, Attached(w)) + w(ReqTag(q))
  {
    var d := DecideVcon(s, q, started);
    if d.Forward? {
      SubmitWeighs(s.sio, d.sio.port[|s.sio.port|], d.sio, w);
    }
  }

  lemma VconWeighs(s: Session, started: bool, w: Tok<nat> -> nat)
    requires s.vcon.toUser != []
    ensures InUse(HandleVcon(s, started), w) == InUse(s, w)
    ensures var v := HandleVcon(s, started).vcon; v == s.vcon.(replies := v.replies, toUser := v.toUser)
  {
    var q := s.vcon.toUser[0];
    SumHead(s.vcon.toUser, ReqTag, w);
    ForwardWeighs(Wrote(s), q, started, w);
    ApplyWeighs(Popped(Wrote(s)), q, DecideVcon(Wrote(s), q, started), w);
  }

  // ----- every packet is answered exactly once -----

  function PktIs(k: nat): Tok<nat> -> nat { (t: Tok<nat>) => if t.user == Some(k) then 1 else 0 }

  function CountPkts(pkts: seq<Pkt>, k: nat): nat {
    if pkts == [] then 0 else CountPkts(pkts[..|pkts| - 1], k) + (if pkts[|pkts| - 1].id == k then 1 else 0)
  }

  function CountAnswers(answers: seq<Answer>, k: nat): nat {
    if answers == [] then 0
    else CountAnswers(answers[..|answers| - 1], k) + (if answers[|answers| - 1].pkt == k then 1 else 0)
  }

  lemma {:induction false} PktsHead(pkts: seq<Pkt>, k: nat)
    requires pkts != []
    ensures CountPkts(pkts, k) == (if pkts[0].id == k then 1 else 0) + CountPkts(pkts[1..], k)
  {
    var n := |pkts| - 1;
    if n == 0 {
      assert pkts[1..] == [] && pkts[..0] == [];
    } else {
      PktsHead(pkts[..n], k);
      assert pkts[..n][1..] == pkts[1..][..n - 1];
    }
  }

  lemma AnswerCounts(v: Vcon, id: nat, res1: int, res2: int, data: seq<byte>, k: nat)
    ensures CountAnswers(AnswerPkt(v, id, res1, res2, data).answers, k) ==
              CountAnswers(v.answers, k) + (if id == k then 1 else 0)
  {
    assert (v.answers + [Answer(id, res1, res2, data)])[..|v.answers|] == v.answers;
  }

  /** Where packet `k` is while it is unanswered: still queued, or stood for by a console message. */
  ghost function Waiting(s: Session, k: nat): nat {
    CountPkts(s.vcon.pkts, k) + InUse(s, PktIs(k))
  }

  /** Every packet that arrived is either answered, once, or in exactly one place; and no other packet is answered. */
  ghost predicate ExactlyOnce(s: Session) {
    forall k: nat :: Waiting(s, k) + CountAnswers(s.vcon.answers, k) == if k in s.vcon.arrived then 1 else 0
  }

  /** Every console message is free or in use in exactly one place. */
  ghost predicate ConsolePool(s: Session, vids: set<nat>) {
    forall v: nat :: Places(s, IdIs(v)) == if v in vids then 1 else 0
  }

  /** What handling a packet does to the message pool and to the packet. */
  lemma PktWeighs(s: Session, k: nat)
    requires s.vcon.pkts != []
    ensures var t := s.(vcon := HandlePkt(s.vcon));
            Waiting(t, k) + CountAnswers(t.vcon.answers, k) == Waiting(s, k) + CountAnswers(s.vcon.answers, k)
  {
    var v, w := s.vcon, PktIs(k);
    var p := v.pkts[0];
    PktsHead(v.pkts, k);
    var t := HandlePkt(v);
    PktShape(v);
    if |t.toUser| > |v.toUser| {
      SumSnoc(v.toUser, t.toUser[|v.toUser|], ReqTag, w);
    }
    if |t.answers| > |v.answers| {
      var a := t.answers[|v.answers|];
      AnswerCounts(v, a.pkt, a.res1, a.res2, a.data, k);
    }
  }

  /** A packet is answered at once or handed to a fresh message, never both; only the end message has no packet. */
  ghost predicate PktHandled(v: Vcon, t: Vcon, id: nat) {
    && t.replies == v.replies && t.arrived == v.arrived && t.pkts == v.pkts
    && |t.toUser| >= |v.toUser| && |t.answers| >= |v.answers|
    && (if |t.answers| > |v.answers|
        then t.answers == v.answers + [t.answers[|v.answers|]] && t.answers[|v.answers|].pkt == id && t.answers[|v.answers|].data == []
        else t.answers == v.answers && |t.toUser| > |v.toUser|)
    && (if |t.toUser| > |v.toUser|
        then
          var q := t.toUser[|v.toUser|];
          && t.toUser == v.toUser + [q] && v.free != [] && t.free == v.free[1..]
          && q.vid == v.free[0] && q.pkt == (if t.answers == v.answers then Some(id) else None)
        else t.toUser == v.toUser && t.free == v.free)
  }

  lemma AnsweredShape(v: Vcon, t: Vcon, id: nat, res1: int, res2: int)
    requires t.replies == v.replies && t.arrived == v.arrived && t.pkts == v.pkts
    requires t.toUser == v.toUser && t.free == v.free && t.answers == v.answers
    ensures PktHandled(v, AnswerPkt(t, id, res1, res2, []), id)
  {
  }

  lemma PostedShape(v: Vcon, t: Vcon, id: nat, op: VOp, becomesError: bool)
    requires t.replies == v.replies && t.arrived == v.arrived && t.pkts == v.pkts
    requires t.toUser == v.toUser && t.free == v.free && t.answers == v.answers
    ensures PktHandled(v, PostOrFail(t, id, op, becomesError), id)
  {
  }

  lemma PktShape(v: Vcon)
    requires v.pkts != []
    ensures PktHandled(v.(pkts := v.pkts[1..]), HandlePkt(v), v.pkts[0].id)
  {
    var p := v.pkts[0];
    var v1 := v.(pkts := v.pkts[1..]);
    match p.action
    case ScreenMode(mode) => PostedShape(v1, v1.(mode := ModeByte(mode)), p.id, VMode(ModeByte(mode)), false);
    case Write(data) => PostedShape(v1, v1, p.id, VWrite(data), true);
    case Read(buf, size) => PostedShape(v1, v1, p.id, VRead(buf, size), true);
    case WaitChar(us) => PostedShape(v1, v1, p.id, VWait(us), true);
    case End =>
      var left := (v.openCnt - 1) % 0x1_0000_0000;
      AnsweredShape(v1, v1.(openCnt := left), p.id, DOSTRUE, 0);
    case _ =>
  }

  /** A weight that does not look at the packet. */
  ghost predicate IdOnly(w: Tok<nat> -> nat) { forall id: nat, p: Option<nat> :: w(Tok(id, p)) == w(Tok(id, None)) }

  lemma PktKeepsPlaces(s: Session, w: Tok<nat> -> nat)
    requires s.vcon.pkts != [] && IdOnly(w)
    ensures Places(s.(vcon := HandlePkt(s.vcon)), w) == Places(s, w)
  {
    var v, t := s.vcon, HandlePkt(s.vcon);
    PktShape(v);
    if |t.toUser| > |v.toUser| {
      var q := t.toUser[|v.toUser|];
      SumSnoc(v.toUser, q, ReqTag, w);
      SumHead(v.free, IdleTok, w);
      assert w(Tok(q.vid, q.pkt)) == w(Tok(q.vid, None));
    }
  }

  lemma ReplyHandled(s: Session, w: Tok<nat> -> nat)
    requires s.vcon.replies != []
    ensures var t := s.(vcon := HandleReply(s.vcon));
            InUse(t, w) + w(ReplyTag(s.vcon.replies[0])) == InUse(s, w)
  {
    SumHead(s.vcon.replies, ReplyTag, w);
  }

  lemma StepKeepsExactlyOnce(s: Session, ev: Event)
    requires Enabled(s, ev) && ExactlyOnce(s)
    ensures ExactlyOnce(Step(s, ev))
  {
    var t := Step(s, ev);
    forall k: nat ensures Waiting(t, k) + CountAnswers(t.vcon.answers, k) == if k in t.vcon.arrived then 1 else 0 {
      assert Waiting(s, k) + CountAnswers(s.vcon.answers, k) == if k in s.vcon.arrived then 1 else 0;
      match ev
      case PktArrives(p) =>
        assert (s.vcon.pkts + [p])[..|s.vcon.pkts|] == s.vcon.pkts;
      case SocketWait(e) => WaitKeepsPool(s.sio, e, Attached(PktIs(k)));
      case ConsolePacket => PktWeighs(s, k); PktShape(s.vcon);
      case ConsoleReply => ReplyKeepsCount(s, k);
      case SocketReply => SockWeighs(s, PktIs(k));
      case ConsoleMessage(started) => VconWeighs(s, started, PktIs(k));
      case IdleCheck =>
    }
  }

  lemma ReplyKeepsCount(s: Session, k: nat)
    requires s.vcon.replies != []
    ensures var t := s.(vcon := HandleReply(s.vcon));
            Waiting(t, k) + CountAnswers(t.vcon.answers, k) == Waiting(s, k) + CountAnswers(s.vcon.answers, k)
  {
    ReplyHandled(s, PktIs(k));
    var r := s.vcon.replies[0];
    if r.pkt.Some? {
      var v1 := s.vcon.(replies := s.vcon.replies[1..], free := s.vcon.free + [r.vid]);
      AnswerCounts(v1, r.pkt.value, Codes(r.result).0, Codes(r.result).1,
                   if r.result.ReadDone? then r.result.data else [], k);
    }
  }

  /** The weight of all console messages, free and in use. */
  ghost function Places(s: Session, w: Tok<nat> -> nat): nat { Sum(s.vcon.free, IdleTok, w) + InUse(s, w) }

  lemma ReplyKeepsPlaces(s: Session, w: Tok<nat> -> nat)
    requires s.vcon.replies != [] && IdOnly(w)
    ensures Places(s.(vcon := HandleReply(s.vcon)), w) == Places(s, w)
  {
    var r := s.vcon.replies[0];
    ReplyHandled(s, w);
    SumSnoc(s.vcon.free, r.vid, IdleTok, w);
    assert w(Tok(r.vid, r.pkt)) == w(Tok(r.vid, None));
  }

  lemma StepKeepsPlaces(s: Session, ev: Event, w: Tok<nat> -> nat)
    requires Enabled(s, ev) && IdOnly(w)
    ensures Places(Step(s, ev), w) == Places(s, w)
  {
    match ev
    case PktArrives(p) =>
    case SocketWait(e) => WaitKeepsPool(s.sio, e, Attached(w));
    case ConsolePacket => PktKeepsPlaces(s, w);
    case ConsoleReply => ReplyKeepsPlaces(s, w);
    case SocketReply => SockWeighs(s, w);
    case ConsoleMessage(started) => VconWeighs(s, started, w);
    case IdleCheck =>
  }

  lemma StepKeepsConsolePool(s: Session, ev: Event, vids: set<nat>)
    requires Enabled(s, ev) && ConsolePool(s, vids)
    ensures ConsolePool(Step(s, ev), vids)
  {
    forall v: nat ensures Places(Step(s, ev), IdIs(v)) == if v in vids then 1 else 0 {
      assert IdOnly(IdIs<nat>(v));
      StepKeepsPlaces(s, ev, IdIs(v));
      assert Places(s, IdIs(v)) == if v in vids then 1 else 0;
    }
  }

  // ----- the socket service inside a session -----

  /** What the socket service keeps whatever the session does. */
  ghost predicate ServiceOk(sio: Sio<VReq>, sids: set<nat>) {
    JobsMatch(sio) && Partitioned(sio, sids) && RecvsOk(sio)
  }

  /** Any of the three submissions. */
  lemma SubmitKeepsService(sio: Sio<VReq>, m: Req<VReq>, t: Sio<VReq>, sids: set<nat>)
    requires ServiceOk(sio, sids) && CanSubmit(sio)
    requires match m
      case Rx(r) => t == SubmitRecv(sio, r.buf, r.cap, r.min, r.user) && r.id == sio.free[0] && RecvOk(r)
      case Tx(x) => t == SubmitSend(sio, x.load, x.user) && x.id == sio.free[0]
      case Wt(w) => t == SubmitWait(sio, w.job.Some?, w.user) && w == t.port[|sio.port|].wait
    ensures ServiceOk(t, sids)
  {
    assert t.port == sio.port + [m] && ReqTok(m).id == sio.free[0];
    forall id: nat ensures Pool(t, IdIs<VReq>(id)) == Pool(sio, IdIs<VReq>(id)) {
      SubmitMovesOne(sio, m, t, IdIs<VReq>(id));
    }
    if m.Wt? {
      SubmitKeepsJobs(sio, m.wait.job.Some?, m.wait.user);
    } else {
      OtherSubmitKeepsJobs(sio, m, t);
    }
  }

  /** Forwarding a console message is one of the three submissions. */
  function Forwarded(s: Session, q: VReq, started: bool): Sio<VReq>
    requires CanSubmit(s.sio) && !q.op.VEnd?
  {
    match q.op
    case VWrite(data) => SubmitSend(s.sio, Own(data), Some(q))
    case VMode(_) => SubmitSend(s.sio, Shared, Some(q))
    case VRead(buf, size) => SubmitRecv(s.sio, buf, size, 1, Some(q))
    case VWait(_) => SubmitWait(s.sio, started, Some(q))
  }

  lemma DecisionShape(s: Session, q: VReq, started: bool)
    ensures var d := DecideVcon(s, q, started);
            d.Forward? ==> CanSubmit(s.sio) && !q.op.VEnd? && d.sio == Forwarded(s, q, started)
  {
  }

  lemma ForwardKeepsService(s: Session, q: VReq, started: bool, t: Sio<VReq>, sids: set<nat>)
    requires ServiceOk(s.sio, sids) && CanSubmit(s.sio) && !q.op.VEnd?
    requires t == Forwarded(s, q, started)
    ensures ServiceOk(t, sids)
  {
    if q.op.VRead? {
      RecvKeepsService(s.sio, q.op.buf, q.op.size, q, sids);
    } else if q.op.VWait? {
      WaitCharKeepsService(s.sio, started, q, sids);
    } else {
      var load := if q.op.VWrite? then Own(q.op.data) else Shared;
      assert t == SubmitSend(s.sio, load, Some(q));
      SendKeepsService(s.sio, load, q, sids);
    }
  }

  lemma WaitCharKeepsService(sio: Sio<VReq>, started: bool, q: VReq, sids: set<nat>)
    requires ServiceOk(sio, sids) && CanSubmit(sio)
    ensures ServiceOk(SubmitWait(sio, started, Some(q)), sids)
  {
    var t := SubmitWait(sio, started, Some(q));
    SubmitKeepsService(sio, t.port[|sio.port|], t, sids);
  }

  lemma RecvKeepsService(sio: Sio<VReq>, buf: nat, size: nat, q: VReq, sids: set<nat>)
    requires ServiceOk(sio, sids) && CanSubmit(sio)
    ensures ServiceOk(SubmitRecv(sio, buf, size, 1, Some(q)), sids)
  {
    var t := SubmitRecv(sio, buf, size, 1, Some(q));
    SubmitKeepsService(sio, t.port[|sio.port|], t, sids);
  }

  lemma VconKeepsService(s: Session, started: bool, sids: set<nat>)
    requires s.vcon.toUser != [] && ServiceOk(s.sio, sids)
    ensures ServiceOk(HandleVcon(s, started).sio, sids)
  {
    var q, w := s.vcon.toUser[0], Wrote(s);
    var d := DecideVcon(w, q, started);
    DecisionShape(w, q, started);
    MessageShape(s, started);
    WroteKeepsService(s, sids);
    if d.Forward? {
      ForwardKeepsService(w, q, started, d.sio, sids);
    }
  }

  lemma WroteKeepsService(s: Session, sids: set<nat>)
    requires s.vcon.toUser != [] && ServiceOk(s.sio, sids)
    ensures ServiceOk(Wrote(s).sio, sids)
  {
    forall id: nat ensures Pool(Wrote(s).sio, IdIs<VReq>(id)) == Pool(s.sio, IdIs<VReq>(id)) {
    }
  }

  lemma SendKeepsService(sio: Sio<VReq>, load: Load, q: VReq, sids: set<nat>)
    requires ServiceOk(sio, sids) && CanSubmit(sio)
    ensures ServiceOk(SubmitSend(sio, load, Some(q)), sids)
  {
    var t := SubmitSend(sio, load, Some(q));
    SubmitKeepsService(sio, t.port[|sio.port|], t, sids);
  }

  /** Taking a reply, freeing its message and pushing data back touch neither sends nor waits nor the partition. */
  lemma TakeKeepsService(sio: Sio<VReq>, data: seq<byte>, push: bool, sids: set<nat>)
    requires ServiceOk(sio, sids) && sio.out != []
    ensures ServiceOk(FreeMsg(if push then PushBack(Take(sio), data) else Take(sio), sio.out[0].id), sids)
  {
    var id0 := sio.out[0].id;
    var mid := if push then PushBack(Take(sio), data) else Take(sio);
    var t := FreeMsg(mid, id0);
    forall id: nat ensures Pool(t, IdIs<VReq>(id)) == Pool(sio, IdIs<VReq>(id)) {
      TakeMovesOne(sio, IdIs<VReq>(id));
      assert Pool(mid, IdIs<VReq>(id)) == Pool(Take(sio), IdIs<VReq>(id));
      FreeKeepsPool(mid, id0, IdIs<VReq>(id));
    }
  }

  lemma DataKeepsService(s: Session, data: seq<byte>, q: VReq, sids: set<nat>)
    requires s.sio.out != [] && ServiceOk(s.sio, sids)
    ensures ServiceOk(HandleData(s.(sio := Take(s.sio)), s.sio.out[0].id, data, q).sio, sids)
  {
    var taken := s.(sio := Take(s.sio));
    TakeKeepsService(s.sio, Rest(taken, data), Rest(taken, data) != [], sids);
    var sio := TakeData(taken, s.sio.out[0].id, data).sio;
    var shown := Shown(taken, Looked(taken, data));
    if shown == [] && CanSubmit(sio) {
      RecvKeepsService(sio, ReadBuf(q), ReadSize(q), Reread(q), sids);
    }
  }

  lemma SockKeepsService(s: Session, sids: set<nat>)
    requires s.sio.out != [] && ServiceOk(s.sio, sids)
    ensures ServiceOk(HandleSock(s).sio, sids)
  {
    var r := s.sio.out[0];
    if r.RecvDone? && r.data != [] && r.user.Some? {
      DataKeepsService(s, r.data, r.user.value, sids);
    } else {
      TakeKeepsService(s.sio, [], false, sids);
    }
  }

  lemma WaitKeepsService(sio: Sio<VReq>, e: Env, sids: set<nat>)
    requires ServiceOk(sio, sids) && EnvOk(sio, e)
    ensures ServiceOk(WaitStep(sio, e), sids)
  {
    WaitKeepsJobs(sio, e);
    WaitKeepsPartition(sio, e, sids);
    WaitKeepsRecvsOk(sio, e);
  }

  lemma StepKeepsService(s: Session, ev: Event, sids: set<nat>)
    requires Enabled(s, ev) && ServiceOk(s.sio, sids)
    ensures ServiceOk(Step(s, ev).sio, sids)
  {
    match ev
    case SocketWait(e) => WaitKeepsService(s.sio, e, sids);
    case SocketReply => SockKeepsService(s, sids);
    case ConsoleMessage(started) => VconKeepsService(s, started, sids);
    case _ =>
  }

  // ----- whole runs -----

  ghost predicate Sound(s: Session, sids: set<nat>, vids: set<nat>) {
    ServiceOk(s.sio, sids) && ExactlyOnce(s) && ConsolePool(s, vids)
  }

  predicate Distinct(ids: seq<nat>) { forall i, j :: 0 <= i < j < |ids| ==> ids[i] != ids[j] }

  lemma StartIsSound(sids: seq<nat>, vids: seq<nat>, pushMax: nat, split: bool, parse: bool, medium: bool, send: bool)
    requires Distinct(sids) && Distinct(vids)
    ensures Sound(Start(sids, vids, pushMax, split, parse, medium, send), set i | i in sids, set i | i in vids)
  {
    var s := Start(sids, vids, pushMax, split, parse, medium, send);
    InitialPartitioned<VReq>(sids, pushMax);
    forall k: nat ensures Waiting(s, k) + CountAnswers(s.vcon.answers, k) == if k in s.vcon.arrived then 1 else 0 {
      IdleWeighsNothing(sids, PktIs(k));
    }
    forall v: nat
      ensures Sum(s.vcon.free, IdleTok, IdIs<nat>(v)) + InUse(s, IdIs(v)) == if v in (set i | i in vids) then 1 else 0
    {
      IdleWeighsNothing(sids, IdIs(v));
      IdleCounts<nat>(vids, v);
    }
  }

  lemma {:induction false} IdleWeighsNothing(ids: seq<nat>, w: Tok<nat> -> nat)
    ensures Sum(ids, IdleTok, Attached(w)) == 0
  {
    if ids != [] {
      IdleWeighsNothing(ids[..|ids| - 1], w);
    }
  }

  lemma StepKeepsSound(s: Session, ev: Event, sids: set<nat>, vids: set<nat>)
    requires Enabled(s, ev) && Sound(s, sids, vids)
    ensures Sound(Step(s, ev), sids, vids)
  {
    StepKeepsService(s, ev, sids);
    StepKeepsExactlyOnce(s, ev);
    StepKeepsConsolePool(s, ev, vids);
  }

  /**
   Whatever packets arrive and whatever socket, timer and signals do: in every state of every run each packet is
   answered exactly once or waiting in exactly one place, each message of both pools is in exactly one place, and
   waiting messages and timer jobs correspond. A run from
   `Start` begins with such a state.
   */
  lemma {:induction false} RunIsSound(states: seq<Session>, evs: seq<Event>, i: nat, sids: set<nat>, vids: set<nat>)
    requires IsRun(states, evs) && i < |states| && Sound(states[0], sids, vids)
    ensures Sound(states[i], sids, vids)
  {
    if i > 0 {
      RunIsSound(states, evs, i - 1, sids, vids);
      StepKeepsSound(states[i - 1], evs[i - 1], sids, vids);
    }
  }

  /** So a packet is never answered twice, and an unanswered one is waited for by exactly one carrier. */
  lemma AnsweredAtMostOnce(s: Session, sids: set<nat>, vids: set<nat>, k: nat)
    requires Sound(s, sids, vids)
    ensures CountAnswers(s.vcon.answers, k) <= 1
    ensures CountAnswers(s.vcon.answers, k) == 1 ==> Waiting(s, k) == 0 && k in s.vcon.arrived
    ensures k in s.vcon.arrived && CountAnswers(s.vcon.answers, k) == 0 ==> Waiting(s, k) == 1
  {
    assert Waiting(s, k) + CountAnswers(s.vcon.answers, k) == if k in s.vcon.arrived then 1 else 0;
  }
}
