/**
 Reading lines and checking for characters on the socket service itself: with one request at a time, the replies of any run
 come in the order that the loops rely on.
 */
module LineRuns {
  import opened Common
  import opened SockioSpec
  import opened SockioPool
  import opened SockioReplies
  import Line

  // ----- what a wait answers -----

  /** Receives and waits only, each with its tag. */
  predicate Tagged<U>(s: Sio<U>) {
    && (forall i :: 0 <= i < |s.port| ==> !s.port[i].Tx? && ReqTok(s.port[i]).user.Some?)
    && (forall i :: 0 <= i < |s.recv| ==> s.recv[i].user.Some?)
    && s.send == []
    && (forall i :: 0 <= i < |s.wait| ==> s.wait[i].user.Some?)
  }

  predicate IsAnswer<U>(r: Reply<U>) { (r.RecvDone? || r.WaitDone?) && r.user.Some? }

  /** Only answers are added. */
  predicate Answers<U(==)>(s: Sio<U>, t: Sio<U>) {
    && Tagged(t) && |s.out| <= |t.out| && t.out[..|s.out|] == s.out
    && forall i :: |s.out| <= i < |t.out| ==> IsAnswer(t.out[i])
  }

  lemma AnswersTwice<U>(s: Sio<U>, t: Sio<U>, u: Sio<U>)
    requires Answers(s, t) && Answers(t, u)
    ensures Answers(s, u)
  {
    forall i | |s.out| <= i < |u.out| ensures IsAnswer(u.out[i]) {
      if i < |t.out| {
        assert u.out[i] == u.out[..|t.out|][i] == t.out[i];
      }
    }
    assert u.out[..|s.out|] == u.out[..|t.out|][..|s.out|];
  }

  lemma FlushAnswers<U>(s: Sio<U>)
    requires Tagged(s)
    ensures Answers(s, FlushRecv(s)) && FlushSend(s).out == s.out && Tagged(FlushSend(s))
  {
    assert SendReplies(s.send) == [];
    assert s.out + [] == s.out;
  }

  lemma PrepareAnswers<U>(s: Sio<U>)
    requires Tagged(s)
    ensures var (t, p) := Prepare(s); Answers(s, t) && p.tx.None?
  {
    FlushAnswers(s);
    FlushAnswers(FlushSend(s));
  }

  lemma {:induction false} PortTagged<U>(port: seq<Req<U>>)
    requires forall i :: 0 <= i < |port| ==> !port[i].Tx? && ReqTok(port[i]).user.Some?
    ensures SendsOf(port) == []
    ensures forall i :: 0 <= i < |RecvsOf(port)| ==> RecvsOf(port)[i].user.Some?
    ensures forall i :: 0 <= i < |WaitsOf(port)| ==> WaitsOf(port)[i].user.Some?
  {
    if port != [] {
      PortTagged(port[..|port| - 1]);
      assert ReqTok(port[|port| - 1]).user.Some?;
    }
  }

  lemma DrainKeepsTagged<U>(s: Sio<U>)
    requires Tagged(s)
    ensures Answers(s, Drain(s))
  {
    PortTagged(s.port);
  }

  lemma ExpireOneAnswers<U>(s: Sio<U>, jid: nat)
    requires Tagged(s)
    ensures Answers(s, ExpireOne(s, jid))
  {
  }

  lemma {:induction false} ExpireAnswers<U>(s: Sio<U>, jids: seq<nat>)
    requires Tagged(s)
    ensures Answers(s, Expire(s, jids))
  {
    if jids != [] {
      var t := Expire(s, jids[..|jids| - 1]);
      ExpireAnswers(s, jids[..|jids| - 1]);
      ExpireOneAnswers(t, jids[|jids| - 1]);
      AnswersTwice(s, t, Expire(s, jids));
    }
  }

  lemma SignalsAnswer<U>(s: Sio<U>, e: Env)
    requires Tagged(s)
    ensures Answers(s, Signals(s, e)) && ((s.port != [] ==> e.msgSig) ==> Signals(s, e).port == [])
  {
    var s1 := if e.msgSig then Drain(s) else s;
    DrainKeepsTagged(s);
    ExpireAnswers(s1, e.expired);
    ExpireKeeps(s1, e.expired);
    AnswersTwice(s, s1, Signals(s, e));
  }

  lemma RxAnswers<U>(s: Sio<U>, min: nat, read: bool, res: RecvResult)
    requires Tagged(s) && s.recv != []
    ensures Answers(s, RxPhase(s, min, read, res).0) && RxPhase(s, min, read, res).0.port == s.port
  {
  }

  lemma ServeTxAnswers<U>(s: Sio<U>, p: Plan<U>, e: Env)
    requires Tagged(s) && Servable(s, p, e) && p.tx.None?
    ensures var t := ServeTx(s, p, e).0; Answers(s, t) && t.port == s.port
  {
    var s1 := ServeWait(s, p, e);
    assert Answers(s, s1) && s1.port == s.port;
    if p.rx.Some? {
      RxAnswers(s1, p.rx.value.min, p.read && SeenReadable(p, e), e.rx);
    }
    AnswersTwice(s, s1, ServeRx(s, p, e).0);
  }

  /** Answers are added, and behind them an error note at most, which finds nothing else left to answer. */
  predicate Noted<U(==)>(s: Sio<U>, t: Sio<U>) {
    && Tagged(t) && |s.out| <= |t.out| && t.out[..|s.out|] == s.out
    && (forall i :: |s.out| <= i < |t.out| - 1 ==> IsAnswer(t.out[i]))
    && (|s.out| < |t.out| ==> IsAnswer(t.out[|t.out| - 1]) || NoteEnds(t))
  }

  predicate NoteEnds<U(==)>(t: Sio<U>)
    requires t.out != []
  {
    var r := t.out[|t.out| - 1];
    && r.ErrorNote? && r.user.None? && t.state == Failed && t.recv == [] && t.send == [] && t.wait == []
    && (r.code != ERROR_WAIT ==> t.port == [])
  }

  lemma AnswersNoted<U>(s: Sio<U>, t: Sio<U>)
    requires Answers(s, t)
    ensures Noted(s, t)
  {
  }

  lemma AnswersThenNoted<U>(s: Sio<U>, t: Sio<U>, u: Sio<U>)
    requires Answers(s, t) && Noted(t, u)
    ensures Noted(s, u)
  {
    forall i | |s.out| <= i < |u.out| - 1 ensures IsAnswer(u.out[i]) {
      if i < |t.out| {
        assert u.out[i] == u.out[..|t.out|][i] == t.out[i];
      }
    }
    assert u.out[..|s.out|] == u.out[..|t.out|][..|s.out|];
    assert u.out == u.out[..|t.out|] + u.out[|t.out|..];
  }

  lemma FailNotes<U>(s: Sio<U>, code: nat)
    requires Tagged(s) && (code != ERROR_WAIT ==> s.port == [])
    ensures Noted(s, FailAll(s, code))
  {
    FlushAnswers(s);
    FlushAnswers(FlushSend(s));
    var f := FlushRecv(FlushSend(s)).(state := Failed, partial := [], tx := 0);
    assert Answers(s, f);
    AnswersThenNoted(s, f, FailAll(s, code));
  }

  /** What a wait adds to the replies. */
  lemma WaitNotes<U>(s: Sio<U>, e: Env)
    requires EnvOk(s, e) && Tagged(s)
    ensures Noted(s, WaitStep(s, e))
  {
    var (s1, p) := Prepare(s);
    PrepareAnswers(s);
    if e.outcome == SelectFailed {
      FailNotes(s1, ERROR_WAIT);
    } else {
      SignalsAnswer(s1, e);
      if e.outcome == SocketReady {
        PickedStaysHead(s, e);
        ServeNotes(Signals(s1, e), p, e);
        AnswersThenNoted(s1, Signals(s1, e), WaitStep(s, e));
      } else {
        AnswersNoted(s1, WaitStep(s, e));
      }
    }
    AnswersThenNoted(s, s1, WaitStep(s, e));
  }

  lemma ServeNotes<U>(s: Sio<U>, p: Plan<U>, e: Env)
    requires Tagged(s) && Servable(s, p, e) && p.tx.None? && s.port == []
    ensures Noted(s, Serve(s, p, e))
  {
    var (t, bad) := ServeTx(s, p, e);
    ServeTxAnswers(s, p, e);
    if bad {
      FailNotes(t, ERROR_IO);
    } else {
      AnswersNoted(t, t);
    }
    AnswersThenNoted(s, t, Serve(s, p, e));
  }

  // ----- a client with one request at a time -----

  /** Which replies make it ask again, what it pushes back upon a reply, and where it receives to. */
  datatype Client = Client(asks: Line.Reply -> bool, back: Line.Reply -> seq<byte>, buf: nat, cap: nat)

  /** `script` lists the replies it has seen. */
  datatype Reader = Reader(sio: Sio<nat>, script: seq<Line.Reply>)

  predicate GoesOn(c: Client, r: Line.Reply) { !r.ErrorReply? && c.asks(r) && r.next }

  /** The loop is not left before a reply that does not go on. */
  predicate Stays(c: Client, script: seq<Line.Reply>) { forall i :: 0 <= i < |script| ==> GoesOn(c, script[i]) }

  function Seen(r: Reply<nat>, next: bool): Line.Reply {
    match r
    case RecvDone(_, data, _) => Line.RecvReply(data, next)
    case WaitDone(_, avail, _) => Line.CharReply(avail, next)
    case _ => Line.ErrorReply
  }

  /** After a wait it receives, after a receive it waits. */
  function Ask(c: Client, s: Sio<nat>, r: Reply<nat>, started: bool): Sio<nat>
    requires CanSubmit(s)
  {
    if r.WaitDone? then SubmitRecv(s, c.buf, c.cap, 1, Some(0)) else SubmitWait(s, started, Some(0))
  }

  /** What is done with the socket service upon a reply, before its message is freed. */
  function Respond(c: Client, s: Sio<nat>, r: Reply<nat>, started: bool): Sio<nat> {
    var l := Seen(r, CanSubmit(s));
    if GoesOn(c, l) then Ask(c, s, r, started)
    else if !l.ErrorReply? && c.back(l) != [] then PushBack(s, c.back(l))
    else s
  }

  function TakeOne(c: Client, x: Reader, started: bool): Reader
    requires x.sio.out != []
  {
    var s, r := Take(x.sio), x.sio.out[0];
    Reader(FreeMsg(Respond(c, s, r, started), r.id), x.script + [Seen(r, CanSubmit(s))])
  }

  datatype Move = Waits(e: Env) | Takes(started: bool)

  /**
   It only waits while the loop goes on; and after a wait that failed as a whole it first takes what is on its port, since
   the signals it asked for are still set.
   */
  predicate CanMove(c: Client, x: Reader, m: Move) {
    match m
    case Waits(e) => EnvOk(x.sio, e) && Stays(c, x.script) && forall i :: 0 <= i < |x.sio.out| ==> !WaitFailed(x.sio.out[i])
    case Takes(_) => x.sio.out != []
  }

  predicate WaitFailed(r: Reply<nat>) { r.ErrorNote? && r.code == ERROR_WAIT }

  ghost function Moved(c: Client, x: Reader, m: Move): Reader
    requires CanMove(c, x, m)
  {
    match m
    case Waits(e) => x.(sio := WaitStep(x.sio, e))
    case Takes(started) => TakeOne(c, x, started)
  }

  // ----- one request at a time -----

  function Tag(): Tok<nat> -> nat { (t: Tok<nat>) => if t.user.Some? then 1 else 0 }

  /** Answers in these replies. */
  ghost function Due(out: seq<Reply<nat>>): nat { Sum(out, OutTok, Tag()) }

  ghost function Asked(s: Sio<nat>): nat { Pool(s, Tag()) }

  predicate OnlyAnswers(out: seq<Reply<nat>>) {
    forall i :: 0 <= i < |out| ==> IsAnswer(out[i]) || (out[i].ErrorNote? && out[i].user.None?)
  }

  /** Behind an error note there is no answer, nor will there be one unless the wait as a whole failed. */
  ghost predicate NoteLast(s: Sio<nat>, i: nat)
    requires i < |s.out|
  {
    s.out[i].ErrorNote? ==>
      s.state == Failed && Due(s.out[i..]) == 0 && (!WaitFailed(s.out[i]) ==> Asked(s) == Due(s.out))
  }

  ghost predicate OneRequest(s: Sio<nat>) {
    && Tagged(s) && OnlyAnswers(s.out) && Asked(s) <= 1
    && forall i :: 0 <= i < |s.out| ==> NoteLast(s, i)
  }

  /** Once the loop is left there are no more answers. */
  ghost predicate OneAtATime(c: Client, x: Reader) { OneRequest(x.sio) && (!Stays(c, x.script) ==> Due(x.sio.out) == 0) }

  lemma DueIsAsked(s: Sio<nat>)
    ensures Due(s.out) <= Asked(s)
  {
  }

  lemma DueSplits(out: seq<Reply<nat>>, i: nat)
    requires i <= |out|
    ensures Due(out) == Due(out[..i]) + Due(out[i..])
  {
    assert out == out[..i] + out[i..];
    SumConcat(out[..i], out[i..], OutTok, Tag());
  }

  lemma DuePrefix(before: seq<Reply<nat>>, after: seq<Reply<nat>>)
    requires |before| <= |after| && after[..|before|] == before
    ensures Due(before) <= Due(after)
  {
    DueSplits(after, |before|);
  }

  lemma DueTail(out: seq<Reply<nat>>, i: nat, j: nat)
    requires i <= j <= |out| && Due(out[i..]) == 0
    ensures Due(out[j..]) == 0
  {
    DueSplits(out[i..], j - i);
    assert out[i..][j - i..] == out[j..];
  }

  /** With everything that was asked already answered, nothing is added to what is due. */
  lemma NothingMoreDue(s: Sio<nat>, t: Sio<nat>, i: nat, j: nat)
    requires |s.out| <= |t.out| && t.out[..|s.out|] == s.out && Asked(t) == Asked(s)
    requires i < |s.out| && Asked(s) == Due(s.out) && Due(s.out[i..]) == 0 && i <= j <= |t.out|
    ensures Due(t.out[j..]) == 0 && Asked(t) == Due(t.out)
  {
    DueIsAsked(t);
    DuePrefix(s.out, t.out);
    DueSplits(s.out, i);
    DueSplits(t.out, i);
    assert t.out[..i] == s.out[..i];
    DueTail(t.out, i, j);
  }

  lemma NoneLeft(t: Sio<nat>)
    requires t.port == [] && t.recv == [] && t.send == [] && t.wait == []
    ensures Asked(t) == Due(t.out)
  {
    IdleUntagged(t.free);
    IdleUntagged(t.held);
  }

  lemma {:induction false} IdleUntagged(ids: seq<nat>)
    ensures Sum(ids, IdleTok, Tag()) == 0
  {
    if ids != [] {
      IdleUntagged(ids[..|ids| - 1]);
    }
  }

  lemma LastUntagged(out: seq<Reply<nat>>)
    requires out != [] && out[|out| - 1].user.None?
    ensures Due(out[|out| - 1..]) == 0
  {
    var r := out[|out| - 1];
    assert out[|out| - 1..] == [r];
    SumSnoc([], r, OutTok, Tag());
    assert [] + [r] == [r];
  }

  lemma WaitKeepsNotes(s: Sio<nat>, t: Sio<nat>, i: nat)
    requires OneRequest(s) && Noted(s, t) && Asked(t) == Asked(s) && (s.state == Failed ==> t.state == Failed) && i < |t.out|
    requires forall j :: 0 <= j < |s.out| ==> !WaitFailed(s.out[j])
    ensures NoteLast(t, i)
  {
    if t.out[i].ErrorNote? {
      if k: nat :| k < |s.out| && s.out[k].ErrorNote? {
        assert NoteLast(s, k);
        if k <= i {
          NothingMoreDue(s, t, k, i);
        } else {
          assert t.out[i] == s.out[i] && NoteLast(s, i);
          NothingMoreDue(s, t, i, i);
        }
      } else {
        NewNoteLast(s, t, i);
      }
    }
  }

  lemma NewNoteLast(s: Sio<nat>, t: Sio<nat>, i: nat)
    requires Noted(s, t) && i < |t.out| && t.out[i].ErrorNote? && forall k :: 0 <= k < |s.out| ==> !s.out[k].ErrorNote?
    ensures NoteLast(t, i)
  {
    assert forall k :: 0 <= k < |s.out| ==> t.out[k] == s.out[k];
    assert i == |t.out| - 1 && NoteEnds(t);
    LastUntagged(t.out);
    if !WaitFailed(t.out[i]) {
      NoneLeft(t);
    }
  }

  lemma NotedAnswers(s: Sio<nat>, t: Sio<nat>)
    requires OnlyAnswers(s.out) && Noted(s, t)
    ensures OnlyAnswers(t.out)
  {
    assert forall k :: 0 <= k < |s.out| ==> t.out[k] == s.out[k];
  }

  lemma WaitKeepsOne(c: Client, x: Reader, e: Env)
    requires OneAtATime(c, x) && CanMove(c, x, Waits(e))
    ensures OneAtATime(c, x.(sio := WaitStep(x.sio, e)))
  {
    var s, t := x.sio, WaitStep(x.sio, e);
    WaitNotes(s, e);
    WaitKeepsPool(s, e, Tag());
    NotedAnswers(s, t);
    if s.state == Failed {
      FailedStays(s, e);
    }
    forall i | 0 <= i < |t.out| ensures NoteLast(t, i) {
      WaitKeepsNotes(s, t, i);
    }
  }

  // ----- taking a reply -----

  lemma RespondFrame(c: Client, s: Sio<nat>, r: Reply<nat>, started: bool)
    ensures var t := Respond(c, s, r, started);
            && t.out == s.out && t.state == s.state && t.recv == s.recv && t.send == s.send && t.wait == s.wait && t.held == s.held
            && if GoesOn(c, Seen(r, CanSubmit(s)))
               then s.free != [] && t.free == s.free[1..] && Extended(s, t)
               else t.free == s.free && t.port == s.port
  {
  }

  predicate Extended(s: Sio<nat>, t: Sio<nat>) {
    |t.port| == |s.port| + 1 && t.port == s.port + [t.port[|s.port|]] && s.free != []
    && !t.port[|s.port|].Tx? && ReqTok(t.port[|s.port|]) == Tok(s.free[0], Some(0))
  }

  /** Whether the reply that is next makes the client ask again. */
  predicate AsksAgain(c: Client, x: Reader)
    requires x.sio.out != []
  {
    GoesOn(c, Seen(x.sio.out[0], CanSubmit(Take(x.sio))))
  }

  /** One answer less, and one request more if the client asks again. */
  lemma TakenAsks(c: Client, x: Reader, started: bool)
    requires x.sio.out != []
    ensures var s, t := x.sio, TakeOne(c, x, started).sio;
            Asked(t) + Tag()(OutTok(s.out[0])) == Asked(s) + (if AsksAgain(c, x) then 1 else 0)
  {
    var s, r := x.sio, x.sio.out[0];
    var s1 := Take(s);
    var s2 := Respond(c, s1, r, started);
    TakeMovesOne(s, Tag());
    RespondFrame(c, s1, r, started);
    if AsksAgain(c, x) {
      SubmitMovesOne(s1, s2.port[|s1.port|], s2, Tag());
    } else {
      SameAsked(s1, s2);
    }
    FreeKeepsPool(s2, r.id, Tag());
  }

  lemma SameAsked(s: Sio<nat>, t: Sio<nat>)
    requires t.free == s.free && t.port == s.port && t.recv == s.recv && t.send == s.send && t.wait == s.wait
    requires t.out == s.out && t.held == s.held
    ensures Asked(t) == Asked(s)
  {
  }

  lemma TakenFrame(c: Client, x: Reader, started: bool)
    requires x.sio.out != []
    ensures var s, t := x.sio, TakeOne(c, x, started).sio;
            t.out == s.out[1..] && t.state == s.state && (AsksAgain(c, x) ==> s.state != Failed) && (Tagged(s) ==> Tagged(t))
  {
    RespondFrame(c, Take(x.sio), x.sio.out[0], started);
  }

  lemma SnocStays(c: Client, script: seq<Line.Reply>, l: Line.Reply)
    ensures Stays(c, script + [l]) <==> Stays(c, script) && GoesOn(c, l)
  {
    var more := script + [l];
    if Stays(c, more) {
      assert GoesOn(c, more[|script|]);
      forall i | 0 <= i < |script| ensures GoesOn(c, script[i]) {
        assert GoesOn(c, more[i]);
      }
    }
  }

  lemma HeadDue(out: seq<Reply<nat>>)
    requires out != []
    ensures Due(out) == Tag()(OutTok(out[0])) + Due(out[1..])
  {
    SumHead(out, OutTok, Tag());
  }

  /** After an error note nothing is due. */
  lemma NoteTaken(c: Client, x: Reader, started: bool)
    requires OneAtATime(c, x) && x.sio.out != [] && x.sio.out[0].ErrorNote?
    ensures OneAtATime(c, TakeOne(c, x, started))
  {
    var s, t := x.sio, TakeOne(c, x, started).sio;
    TakenAsks(c, x, started);
    TakenFrame(c, x, started);
    HeadDue(s.out);
    assert NoteLast(s, 0) && s.out[0..] == s.out;
    SnocStays(c, x.script, Line.ErrorReply);
    forall i | 0 <= i < |t.out| ensures NoteLast(t, i) {
      assert NoteLast(s, i + 1) && s.out[i + 1..] == t.out[i..];
    }
  }

  /** An answer is only taken while the loop goes on, and then nothing else is due. */
  lemma AnswerIsOnly(c: Client, x: Reader)
    requires OneAtATime(c, x) && x.sio.out != [] && IsAnswer(x.sio.out[0])
    ensures Stays(c, x.script) && Asked(x.sio) == 1 && Due(x.sio.out[1..]) == 0
  {
    HeadDue(x.sio.out);
    DueIsAsked(x.sio);
  }

  lemma AnswerTaken(c: Client, x: Reader, started: bool)
    requires OneAtATime(c, x) && x.sio.out != [] && IsAnswer(x.sio.out[0])
    ensures OneAtATime(c, TakeOne(c, x, started))
  {
    var s, t := x.sio, TakeOne(c, x, started).sio;
    TakenAsks(c, x, started);
    TakenFrame(c, x, started);
    AnswerIsOnly(c, x);
    SnocStays(c, x.script, Seen(s.out[0], CanSubmit(Take(s))));
    forall i | 0 <= i < |t.out| ensures NoteLast(t, i) {
      assert NoteLast(s, i + 1);
      DueTail(t.out, 0, i);
    }
  }

  lemma TakeKeepsOne(c: Client, x: Reader, started: bool)
    requires OneAtATime(c, x) && x.sio.out != []
    ensures OneAtATime(c, TakeOne(c, x, started))
    ensures !Stays(c, x.script) ==> Seen(x.sio.out[0], CanSubmit(Take(x.sio))).ErrorReply?
  {
    if IsAnswer(x.sio.out[0]) {
      AnswerTaken(c, x, started);
      AnswerIsOnly(c, x);
    } else {
      NoteTaken(c, x, started);
    }
  }

  // ----- whole runs -----

  ghost predicate IsRun(c: Client, states: seq<Reader>, moves: seq<Move>) {
    && |states| == |moves| + 1
    && forall i :: 0 <= i < |moves| ==> CanMove(c, states[i], moves[i]) && states[i + 1] == Moved(c, states[i], moves[i])
  }

  /** Behind the reply that ends the loop there are only error notes. */
  predicate InOrder(c: Client, script: seq<Line.Reply>) {
    forall i :: 0 <= i < |script| && !Stays(c, script[..i]) ==> script[i].ErrorReply?
  }

  lemma InOrderMore(c: Client, script: seq<Line.Reply>, l: Line.Reply)
    requires InOrder(c, script) && (!Stays(c, script) ==> l.ErrorReply?)
    ensures InOrder(c, script + [l])
  {
    var more := script + [l];
    forall i | 0 <= i < |more| && !Stays(c, more[..i]) ensures more[i].ErrorReply? {
      if i < |script| {
        assert more[..i] == script[..i];
      } else {
        assert more[..i] == script;
      }
    }
  }

  lemma MoveKeepsOrder(c: Client, x: Reader, m: Move)
    requires CanMove(c, x, m) && OneAtATime(c, x) && InOrder(c, x.script)
    ensures OneAtATime(c, Moved(c, x, m)) && InOrder(c, Moved(c, x, m).script)
  {
    match m
    case Waits(e) => WaitKeepsOne(c, x, e);
    case Takes(started) =>
      TakeKeepsOne(c, x, started);
      InOrderMore(c, x.script, Seen(x.sio.out[0], CanSubmit(Take(x.sio))));
  }

  /** In every run the replies come in order: with one request at a time nothing but error notes follows the last one. */
  lemma {:induction false} RunIsInOrder(c: Client, states: seq<Reader>, moves: seq<Move>, i: nat)
    requires IsRun(c, states, moves) && i < |states| && OneAtATime(c, states[0]) && states[0].script == []
    ensures OneAtATime(c, states[i]) && InOrder(c, states[i].script)
  {
    if i > 0 {
      RunIsInOrder(c, states, moves, i - 1);
      MoveKeepsOrder(c, states[i - 1], moves[i - 1]);
    }
  }

  /** Nobody has asked anything of the service. */
  predicate Unused(s: Sio<nat>) { s.port == [] && s.recv == [] && s.send == [] && s.wait == [] && s.out == [] }

  /** A service nobody else uses, asked for a character. */
  function Begin(s: Sio<nat>, started: bool): Reader
    requires Unused(s) && CanSubmit(s)
  {
    Reader(SubmitWait(s, started, Some(0)), [])
  }

  lemma BeginIsInOrder(c: Client, s: Sio<nat>, started: bool)
    requires Unused(s) && CanSubmit(s)
    ensures OneAtATime(c, Begin(s, started))
  {
    var t := SubmitWait(s, started, Some(0));
    NoneLeft(s);
    SubmitMovesOne(s, t.port[0], t, Tag());
  }
}
