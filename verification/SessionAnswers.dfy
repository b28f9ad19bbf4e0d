/**
 What every packet is answered with, over whole runs and in numbers: a book is kept of what each packet asked for and of the
 one event that decides its answer.
 */
module SessionAnswers {
  import opened Common
  import opened SockioSpec
  import opened SockioPool
  import opened SockioUsers
  import opened VconSpec
  import opened SessionSpec
  import opened SessionTheorems
  import opened SessionStream
  import opened SessionReads
  import opened SessionRestarts

  // ----- the book -----

  /**
   Found: a character was found while the wait was the first one. Refused: the socket service did not take the message.
   Taken, Rejected: what became of a mode. GivenUp: the session no longer used the socket. Unserved: no console message
   was free. Ported: the reader's port there was before.
   */
  datatype Fate = Undecided | Found | Refused | Taken | Rejected | GivenUp | Unserved | Ported(port: nat)

  datatype Entry = Entry(action: Option<Action>, fate: Fate)

  type Book = nat -> Entry

  function Empty(): Book { (k: nat) => Entry(None, Undecided) }

  function Enter(book: Book, k: nat, fate: Fate): Book { (x: nat) => if x == k then book(x).(fate := fate) else book(x) }

  function WantedMode(mode: int): int { if mode == -1 then 1 else mode % 256 }

  /** Cooked, raw, and medium if that was allowed. */
  predicate TakesMode(s: Session, mode: int) { mode == 0 || mode == 1 || (mode == 2 && s.doMedium) }

  /** What handling the packet decides. */
  function PacketFate(v: Vcon, a: Action): Fate {
    match a
    case ChangeSignal(_) => Ported(v.readPort)
    case ScreenMode(_) => if v.free == [] then Unserved else Undecided
    case Write(_) => if v.free == [] then Unserved else Undecided
    case Read(_, _) => if v.free == [] then Unserved else Undecided
    case WaitChar(_) => if v.free == [] then Unserved else Undecided
    case End => if (v.openCnt - 1) % 0x1_0000_0000 == 0 && v.free == [] then Unserved else Undecided
    case _ => Undecided
  }

  /** What handling its message decides. */
  function MessageFate(s: Session, a: Action): Fate {
    if !s.socketActive then GivenUp
    else
      match a
      case ScreenMode(mode) => if TakesMode(s, WantedMode(mode)) then Taken else Rejected
      case _ => if s.sio.state == Failed || s.sio.free == [] then Refused else Undecided
  }

  /** The wait that finds a character, if one does. */
  function Finder(s: Session, ev: Event): Option<nat> {
    if ev.SocketWait? && FindsCharacter(s.sio, ev.e) && s.sio.wait[0].user.Some? then s.sio.wait[0].user.value.pkt else None
  }

  function After(s: Session, ev: Event, book: Book): Book {
    match ev
    case PktArrives(p) => (x: nat) => if x == p.id then Entry(Some(p.action), Undecided) else book(x)
    case ConsolePacket =>
      if s.vcon.pkts == [] then book else Enter(book, s.vcon.pkts[0].id, PacketFate(s.vcon, s.vcon.pkts[0].action))
    case ConsoleMessage(_) =>
      if s.vcon.toUser == [] || s.vcon.toUser[0].pkt.None? || book(s.vcon.toUser[0].pkt.value).action.None? then book
      else
        var k := s.vcon.toUser[0].pkt.value;
        Enter(book, k, MessageFate(s, book(k).action.value))
    case SocketWait(_) => if Finder(s, ev).Some? then Enter(book, Finder(s, ev).value, Found) else book
    case _ => book
  }

  function BookAt(states: seq<Session>, evs: seq<Event>, i: nat): Book
    requires |states| == |evs| + 1 && i < |states|
  {
    if i == 0 then Empty() else After(states[i - 1], evs[i - 1], BookAt(states, evs, i - 1))
  }

  // ----- the answers -----

  /** The answer a packet gets, from what it asked for and what was decided. */
  predicate AnswerIs(c: Entry, a: Answer) {
    && c.action.Some?
    && (!c.action.value.Read? ==> a.data == [])
    && match c.action.value
       case Open => (a.res1, a.res2) == (-1, 0)
       case End => (a.res1, a.res2) == if c.fate.Unserved? then (0, 103) else (-1, 0)
       case ChangeSignal(_) => c.fate.Ported? && (a.res1, a.res2) == (-1, c.fate.port)
       case ScreenMode(_) => (a.res1, a.res2) == if c.fate.Unserved? then (0, 103) else if c.fate.Taken? then (-1, 0) else (0, 212)
       case DiskInfo => (a.res1, a.res2) == (-1, 0)
       case UndiskInfo => (a.res1, a.res2) == (-1, 0)
       case Write(data) => (a.res1, a.res2) == if c.fate.Unserved? then (0, 103) else (|data|, 0)
       case Read(_, size) =>
         && (c.fate.Unserved? || c.fate.Refused? || c.fate.GivenUp? ==> a.data == [])
         && (a.res1, a.res2) == if c.fate.Unserved? then (0, 103) else if c.fate.Refused? then (size, 0) else (|a.data|, 0)
       case Seek => (a.res1, a.res2) == (0, 212)
       case WaitChar(us) =>
         (a.res1, a.res2) == if c.fate.Unserved? then (0, 103)
                             else if c.fate.Found? then (-1, 1)
                             else if c.fate.Refused? && us != 0 then (-1, us)
                             else (0, 0)
       case Unknown => (a.res1, a.res2) == (0, 209)
  }

  /** The reply on its way to the console. */
  predicate ResultOk(c: Entry, r: VResult) {
    c.action.Some? &&
    match c.action.value
    case Read(_, size) =>
      && (c.fate.Undecided? || c.fate.Refused? || c.fate.GivenUp?)
      && if c.fate.Refused? then r == ReadRefused(size) else r.ReadDone? && (c.fate.GivenUp? ==> r.data == [])
    case Write(data) => (c.fate.Undecided? || c.fate.Refused? || c.fate.GivenUp?) && r == WriteDone(|data|)
    case WaitChar(us) =>
      && (c.fate.Undecided? || c.fate.Refused? || c.fate.GivenUp? || c.fate.Found?)
      && r == WaitResult(if c.fate.Found? then 1 else if c.fate.Refused? then us else 0)
    case ScreenMode(_) =>
      && (c.fate.Taken? || c.fate.Rejected? || c.fate.GivenUp?)
      && r.ModeResult? && (c.fate.Taken? <==> r.mode != 255)
    case _ => false
  }

  predicate MessageOk(c: Entry, op: VOp) {
    && c.action.Some? && c.fate.Undecided?
    && match op
       case VRead(buf, size) => c.action.value == Read(buf, size)
       case VWrite(data) => c.action.value == Write(data)
       case VWait(us) => c.action.value == WaitChar(us)
       case VMode(mode) => c.action.value.ScreenMode? && mode == WantedMode(c.action.value.mode)
       case VEnd => false
  }

  /** What the socket service is asked to do. */
  predicate UserOk(c: Entry, kind: Kind, op: VOp) {
    && c.action.Some?
    && match kind
       case ToRead => op.VRead? && c.action.value.Read? && c.fate.Undecided?
       case ToWrite =>
         || (op.VWrite? && c.action.value == Write(op.data) && c.fate.Undecided?)
         || (op.VMode? && c.action.value.ScreenMode? && c.fate.Taken? && op.mode != 255)
       case ToWait => op.VWait? && c.action.value == WaitChar(op.us) && c.fate.Undecided?
  }

  function Users(book: Book): (Kind, Option<VReq>) -> bool {
    (kind: Kind, u: Option<VReq>) => u.Some? && u.value.pkt.Some? && UserOk(book(u.value.pkt.value), kind, u.value.op)
  }

  predicate FinderOk(c: Entry, op: VOp) { c.action.Some? && c.action.value.WaitChar? && op.VWait? && c.fate.Found? }

  function Finders(book: Book): Option<VReq> -> bool {
    (u: Option<VReq>) => u.Some? && u.value.pkt.Some? && FinderOk(book(u.value.pkt.value), u.value.op)
  }

  ghost predicate ConsoleTells(v: Vcon, book: Book) {
    && v.state != VFlush
    && (forall i :: 0 <= i < |v.pkts| ==> book(v.pkts[i].id) == Entry(Some(v.pkts[i].action), Undecided))
    && (forall i :: 0 <= i < |v.toUser| ==>
          if v.toUser[i].pkt.None? then v.toUser[i].op.VEnd? else MessageOk(book(v.toUser[i].pkt.value), v.toUser[i].op))
    && (forall i :: 0 <= i < |v.replies| && v.replies[i].pkt.Some? ==> ResultOk(book(v.replies[i].pkt.value), v.replies[i].result))
    && (forall i :: 0 <= i < |v.answers| ==> AnswerIs(book(v.answers[i].pkt), v.answers[i]))
  }

  ghost predicate Tells(s: Session, book: Book) {
    ConsoleTells(s.vcon, book) && AllUsers(s.sio, Users(book), Finders(book))
  }

  // ----- entering something about a packet nothing else stands for -----

  predicate NotOf(u: Option<VReq>, k: nat) { u.Some? ==> u.value.pkt != Some(k) }

  predicate NoneAtConsole(v: Vcon, k: nat) {
    && (forall i :: 0 <= i < |v.pkts| ==> v.pkts[i].id != k)
    && (forall i :: 0 <= i < |v.toUser| ==> v.toUser[i].pkt != Some(k))
    && (forall i :: 0 <= i < |v.replies| ==> v.replies[i].pkt != Some(k))
    && (forall i :: 0 <= i < |v.answers| ==> v.answers[i].pkt != k)
  }

  predicate NoneAtSocket(s: Sio<VReq>, k: nat) {
    && (forall i :: 0 <= i < |s.port| ==> NotOf(UserOf(s.port[i]), k))
    && (forall i :: 0 <= i < |s.recv| ==> NotOf(s.recv[i].user, k))
    && (forall i :: 0 <= i < |s.send| ==> NotOf(s.send[i].user, k))
    && (forall i :: 0 <= i < |s.wait| ==> NotOf(s.wait[i].user, k))
    && (forall i :: 0 <= i < |s.out| ==> NotOf(s.out[i].user, k))
  }

  ghost predicate Elsewhere(book: Book, more: Book, k: nat) { forall x: nat :: x != k ==> more(x) == book(x) }

  lemma ConsoleTransfer(v: Vcon, book: Book, more: Book, k: nat)
    requires ConsoleTells(v, book) && NoneAtConsole(v, k) && Elsewhere(book, more, k)
    ensures ConsoleTells(v, more)
  {
  }

  lemma AnswerTransfer(r: Reply<VReq>, book: Book, more: Book, k: nat)
    requires AnswerOk(r, Users(book), Finders(book)) && NotOf(r.user, k) && Elsewhere(book, more, k)
    ensures AnswerOk(r, Users(more), Finders(more))
  {
  }

  lemma SocketTransfer(s: Sio<VReq>, book: Book, more: Book, k: nat)
    requires AllUsers(s, Users(book), Finders(book)) && NoneAtSocket(s, k) && Elsewhere(book, more, k)
    ensures AllUsers(s, Users(more), Finders(more))
  {
    forall i | 0 <= i < |s.out| ensures AnswerOk(s.out[i], Users(more), Finders(more)) {
      AnswerTransfer(s.out[i], book, more, k);
    }
  }

  ghost predicate NoneFor(s: Session, k: nat) { NoneAtConsole(s.vcon, k) && NoneAtSocket(s.sio, k) }

  lemma Transfer(s: Session, book: Book, more: Book, k: nat)
    requires Tells(s, book) && NoneFor(s, k) && Elsewhere(book, more, k)
    ensures Tells(s, more)
  {
    ConsoleTransfer(s.vcon, book, more, k);
    SocketTransfer(s.sio, book, more, k);
  }

  // ----- nothing stands for a packet that is counted nowhere -----

  ghost function Stands(s: Session, k: nat): nat { Waiting(s, k) + CountAnswers(s.vcon.answers, k) }

  lemma {:induction false} NoAnswer(answers: seq<Answer>, k: nat)
    requires CountAnswers(answers, k) == 0
    ensures forall i :: 0 <= i < |answers| ==> answers[i].pkt != k
  {
    if answers != [] {
      NoAnswer(answers[..|answers| - 1], k);
    }
  }

  lemma NoUser<T>(list: seq<T>, f: T -> Tok<VReq>, k: nat)
    requires Sum(list, f, Attached(PktIs(k))) == 0
    ensures forall i :: 0 <= i < |list| ==> NotOf(f(list[i]).user, k)
  {
    NoneCounts(list, f, Attached(PktIs(k)));
    forall i | 0 <= i < |list| ensures NotOf(f(list[i]).user, k) {
      assert Attached(PktIs(k))(f(list[i])) == 0;
    }
  }

  lemma NoTag<T>(list: seq<T>, f: T -> Tok<nat>, k: nat)
    requires Sum(list, f, PktIs(k)) == 0
    ensures forall i :: 0 <= i < |list| ==> f(list[i]).user != Some(k)
  {
    NoneCounts(list, f, PktIs(k));
    forall i | 0 <= i < |list| ensures f(list[i]).user != Some(k) {
      assert PktIs(k)(f(list[i])) == 0;
    }
  }

  lemma NoneAtSocketOf(s: Sio<VReq>, k: nat)
    requires Pool(s, Attached(PktIs(k))) == 0
    ensures NoneAtSocket(s, k)
  {
    NoUser(s.port, ReqTok, k);
    NoUser(s.recv, RecvTok, k);
    NoUser(s.send, SendTok, k);
    NoUser(s.wait, WaitTok, k);
    NoUser(s.out, OutTok, k);
    forall i | 0 <= i < |s.port| ensures NotOf(UserOf(s.port[i]), k) {
      assert NotOf(ReqTok(s.port[i]).user, k);
    }
    forall i | 0 <= i < |s.recv| ensures NotOf(s.recv[i].user, k) {
      assert NotOf(RecvTok(s.recv[i]).user, k);
    }
    forall i | 0 <= i < |s.send| ensures NotOf(s.send[i].user, k) {
      assert NotOf(SendTok(s.send[i]).user, k);
    }
    forall i | 0 <= i < |s.wait| ensures NotOf(s.wait[i].user, k) {
      assert NotOf(WaitTok(s.wait[i]).user, k);
    }
    forall i | 0 <= i < |s.out| ensures NotOf(s.out[i].user, k) {
      assert NotOf(OutTok(s.out[i]).user, k);
    }
  }

  lemma NoneAtConsoleOf(s: Session, k: nat)
    requires Stands(s, k) == 0
    ensures NoneAtConsole(s.vcon, k)
  {
    CountedPkt(s.vcon.pkts, k);
    NoTag(s.vcon.toUser, ReqTag, k);
    NoTag(s.vcon.replies, ReplyTag, k);
    NoAnswer(s.vcon.answers, k);
    forall i | 0 <= i < |s.vcon.toUser| ensures s.vcon.toUser[i].pkt != Some(k) {
      assert ReqTag(s.vcon.toUser[i]).user != Some(k);
    }
    forall i | 0 <= i < |s.vcon.replies| ensures s.vcon.replies[i].pkt != Some(k) {
      assert ReplyTag(s.vcon.replies[i]).user != Some(k);
    }
  }

  lemma NoneForOf(s: Session, k: nat)
    requires Stands(s, k) == 0
    ensures NoneFor(s, k)
  {
    NoneAtConsoleOf(s, k);
    NoneAtSocketOf(s.sio, k);
  }

  // ----- packets -----

  /** What the book says of a console is about its packets, messages, replies and answers. */
  lemma SameConsole(v: Vcon, w: Vcon, book: Book)
    requires ConsoleTells(v, book) && w.state != VFlush
    requires w.pkts == v.pkts && w.toUser == v.toUser && w.replies == v.replies && w.answers == v.answers
    ensures ConsoleTells(w, book)
  {
  }

  lemma AnsweredTells(v: Vcon, id: nat, res1: int, res2: int, data: seq<byte>, book: Book)
    requires ConsoleTells(v, book) && AnswerIs(book(id), Answer(id, res1, res2, data))
    ensures ConsoleTells(AnswerPkt(v, id, res1, res2, data), book)
  {
  }

  lemma PostedTells(v: Vcon, pkt: Option<nat>, op: VOp, book: Book)
    requires ConsoleTells(v, book) && v.free != []
    requires if pkt.None? then op.VEnd? else MessageOk(book(pkt.value), op)
    ensures ConsoleTells(Post(v, pkt, op), book)
  {
  }

  /** A packet that becomes a message, or is answered for want of one. */
  lemma PostOrFailTells(v: Vcon, id: nat, op: VOp, becomesError: bool, book: Book)
    requires ConsoleTells(v, book)
    requires if v.free != [] then MessageOk(book(id), op) else AnswerIs(book(id), Answer(id, 0, 103, []))
    ensures ConsoleTells(PostOrFail(v, id, op, becomesError), book)
  {
    if v.free != [] {
      PostedTells(v, Some(id), op, book);
    } else {
      var w := if becomesError then v.(state := VError) else v;
      SameConsole(v, w, book);
      AnsweredTells(w, id, 0, 103, [], book);
    }
  }

  /** The rest of the console once its next packet is off the port. */
  function OffPort(v: Vcon): Vcon
    requires v.pkts != []
  {
    v.(pkts := v.pkts[1..])
  }

  lemma EndTells(v: Vcon, book: Book)
    requires v.pkts != [] && v.pkts[0].action == End && ConsoleTells(OffPort(v), book)
    requires book(v.pkts[0].id) == Entry(Some(End), PacketFate(v, End))
    ensures ConsoleTells(HandlePkt(v), book)
  {
    var id, left := v.pkts[0].id, (v.openCnt - 1) % 0x1_0000_0000;
    var w := OffPort(v).(openCnt := left);
    SameConsole(OffPort(v), w, book);
    if left > 0 {
      AnsweredTells(w, id, DOSTRUE, 0, [], book);
    } else {
      var c := w.(state := VClose);
      SameConsole(w, c, book);
      if v.free == [] {
        AnsweredTells(c, id, DOSFALSE, ERROR_NO_FREE_STORE, [], book);
      } else {
        PostedTells(c, None, VEnd, book);
        AnsweredTells(Post(c, None, VEnd), id, DOSTRUE, 0, [], book);
      }
    }
  }

  /** Packets that become a message. */
  lemma RequestTells(v: Vcon, book: Book)
    requires v.pkts != [] && ConsoleTells(OffPort(v), book) && v.state != VFlush
    requires var a := v.pkts[0].action; a.Write? || a.Read? || a.WaitChar? || a.ScreenMode?
    requires book(v.pkts[0].id) == Entry(Some(v.pkts[0].action), PacketFate(v, v.pkts[0].action))
    ensures ConsoleTells(HandlePkt(v), book)
  {
    var p, w := v.pkts[0], OffPort(v);
    match p.action
    case Write(data) =>
      PostOrFailTells(w, p.id, VWrite(data), true, book);
      SameConsole(PostOrFail(w, p.id, VWrite(data), true), HandlePkt(v), book);
    case Read(buf, size) =>
      PostOrFailTells(w, p.id, VRead(buf, size), true, book);
      SameConsole(PostOrFail(w, p.id, VRead(buf, size), true), HandlePkt(v), book);
    case WaitChar(us) => PostOrFailTells(w, p.id, VWait(us), true, book);
    case ScreenMode(mode) =>
      var m := w.(mode := ModeByte(mode));
      SameConsole(w, m, book);
      PostOrFailTells(m, p.id, VMode(ModeByte(mode)), false, book);
  }

  lemma PacketTells(v: Vcon, book: Book)
    requires v.pkts != [] && ConsoleTells(OffPort(v), book) && v.state != VFlush
    requires book(v.pkts[0].id) == Entry(Some(v.pkts[0].action), PacketFate(v, v.pkts[0].action))
    ensures ConsoleTells(HandlePkt(v), book)
  {
    var p, w := v.pkts[0], OffPort(v);
    match p.action
    case Open => SameConsole(w, HandlePkt(v).(answers := v.answers), book); AnsweredTells(HandlePkt(v).(answers := v.answers), p.id, -1, 0, [], book);
    case End => EndTells(v, book);
    case ChangeSignal(port) =>
      SameConsole(w, w.(readPort := port), book);
      AnsweredTells(w.(readPort := port), p.id, -1, v.readPort, [], book);
    case DiskInfo => AnsweredTells(w, p.id, -1, 0, [], book);
    case UndiskInfo => AnsweredTells(w, p.id, -1, 0, [], book);
    case Seek => AnsweredTells(w, p.id, 0, 212, [], book);
    case Unknown => AnsweredTells(w, p.id, 0, 209, [], book);
    case _ => RequestTells(v, book);
  }

  lemma ArriveKeepsBook(s: Session, p: Pkt, book: Book)
    requires p.id !in s.vcon.arrived && Tells(s, book) && ExactlyOnce(s)
    ensures Tells(s.(vcon := Arrive(s.vcon, p)), After(s, PktArrives(p), book))
  {
    var more := After(s, PktArrives(p), book);
    assert Stands(s, p.id) == 0;
    NoneForOf(s, p.id);
    Transfer(s, book, more, p.id);
    ArrivedTells(s.vcon, p, more);
  }

  lemma ArrivedTells(v: Vcon, p: Pkt, book: Book)
    requires ConsoleTells(v, book) && book(p.id) == Entry(Some(p.action), Undecided)
    ensures ConsoleTells(Arrive(v, p), book)
  {
  }

  lemma PacketKeepsBook(s: Session, book: Book)
    requires s.vcon.pkts != [] && Tells(s, book) && ExactlyOnce(s)
    ensures Tells(s.(vcon := HandlePkt(s.vcon)), After(s, ConsolePacket, book))
  {
    var k, more := s.vcon.pkts[0].id, After(s, ConsolePacket, book);
    var t := s.(vcon := OffPort(s.vcon));
    PktsHead(s.vcon.pkts, k);
    assert Stands(s, k) == if k in s.vcon.arrived then 1 else 0;
    assert Stands(t, k) == 0;
    NoneForOf(t, k);
    Transfer(t, book, more, k);
    PacketTells(s.vcon, more);
  }

  // ----- messages -----

  function OpKind(op: VOp): Kind { if op.VRead? then ToRead else if op.VWait? then ToWait else ToWrite }

  /** What becomes of a message agrees with what the event decides about its packet. */
  lemma DecisionTells(s: Session, q: VReq, started: bool, c: Entry)
    requires MessageOk(c, q.op)
    ensures var d, after := DecideVcon(s, q, started), c.(fate := MessageFate(s, c.action.value));
            if d.Reply? then ResultOk(after, d.result) else UserOk(after, OpKind(q.op), q.op)
  {
  }

  lemma ForwardedUsers(s: Session, q: VReq, started: bool, Q: (Kind, Option<VReq>) -> bool, R: Option<VReq> -> bool)
    requires CanSubmit(s.sio) && !q.op.VEnd? && AllUsers(s.sio, Q, R) && Q(OpKind(q.op), Some(q))
    ensures AllUsers(Forwarded(s, q, started), Q, R)
  {
  }

  lemma RepliedTells(v: Vcon, r: VReply, book: Book)
    requires ConsoleTells(v, book) && (r.pkt.Some? ==> ResultOk(book(r.pkt.value), r.result))
    ensures ConsoleTells(v.(replies := v.replies + [r]), book)
  {
  }

  /** The session once its next message is off the port. */
  function OffUser(s: Session): Session
    requires s.vcon.toUser != []
  {
    s.(vcon := s.vcon.(toUser := s.vcon.toUser[1..]))
  }

  lemma MessageFrame(s: Session, started: bool)
    requires s.vcon.toUser != []
    ensures var d, q, t, v := DecideVcon(Wrote(s), s.vcon.toUser[0], started), s.vcon.toUser[0], HandleVcon(s, started), OffUser(s).vcon;
            && t.vcon == (if d.Reply? then v.(replies := v.replies + [VReply(q.vid, q.pkt, d.result)]) else v)
            && t.sio == if d.Forward? then d.sio else Wrote(s).sio
  {
  }

  lemma WroteUsers(s: Session, Q: (Kind, Option<VReq>) -> bool, R: Option<VReq> -> bool)
    requires s.vcon.toUser != [] && AllUsers(s.sio, Q, R)
    ensures AllUsers(Wrote(s).sio, Q, R) && MessageFate(Wrote(s), Open) == MessageFate(s, Open)
    ensures forall a :: MessageFate(Wrote(s), a) == MessageFate(s, a)
  {
  }

  lemma HandledTells(s: Session, started: bool, book: Book)
    requires s.vcon.toUser != [] && Tells(OffUser(s), book)
    requires var d, q := DecideVcon(Wrote(s), s.vcon.toUser[0], started), s.vcon.toUser[0];
             if d.Forward? then q.pkt.Some? && UserOk(book(q.pkt.value), OpKind(q.op), q.op)
             else q.pkt.Some? ==> ResultOk(book(q.pkt.value), d.result)
    ensures Tells(HandleVcon(s, started), book)
  {
    var d, q := DecideVcon(Wrote(s), s.vcon.toUser[0], started), s.vcon.toUser[0];
    MessageFrame(s, started);
    WroteUsers(s, Users(book), Finders(book));
    if d.Forward? {
      DecisionShape(Wrote(s), q, started);
      ForwardedUsers(Wrote(s), q, started, Users(book), Finders(book));
    } else {
      RepliedTells(OffUser(s).vcon, VReply(q.vid, q.pkt, d.result), book);
    }
  }

  lemma EndMessageTells(s: Session, started: bool, book: Book)
    requires s.vcon.toUser != [] && s.vcon.toUser[0].op.VEnd? && s.vcon.toUser[0].pkt.None? && Tells(s, book)
    ensures Tells(HandleVcon(s, started), book)
  {
    assert Tells(OffUser(s), book);
    HandledTells(s, started, book);
  }

  /** With its message off the port nothing stands for a packet. */
  lemma MessageWasAll(s: Session, k: nat)
    requires s.vcon.toUser != [] && s.vcon.toUser[0].pkt == Some(k) && ExactlyOnce(s)
    ensures NoneFor(OffUser(s), k)
  {
    SumHead(s.vcon.toUser, ReqTag, PktIs(k));
    assert Stands(s, k) == if k in s.vcon.arrived then 1 else 0;
    assert Stands(OffUser(s), k) == 0;
    NoneForOf(OffUser(s), k);
  }

  lemma RequestMessageTells(s: Session, started: bool, k: nat, book: Book, more: Book)
    requires s.vcon.toUser != [] && s.vcon.toUser[0].pkt == Some(k) && Tells(OffUser(s), more)
    requires MessageOk(book(k), s.vcon.toUser[0].op) && more(k) == book(k).(fate := MessageFate(s, book(k).action.value))
    ensures Tells(HandleVcon(s, started), more)
  {
    DecisionTells(Wrote(s), s.vcon.toUser[0], started, book(k));
    WroteFate(s, book(k).action.value);
    HandledTells(s, started, more);
  }

  lemma WroteFate(s: Session, a: Action)
    requires s.vcon.toUser != []
    ensures MessageFate(Wrote(s), a) == MessageFate(s, a)
  {
  }

  lemma MessageKeepsBook(s: Session, started: bool, book: Book)
    requires s.vcon.toUser != [] && Tells(s, book) && ExactlyOnce(s)
    ensures Tells(HandleVcon(s, started), After(s, ConsoleMessage(started), book))
  {
    var q := s.vcon.toUser[0];
    if q.pkt.None? {
      EndMessageTells(s, started, book);
    } else {
      var k, more := q.pkt.value, After(s, ConsoleMessage(started), book);
      MessageWasAll(s, k);
      OffUserTells(s, book);
      Transfer(OffUser(s), book, more, k);
      RequestMessageTells(s, started, k, book, more);
    }
  }

  lemma OffUserTells(s: Session, book: Book)
    requires s.vcon.toUser != [] && Tells(s, book)
    ensures Tells(OffUser(s), book)
  {
  }

  // ----- replies -----

  /** A reply of the console becomes the answer. */
  lemma ReplyIsAnswer(c: Entry, r: VResult, k: nat)
    requires ResultOk(c, r)
    ensures AnswerIs(c, Answer(k, Codes(r).0, Codes(r).1, if r.ReadDone? then r.data else []))
  {
  }

  lemma ReplyKeepsBook(s: Session, book: Book)
    requires s.vcon.replies != [] && Tells(s, book)
    ensures Tells(s.(vcon := HandleReply(s.vcon)), book)
  {
    var v, r := s.vcon, s.vcon.replies[0];
    var w := v.(replies := v.replies[1..], free := v.free + [r.vid]);
    assert ConsoleTells(w, book);
    if r.pkt.Some? {
      ReplyIsAnswer(book(r.pkt.value), r.result, r.pkt.value);
      AnsweredTells(w, r.pkt.value, Codes(r.result).0, Codes(r.result).1, if r.result.ReadDone? then r.result.data else [], book);
    }
  }

  predicate SameLists(s: Sio<VReq>, t: Sio<VReq>) { t.recv == s.recv && t.send == s.send && t.wait == s.wait }

  lemma TakeDataFrame(s: Session, id: nat, data: seq<byte>)
    ensures var t := TakeData(s, id, data).sio; SameLists(s.sio, t) && t.out == s.sio.out
  {
  }

  lemma DecideFrame(sio: Sio<VReq>, shown: seq<byte>, q: VReq)
    ensures var d := DecideData(sio, shown, q); d.Forward? ==> SameLists(sio, d.sio) && d.sio.out == sio.out
  {
  }

  lemma DataFrame(s: Session, id: nat, data: seq<byte>, q: VReq)
    ensures var t := HandleData(s, id, data, q).sio; SameLists(s.sio, t) && t.out == s.sio.out
  {
    var t := TakeData(s, id, data);
    TakeDataFrame(s, id, data);
    DecideFrame(t.sio, Shown(s, Looked(s, data)), q);
    ApplyShape(t, q, DecideData(t.sio, Shown(s, Looked(s, data)), q));
  }

  lemma FreedFrame(s: Session)
    requires s.sio.out != []
    ensures SameLists(s.sio, Freed(s).sio) && Freed(s).sio.out == s.sio.out[1..]
  {
  }

  lemma SockFrame(s: Session)
    requires s.sio.out != []
    ensures var t := HandleSock(s).sio; SameLists(s.sio, t) && t.out == s.sio.out[1..]
  {
    var r := s.sio.out[0];
    SockCases(s);
    FreedFrame(s);
    if r.user.Some? && r.RecvDone? && r.data != [] {
      DataFrame(s.(sio := Take(s.sio)), r.id, r.data, r.user.value);
    }
  }

  /** What the reply of the socket service says to the console. */
  lemma AnswerSays(r: Reply<VReq>, book: Book)
    requires AnswerOk(r, Users(book), Finders(book)) && r.user.Some? && !(r.RecvDone? && r.data != [])
    ensures r.user.value.pkt.Some? && ResultOk(book(r.user.value.pkt.value), ResultOf(r, r.user.value))
  {
  }

  lemma SockKeepsBook(s: Session, book: Book)
    requires s.sio.out != [] && Tells(s, book)
    ensures Tells(HandleSock(s), book)
  {
    var r, t := s.sio.out[0], HandleSock(s);
    assert AnswerOk(r, Users(book), Finders(book));
    SockFrame(s);
    if r.user.Some? && r.RecvDone? && r.data != [] {
      DataKeepsBook(s, book);
    } else {
      PassesOn(s);
      if r.user.Some? {
        AnswerSays(r, book);
        RepliedTells(s.vcon, t.vcon.replies[|s.vcon.replies|], book);
      }
    }
  }

  lemma DataKeepsBook(s: Session, book: Book)
    requires s.sio.out != [] && IsData(s.sio.out[0]) && Tells(s, book)
    ensures Tells(HandleSock(s), book)
  {
    var r, t := s.sio.out[0], HandleSock(s);
    assert AnswerOk(r, Users(book), Finders(book));
    LooksAt(s);
    SockFrame(s);
    if GoesOn(s) {
      AskedAgainTells(s.sio, t.sio, r.user.value, book);
    } else {
      RepliedTells(s.vcon, t.vcon.replies[|s.vcon.replies|], book);
    }
  }

  lemma AskedAgainTells(s: Sio<VReq>, t: Sio<VReq>, q: VReq, book: Book)
    requires s.out != [] && AllUsers(s, Users(book), Finders(book)) && Users(book)(ToRead, Some(q)) && AskedAgain(s.port, t.port, q)
    requires t.recv == s.recv && t.send == s.send && t.wait == s.wait && t.out == s.out[1..]
    ensures AllUsers(t, Users(book), Finders(book))
  {
    forall i | 0 <= i < |t.port| ensures Users(book)(KindOf(t.port[i]), UserOf(t.port[i])) {
      if i < |s.port| {
        assert t.port[i] == t.port[..|s.port|][i] == s.port[i];
      }
    }
  }

  // ----- waits -----

  /** What holds of a wait's answers while it is not yet entered that the first wait has found a character. */
  function FindersOr(book: Book, found: Option<VReq>): Option<VReq> -> bool {
    (u: Option<VReq>) => Finders(book)(u) || u == found
  }

  lemma WeakerFinders(s: Sio<VReq>, book: Book, found: Option<VReq>)
    requires AllUsers(s, Users(book), Finders(book))
    ensures AllUsers(s, Users(book), FindersOr(book, found))
  {
    forall i | 0 <= i < |s.out| ensures AnswerOk(s.out[i], Users(book), FindersOr(book, found)) {
      assert AnswerOk(s.out[i], Users(book), Finders(book));
    }
  }

  function Without(s: Sio<VReq>, j: nat): Sio<VReq>
    requires j < |s.out|
  {
    s.(out := s.out[..j] + s.out[j + 1..])
  }

  /** Everything but the reply of the wait that found a character. */
  lemma OthersTell(s: Sio<VReq>, j: nat, book: Book, found: VReq, k: nat)
    requires j < |s.out| && found.pkt == Some(k) && AllUsers(s, Users(book), FindersOr(book, Some(found)))
    requires NoneAtSocket(Without(s, j), k)
    ensures AllUsers(Without(s, j), Users(book), Finders(book))
  {
    var t := Without(s, j);
    forall i | 0 <= i < |t.out| ensures AnswerOk(t.out[i], Users(book), Finders(book)) {
      assert t.out[i] == s.out[if i < j then i else i + 1];
      assert NotOf(t.out[i].user, k);
    }
  }

  lemma PutBack(s: Sio<VReq>, j: nat, book: Book)
    requires j < |s.out| && AllUsers(Without(s, j), Users(book), Finders(book)) && AnswerOk(s.out[j], Users(book), Finders(book))
    ensures AllUsers(s, Users(book), Finders(book))
  {
    var t := Without(s, j);
    forall i | 0 <= i < |s.out| ensures AnswerOk(s.out[i], Users(book), Finders(book)) {
      if i != j {
        assert s.out[i] == t.out[if i < j then i else i - 1];
      }
    }
  }

  /** Without its one reply nothing stands for a packet. */
  lemma ReplyWasAll(s: Session, j: nat, k: nat)
    requires j < |s.sio.out| && s.sio.out[j].user.Some? && s.sio.out[j].user.value.pkt == Some(k) && ExactlyOnce(s)
    ensures NoneFor(s.(sio := Without(s.sio, j)), k)
  {
    var t := s.(sio := Without(s.sio, j));
    SumRemove(s.sio.out, j, OutTok, Attached(PktIs(k)));
    assert Stands(s, k) == if k in s.vcon.arrived then 1 else 0;
    assert Stands(t, k) == 0;
    NoneForOf(t, k);
  }

  lemma FoundTells(s: Session, t: Session, j: nat, found: VReq, k: nat, book: Book, more: Book)
    requires ExactlyOnce(t) && t.vcon == s.vcon && ConsoleTells(s.vcon, book) && found.pkt == Some(k)
    requires j < |t.sio.out| && t.sio.out[j] == WaitDone(t.sio.out[j].id, true, Some(found))
    requires AllUsers(t.sio, Users(book), FindersOr(book, Some(found))) && UserOk(book(k), ToWait, found.op)
    requires more == Enter(book, k, Found)
    ensures Tells(t, more)
  {
    var rest := t.(sio := Without(t.sio, j));
    ReplyWasAll(t, j, k);
    OthersTell(t.sio, j, book, found, k);
    Transfer(rest, book, more, k);
    PutBack(t.sio, j, more);
  }

  lemma FinderKeepsBook(s: Session, e: Env, book: Book)
    requires EnvOk(s.sio, e) && Tells(s, book) && FindsCharacter(s.sio, e) && ExactlyOnce(s.(sio := WaitStep(s.sio, e)))
    ensures Tells(s.(sio := WaitStep(s.sio, e)), After(s, SocketWait(e), book))
  {
    var u := s.sio.wait[0].user;
    assert Users(book)(ToWait, u);
    var t := s.(sio := WaitStep(s.sio, e));
    WeakerFinders(s.sio, book, u);
    WaitKeepsUsers(s.sio, e, Users(book), FindersOr(book, u));
    var j := FoundIsAnswered(s.sio, e);
    FoundTells(s, t, j, u.value, u.value.pkt.value, book, After(s, SocketWait(e), book));
  }

  lemma WaitKeepsBook(s: Session, e: Env, book: Book)
    requires EnvOk(s.sio, e) && Tells(s, book) && ExactlyOnce(s.(sio := WaitStep(s.sio, e)))
    ensures Tells(s.(sio := WaitStep(s.sio, e)), After(s, SocketWait(e), book))
  {
    if FindsCharacter(s.sio, e) {
      FinderKeepsBook(s, e, book);
    } else {
      WaitKeepsUsers(s.sio, e, Users(book), Finders(book));
    }
  }

  // ----- over whole runs -----

  lemma StepKeepsBook(s: Session, ev: Event, book: Book)
    requires Enabled(s, ev) && Tells(s, book) && ExactlyOnce(s) && ExactlyOnce(Step(s, ev))
    ensures Tells(Step(s, ev), After(s, ev, book))
  {
    match ev
    case PktArrives(p) => ArriveKeepsBook(s, p, book);
    case SocketWait(e) => WaitKeepsBook(s, e, book);
    case ConsolePacket => PacketKeepsBook(s, book);
    case ConsoleReply => ReplyKeepsBook(s, book);
    case SocketReply => SockKeepsBook(s, book);
    case ConsoleMessage(started) => MessageKeepsBook(s, started, book);
    case IdleCheck =>
  }

  lemma {:induction false} RunKeepsBook(states: seq<Session>, evs: seq<Event>, i: nat)
    requires IsRun(states, evs) && i < |states| && ExactlyOnce(states[0]) && Tells(states[0], Empty())
    ensures ExactlyOnce(states[i]) && Tells(states[i], BookAt(states, evs, i))
  {
    if i > 0 {
      RunKeepsBook(states, evs, i - 1);
      var s, ev := states[i - 1], evs[i - 1];
      assert Enabled(s, ev) && states[i] == Step(s, ev);
      StepKeepsExactlyOnce(s, ev);
      StepKeepsBook(s, ev, BookAt(states, evs, i - 1));
    }
  }

  lemma StartTells(sids: seq<nat>, vids: seq<nat>, pushMax: nat, split: bool, parse: bool, medium: bool, send: bool)
    ensures Tells(Start(sids, vids, pushMax, split, parse, medium, send), Empty())
  {
  }

  /** Over every run: every answer is the one its packet is to get, from what it asked for and from what was decided. */
  lemma AnswersAre(states: seq<Session>, evs: seq<Event>, i: nat, m: nat)
    requires IsRun(states, evs) && i < |states| && ExactlyOnce(states[0]) && Tells(states[0], Empty())
    requires m < |states[i].vcon.answers|
    ensures var a := states[i].vcon.answers[m]; AnswerIs(BookAt(states, evs, i)(a.pkt), a)
  {
    RunKeepsBook(states, evs, i);
  }

  // ----- what the book says, from the events alone -----

  /** What was decided is not decided again. */
  lemma DecidedStays(s: Session, ev: Event, book: Book, k: nat)
    requires Enabled(s, ev) && Tells(s, book) && !book(k).fate.Undecided? && k in s.vcon.arrived
    ensures After(s, ev, book)(k) == book(k)
  {
    if ev.SocketWait? && FindsCharacter(s.sio, ev.e) {
      assert Users(book)(ToWait, s.sio.wait[0].user);
    }
  }

  lemma ArrivedStays(s: Session, ev: Event)
    requires Enabled(s, ev)
    ensures forall k :: k in s.vcon.arrived ==> k in Step(s, ev).vcon.arrived
  {
    match ev
    case SocketReply =>
      if IsData(s.sio.out[0]) {
        LooksAt(s);
      } else {
        PassesOn(s);
      }
    case ConsoleMessage(started) => VconTakesOne(s, started);
    case ConsolePacket => PktShape(s.vcon);
    case _ =>
  }

  /** What the packet asked for when it arrived. */
  function ActionAt(evs: seq<Event>, i: nat, k: nat): Option<Action>
    requires i <= |evs|
  {
    if i == 0 then None
    else if evs[i - 1].PktArrives? && evs[i - 1].p.id == k then Some(evs[i - 1].p.action)
    else ActionAt(evs, i - 1, k)
  }

  lemma ActionAfter(s: Session, ev: Event, book: Book, k: nat)
    ensures After(s, ev, book)(k).action ==
              if ev.PktArrives? && ev.p.id == k then Some(ev.p.action) else book(k).action
  {
  }

  /** In every state the book says of a packet what it asked for. */
  lemma {:induction false} ActionIs(states: seq<Session>, evs: seq<Event>, i: nat, k: nat)
    requires |states| == |evs| + 1 && i < |states|
    ensures BookAt(states, evs, i)(k).action == ActionAt(evs, i, k)
  {
    if i > 0 {
      ActionIs(states, evs, i - 1, k);
      ActionAfter(states[i - 1], evs[i - 1], BookAt(states, evs, i - 1), k);
    }
  }

  predicate FoundBefore(states: seq<Session>, evs: seq<Event>, i: nat, k: nat)
    requires |states| == |evs| + 1 && i < |states|
  {
    i > 0 && (FoundBefore(states, evs, i - 1, k) || Finder(states[i - 1], evs[i - 1]) == Some(k))
  }

  lemma FinderIsUndecided(s: Session, ev: Event, book: Book, k: nat)
    requires Tells(s, book) && Finder(s, ev) == Some(k)
    ensures book(k).action.Some? && book(k).action.value.WaitChar? && book(k).fate.Undecided?
  {
    assert Users(book)(ToWait, s.sio.wait[0].user);
  }

  predicate FoundSo(s: Session, c: Entry, k: nat, before: bool) {
    (c.fate.Found? <==> before) && (before ==> k in s.vcon.arrived)
  }

  lemma FinderArrived(s: Session, ev: Event, k: nat)
    requires Finder(s, ev) == Some(k) && ExactlyOnce(s)
    ensures k in s.vcon.arrived
  {
    assert Stands(s, k) == if k in s.vcon.arrived then 1 else 0;
    SumMember(s.sio.wait, 0, WaitTok, Attached(PktIs(k)));
  }

  lemma StepFinds(s: Session, ev: Event, book: Book, k: nat, before: bool)
    requires Enabled(s, ev) && Tells(s, book) && ExactlyOnce(s) && FoundSo(s, book(k), k, before)
    ensures FoundSo(Step(s, ev), After(s, ev, book)(k), k, before || Finder(s, ev) == Some(k))
  {
    ArrivedStays(s, ev);
    if before {
      DecidedStays(s, ev, book, k);
    } else if Finder(s, ev) == Some(k) {
      FinderIsUndecided(s, ev, book, k);
      FinderArrived(s, ev, k);
    }
  }

  lemma StepInRunFinds(states: seq<Session>, evs: seq<Event>, n: nat, k: nat, before: bool)
    requires IsRun(states, evs) && n < |evs| && ExactlyOnce(states[n]) && Tells(states[n], BookAt(states, evs, n))
    requires FoundSo(states[n], BookAt(states, evs, n)(k), k, before)
    ensures FoundSo(states[n + 1], BookAt(states, evs, n + 1)(k), k, before || Finder(states[n], evs[n]) == Some(k))
  {
    assert Enabled(states[n], evs[n]) && states[n + 1] == Step(states[n], evs[n]);
    StepFinds(states[n], evs[n], BookAt(states, evs, n), k, before);
  }

  /** In every state of every run: entered as found if and only if some wait found a character while it was the first one. */
  lemma {:induction false} FoundIff(states: seq<Session>, evs: seq<Event>, i: nat, k: nat)
    requires IsRun(states, evs) && i < |states| && ExactlyOnce(states[0]) && Tells(states[0], Empty())
    ensures FoundSo(states[i], BookAt(states, evs, i)(k), k, FoundBefore(states, evs, i, k))
  {
    if i > 0 {
      FoundIff(states, evs, i - 1, k);
      RunKeepsBook(states, evs, i - 1);
      StepInRunFinds(states, evs, i - 1, k, FoundBefore(states, evs, i - 1, k));
    }
  }

  /**
   A packet that waits for a character, and whose message the socket service has taken, is told that there is one if and
   only if some wait found the socket readable while its message was the first one waiting; otherwise that there is none.
   */
  lemma WaitAnsweredIff(states: seq<Session>, evs: seq<Event>, i: nat, m: nat, us: nat)
    requires IsRun(states, evs) && i < |states| && ExactlyOnce(states[0]) && Tells(states[0], Empty())
    requires m < |states[i].vcon.answers|
    requires var c := BookAt(states, evs, i)(states[i].vcon.answers[m].pkt);
             c.action == Some(WaitChar(us)) && !c.fate.Refused? && !c.fate.Unserved?
    ensures var a := states[i].vcon.answers[m];
            (a.res1, a.res2) == if FoundBefore(states, evs, i, a.pkt) then (-1, 1) else (0, 0)
  {
    AnswersAre(states, evs, i, m);
    FoundIff(states, evs, i, states[i].vcon.answers[m].pkt);
  }

  // ----- messages the socket service does not take -----

  /** The packet whose message is refused, if one is. */
  function Refuser(s: Session, ev: Event): Option<nat> {
    if ev.ConsoleMessage? && s.vcon.toUser != [] && s.socketActive && (s.sio.state == Failed || s.sio.free == [])
       && !s.vcon.toUser[0].op.VMode?
    then s.vcon.toUser[0].pkt else None
  }

  predicate RefusedBefore(states: seq<Session>, evs: seq<Event>, i: nat, k: nat)
    requires |states| == |evs| + 1 && i < |states|
  {
    i > 0 && (RefusedBefore(states, evs, i - 1, k) || Refuser(states[i - 1], evs[i - 1]) == Some(k))
  }

  predicate RefusedSo(s: Session, c: Entry, k: nat, before: bool) {
    (c.fate.Refused? <==> before) && (before ==> k in s.vcon.arrived)
  }

  lemma RefuserArrived(s: Session, ev: Event, k: nat)
    requires Refuser(s, ev) == Some(k) && ExactlyOnce(s)
    ensures k in s.vcon.arrived
  {
    assert Stands(s, k) == if k in s.vcon.arrived then 1 else 0;
    SumMember(s.vcon.toUser, 0, ReqTag, PktIs(k));
  }

  lemma StepRefuses(s: Session, ev: Event, book: Book, k: nat, before: bool)
    requires Enabled(s, ev) && Tells(s, book) && ExactlyOnce(s) && RefusedSo(s, book(k), k, before)
    ensures RefusedSo(Step(s, ev), After(s, ev, book)(k), k, before || Refuser(s, ev) == Some(k))
  {
    ArrivedStays(s, ev);
    if before {
      DecidedStays(s, ev, book, k);
    } else if Refuser(s, ev) == Some(k) {
      RefuserArrived(s, ev, k);
    }
  }

  /** Entered as refused if and only if its message came up when the socket service was in error or had no message free. */
  lemma {:induction false} RefusedIff(states: seq<Session>, evs: seq<Event>, i: nat, k: nat)
    requires IsRun(states, evs) && i < |states| && ExactlyOnce(states[0]) && Tells(states[0], Empty())
    ensures RefusedSo(states[i], BookAt(states, evs, i)(k), k, RefusedBefore(states, evs, i, k))
  {
    if i > 0 {
      RefusedIff(states, evs, i - 1, k);
      RunKeepsBook(states, evs, i - 1);
      StepInRunRefuses(states, evs, i - 1, k, RefusedBefore(states, evs, i - 1, k));
    }
  }

  lemma StepInRunRefuses(states: seq<Session>, evs: seq<Event>, n: nat, k: nat, before: bool)
    requires IsRun(states, evs) && n < |evs| && ExactlyOnce(states[n]) && Tells(states[n], BookAt(states, evs, n))
    requires RefusedSo(states[n], BookAt(states, evs, n)(k), k, before)
    ensures RefusedSo(states[n + 1], BookAt(states, evs, n + 1)(k), k, before || Refuser(states[n], evs[n]) == Some(k))
  {
    assert Enabled(states[n], evs[n]) && states[n + 1] == Step(states[n], evs[n]);
    StepRefuses(states[n], evs[n], BookAt(states, evs, n), k, before);
  }
}
