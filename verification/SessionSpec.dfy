/**
 A remote session: it forwards console messages to the socket service and its replies back, splits received data
 at line ends and takes the signal bytes out of it. One event is one handler call of the main loop.
 */
module SessionSpec {
  import opened Common
  import opened SignalBytes
  import opened SockioSpec
  import opened VconSpec

  /**
   consumed: received data the session has looked at and not pushed back.
   posted: each call that signals the console.
   */
  datatype Session = Session(
    sio: Sio<VReq>,
    vcon: Vcon,
    socketActive: bool,
    vconActive: bool,
    splitLines: bool,
    parseSignals: bool,
    doMedium: bool,
    sendMode: bool,
    mode: nat,
    consumed: seq<byte>,
    posted: seq<Posting>)

  /** The signal bytes a call stands for, and the console's ports of that moment. */
  datatype Posting = Posting(bytes: seq<byte>, reader: nat, writer: nat)

  // ----- splitting at a line end -----

  /** Just behind the first newline, or the end. */
  function LineEnd(data: seq<byte>): (n: nat)
    ensures n <= |data|
  {
    if data == [] then 0 else if data[0] == 0x0A then 1 else 1 + LineEnd(data[1..])
  }

  /** A single byte behind the newline is not split off. */
  predicate Splits(data: seq<byte>) { LineEnd(data) < |data| - 1 }

  function LineOf(data: seq<byte>): seq<byte> { if Splits(data) then data[..LineEnd(data)] else data }

  function TailOf(data: seq<byte>): seq<byte> { if Splits(data) then data[LineEnd(data)..] else [] }

  // ----- replies of the socket service -----

  function ReplyTo(s: Session, q: VReq, result: VResult): Session {
    s.(vcon := s.vcon.(replies := s.vcon.replies + [VReply(q.vid, q.pkt, result)]))
  }

  predicate Cooked(s: Session) { s.splitLines && s.mode == MODE_COOKED }

  /** The part of received data that is looked at now, the rest being pushed back. */
  function Looked(s: Session, data: seq<byte>): seq<byte> { if Cooked(s) then LineOf(data) else data }

  function Rest(s: Session, data: seq<byte>): seq<byte> { if Cooked(s) then TailOf(data) else [] }

  function Shown(s: Session, data: seq<byte>): seq<byte> { if s.parseSignals then Visible(data) else data }

  function PostSignals(s: Session, data: seq<byte>): Session {
    if s.parseSignals && SignalsIn(data) != []
    then s.(posted := s.posted + [Posting(SignalsIn(data), s.vcon.readPort, s.vcon.writePort)])
    else s
  }

  /** The signal bytes of all calls. */
  function BytesPosted(posted: seq<Posting>): seq<byte> {
    if posted == [] then [] else BytesPosted(posted[..|posted| - 1]) + posted[|posted| - 1].bytes
  }

  /** Which of the four signals occur. */
  function MaskOf(bytes: seq<byte>): seq<bool> {
    seq(NUM_SIGNALS, k requires 0 <= k < NUM_SIGNALS => START_SIGNAL + k in bytes)
  }

  /** What the console's tasks get for these calls. */
  function BreaksOf(posted: seq<Posting>): seq<Break> {
    if posted == [] then []
    else
      var p := posted[|posted| - 1];
      BreaksOf(posted[..|posted| - 1]) + BreaksTo(p.reader, p.writer, MaskOf(p.bytes))
  }

  /** The read again: its buffer holds nothing for the reader, and the message's size field is zero from now on. */
  function Reread(q: VReq): VReq {
    match q.op
    case VRead(buf, _) => q.(op := VRead(buf, 0))
    case _ => q
  }

  function ReadBuf(q: VReq): nat { if q.op.VRead? then q.op.buf else 0 }

  function ReadSize(q: VReq): nat { if q.op.VRead? then q.op.size else 0 }

  /** What becomes of a console message: it is replied to, or attached to a message of the socket service. */
  datatype Decision = Reply(result: VResult) | Forward(sio: Sio<VReq>)

  function Apply(s: Session, q: VReq, d: Decision): Session {
    match d
    case Reply(result) => ReplyTo(s, q, result)
    case Forward(sio) => s.(sio := sio)
  }

  /**
   Received data looked at: its tail pushed back, its signals posted, its socket message free again. When nothing
   is left to show and the read cannot go on, the socket is given up.
   */
  function TakeData(s: Session, id: nat, data: seq<byte>): Session {
    var pushed := if Rest(s, data) != [] then PushBack(s.sio, Rest(s, data)) else s.sio;
    var sio := FreeMsg(pushed, id);
    PostSignals(s, Looked(s, data)).(
      consumed := s.consumed + Looked(s, data),
      sio := sio,
      socketActive := s.socketActive && (Shown(s, Looked(s, data)) != [] || CanSubmit(sio)))
  }

  /** With nothing to show the read goes on, if the socket service accepts it. */
  function DecideData(sio: Sio<VReq>, shown: seq<byte>, q: VReq): Decision {
    if shown == [] && CanSubmit(sio) then Forward(SubmitRecv(sio, ReadBuf(q), ReadSize(q), 1, Some(Reread(q)))) else Reply(ReadDone(shown))
  }

  function HandleData(s: Session, id: nat, data: seq<byte>, q: VReq): Session {
    var s1 := TakeData(s, id, data);
    Apply(s1, q, DecideData(s1.sio, Shown(s, Looked(s, data)), q))
  }

  /** A message whose fields were not touched says this. */
  function Untouched(q: VReq): VResult {
    match q.op
    case VWrite(data) => WriteDone(|data|)
    case VMode(mode) => ModeResult(mode)
    case VRead(_, size) => ReadRefused(size)
    case VWait(us) => WaitResult(us)
    case VEnd => EndResult
  }

  function ResultOf(r: Reply<VReq>, q: VReq): VResult {
    match r
    case RecvDone(_, data, _) => ReadDone(data)
    case WaitDone(_, avail, _) => WaitResult(if avail then 1 else 0)
    case _ => Untouched(q)
  }

  /** The reply is off the port and its message free; an error note ends the socket's service. */
  function Freed(s: Session): Session
    requires s.sio.out != []
  {
    s.(sio := FreeMsg(Take(s.sio), s.sio.out[0].id), socketActive := s.socketActive && !s.sio.out[0].ErrorNote?)
  }

  function HandleSock(s: Session): Session
    requires s.sio.out != []
  {
    var r := s.sio.out[0];
    if r.user.None? then Freed(s)
    else if r.RecvDone? && r.data != [] then HandleData(s.(sio := Take(s.sio)), r.id, r.data, r.user.value)
    else Apply(Freed(s), r.user.value, Reply(ResultOf(r, r.user.value)))
  }

  // ----- messages of the console -----

  predicate Idle(s: Session) { s.sio.recv == [] && s.sio.wait == [] && s.sio.send == [] }

  predicate ModeAccepted(s: Session, mode: nat) {
    mode == MODE_COOKED || mode == MODE_RAW || (mode == MODE_MEDIUM && s.doMedium)
  }

  /** The control sequence that reports a mode: CSI, a digit, V. */
  function ModeReport(mode: nat): Report
    requires mode < 3
  {
    [0x9B, mode + 0x30, 0x56]
  }

  /** The next message changes the mode, and the other side wants to be told. */
  predicate Reports(s: Session)
    requires s.vcon.toUser != []
  {
    var op := s.vcon.toUser[0].op;
    s.socketActive && op.VMode? && ModeAccepted(s, op.mode) && !s.sendMode
  }

  /** All reports are made in one and the same buffer, before it is known whether they can be sent. */
  function Wrote(s: Session): Session
    requires s.vcon.toUser != []
  {
    if Reports(s) then s.(sio := s.sio.(report := ModeReport(s.vcon.toUser[0].op.mode))) else s
  }

  /** A mode change is accepted or not, and when accepted the report made of it is sent unless the other side asked not to be told. */
  function DecideMode(s: Session, q: VReq, mode: nat): Decision {
    if !ModeAccepted(s, mode) then Reply(ModeResult(MODE_UNSUPPORTED))
    else if s.sendMode || !CanSubmit(s.sio) then Reply(ModeResult(mode))
    else Forward(SubmitSend(s.sio, Shared, Some(q)))
  }

  function DecideActive(s: Session, q: VReq, started: bool): Decision {
    match q.op
    case VMode(mode) => DecideMode(s, q, mode)
    case VEnd => Reply(EndResult)
    case VWrite(data) => if CanSubmit(s.sio) then Forward(SubmitSend(s.sio, Own(data), Some(q))) else Reply(Untouched(q))
    case VRead(buf, size) => if CanSubmit(s.sio) then Forward(SubmitRecv(s.sio, buf, size, 1, Some(q))) else Reply(Untouched(q))
    case VWait(_) => if CanSubmit(s.sio) then Forward(SubmitWait(s.sio, started, Some(q))) else Reply(Untouched(q))
  }

  /** Once the socket is given up, writes are swallowed and everything else finds nothing. */
  function Inactive(q: VReq): VResult {
    match q.op
    case VWrite(data) => WriteDone(|data|)
    case VRead(_, _) => ReadDone([])
    case VMode(_) => ModeResult(MODE_UNSUPPORTED)
    case VWait(_) => WaitResult(0)
    case VEnd => EndResult
  }

  function DecideVcon(s: Session, q: VReq, started: bool): Decision {
    if s.socketActive then DecideActive(s, q, started) else Reply(Inactive(q))
  }

  /** The message is off the port, and what it changes in the session itself is changed. */
  function Popped(s: Session): Session
    requires s.vcon.toUser != []
  {
    var q := s.vcon.toUser[0];
    s.(vcon := s.vcon.(toUser := s.vcon.toUser[1..]),
       mode := if q.op.VMode? && s.socketActive && ModeAccepted(s, q.op.mode) then q.op.mode else s.mode,
       vconActive := s.vconActive && !q.op.VEnd?,
       socketActive := s.socketActive && !(q.op.VEnd? && Idle(s)))
  }

  function HandleVcon(s: Session, started: bool): Session
    requires s.vcon.toUser != []
  {
    Apply(Popped(Wrote(s)), s.vcon.toUser[0], DecideVcon(Wrote(s), s.vcon.toUser[0], started))
  }

  /** What handling a console message does to the socket service. */
  lemma MessageShape(s: Session, started: bool)
    requires s.vcon.toUser != []
    ensures var d := DecideVcon(Wrote(s), s.vcon.toUser[0], started);
            HandleVcon(s, started).sio == if d.Forward? then d.sio else Wrote(s).sio
  {
  }

  // ----- runs -----

  datatype Event =
    | PktArrives(p: Pkt)
    | SocketWait(e: Env)
    | ConsolePacket
    | ConsoleReply
    | SocketReply
    | ConsoleMessage(started: bool)
    | IdleCheck

  /** When an event can happen; packets are distinct. */
  predicate Enabled(s: Session, ev: Event) {
    match ev
    case PktArrives(p) => p.id !in s.vcon.arrived
    case SocketWait(e) => EnvOk(s.sio, e)
    case ConsolePacket => s.vcon.pkts != []
    case ConsoleReply => s.vcon.replies != []
    case SocketReply => s.sio.out != []
    case ConsoleMessage(_) => s.vcon.toUser != []
    case IdleCheck => true
  }

  ghost function Step(s: Session, ev: Event): Session
    requires Enabled(s, ev)
  {
    match ev
    case PktArrives(p) => s.(vcon := Arrive(s.vcon, p))
    case SocketWait(e) => s.(sio := WaitStep(s.sio, e))
    case ConsolePacket => s.(vcon := HandlePkt(s.vcon))
    case ConsoleReply => s.(vcon := HandleReply(s.vcon))
    case SocketReply => HandleSock(s)
    case ConsoleMessage(started) => HandleVcon(s, started)
    case IdleCheck => s.(socketActive := s.socketActive && !(Idle(s) && !s.vconActive))
  }

  /** The states a session passes through. */
  ghost predicate IsRun(states: seq<Session>, evs: seq<Event>) {
    && |states| == |evs| + 1
    && forall i :: 0 <= i < |evs| ==> Enabled(states[i], evs[i]) && states[i + 1] == Step(states[i], evs[i])
  }

  function Start(sids: seq<nat>, vids: seq<nat>, pushMax: nat, split: bool, parse: bool, medium: bool, send: bool): Session {
    Session(Initial(sids, pushMax), CreateHandle(CreateHandle(Fresh(vids))), true, true, split, parse, medium, send,
            MODE_COOKED, [], [])
  }
}
