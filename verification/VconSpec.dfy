/**
 The virtual console: DOS packets become messages of a bounded pool for the session, and the session's replies
 become packet answers. Ports are FIFO queues; a message is a value that carries the packet it stands for.
 */
module VconSpec {
  import opened Common

  const DOSTRUE := -1
  const DOSFALSE := 0
  const ERROR_NO_FREE_STORE := 103
  const ERROR_ACTION_NOT_KNOWN := 209
  const ERROR_OBJECT_WRONG_TYPE := 212

  const MODE_COOKED := 0
  const MODE_RAW := 1
  const MODE_MEDIUM := 2
  const MODE_UNSUPPORTED := 0xFF

  /** `port` fields name message ports of tasks; 0 is no port. `buf` names memory of the client. */
  datatype Action =
    | Open
    | End
    | ChangeSignal(port: nat)
    | ScreenMode(mode: int)
    | DiskInfo
    | UndiskInfo
    | Write(data: seq<byte>)
    | Read(buf: nat, size: nat)
    | Seek
    | WaitChar(us: nat)
    | Unknown

  datatype Pkt = Pkt(id: nat, sender: nat, action: Action)

  datatype VOp =
    | VRead(buf: nat, size: nat)
    | VWrite(data: seq<byte>)
    | VWait(us: nat)
    | VMode(mode: nat)
    | VEnd

  /** A message to the session; only the end message stands for no packet. */
  datatype VReq = VReq(vid: nat, pkt: Option<nat>, op: VOp)

  /** ReadRefused: the session could not start the read and replied with the size field as it was. */
  datatype VResult =
    | ReadDone(data: seq<byte>)
    | ReadRefused(size: nat)
    | WriteDone(size: nat)
    | WaitResult(lines: nat)
    | ModeResult(mode: nat)
    | EndResult

  datatype VReply = VReply(vid: nat, pkt: Option<nat>, result: VResult)

  datatype VState = VOpen | VClose | VError | VFlush

  /** What the client gets: two result codes, and for a read the data in its buffer. */
  datatype Answer = Answer(pkt: nat, res1: int, res2: int, data: seq<byte>)

  datatype Vcon = Vcon(
    free: seq<nat>,
    pkts: seq<Pkt>,
    toUser: seq<VReq>,
    replies: seq<VReply>,
    openCnt: nat,
    mode: nat,
    state: VState,
    readPort: nat,
    writePort: nat,
    arrived: seq<nat>,
    answers: seq<Answer>)

  function Fresh(vids: seq<nat>): Vcon {
    Vcon(vids, [], [], [], 0, MODE_COOKED, VClose, 0, 0, [], [])
  }

  /** A file handle made by the session itself; refused once out of messages. */
  function CreateHandle(v: Vcon): Vcon {
    if v.state == VError then v else v.(openCnt := v.openCnt + 1, state := VOpen)
  }

  function Arrive(v: Vcon, p: Pkt): Vcon {
    v.(pkts := v.pkts + [p], arrived := v.arrived + [p.id])
  }

  function AnswerPkt(v: Vcon, pkt: nat, res1: int, res2: int, data: seq<byte>): Vcon {
    v.(answers := v.answers + [Answer(pkt, res1, res2, data)])
  }

  function Post(v: Vcon, pkt: Option<nat>, op: VOp): Vcon
    requires v.free != []
  {
    v.(free := v.free[1..], toUser := v.toUser + [VReq(v.free[0], pkt, op)])
  }

  /** Out of messages: the packet is answered at once, and most actions put the console in its error state. */
  function PostOrFail(v: Vcon, id: nat, op: VOp, becomesError: bool): Vcon {
    if v.free != [] then Post(v, Some(id), op)
    else
      AnswerPkt(if becomesError then v.(state := VError) else v, id, DOSFALSE, ERROR_NO_FREE_STORE, [])
  }

  /** The mode as stored in a byte; -1 stands for raw. */
  function ModeByte(mode: int): nat { (if mode == -1 then MODE_RAW else mode) % 0x100 }

  function HandlePkt(v: Vcon): Vcon
    requires v.pkts != []
  {
    var p := v.pkts[0];
    var v1 := v.(pkts := v.pkts[1..]);
    match p.action
    case Open => AnswerPkt(v1.(openCnt := (v.openCnt + 1) % 0x1_0000_0000), p.id, DOSTRUE, 0, [])
    case End =>
      var left := (v.openCnt - 1) % 0x1_0000_0000;
      var v2 := v1.(openCnt := left);
      if left > 0 then AnswerPkt(v2, p.id, DOSTRUE, 0, [])
      else if v.free == [] then AnswerPkt(v2.(state := VClose), p.id, DOSFALSE, ERROR_NO_FREE_STORE, [])
      else AnswerPkt(Post(v2.(state := VClose), None, VEnd), p.id, DOSTRUE, 0, [])
    case ChangeSignal(port) => AnswerPkt(v1.(readPort := port), p.id, DOSTRUE, v.readPort, [])
    case ScreenMode(mode) => PostOrFail(v1.(mode := ModeByte(mode)), p.id, VMode(ModeByte(mode)), false)
    case DiskInfo => AnswerPkt(v1, p.id, DOSTRUE, 0, [])
    case UndiskInfo => AnswerPkt(v1, p.id, DOSTRUE, 0, [])
    case Write(data) =>
      var v2 := if v.state == VFlush then AnswerPkt(v1, p.id, |data|, 0, []) else PostOrFail(v1, p.id, VWrite(data), true);
      v2.(writePort := p.sender)
    case Read(buf, size) =>
      var v2 := if v.state == VFlush then AnswerPkt(v1, p.id, 0, 0, []) else PostOrFail(v1, p.id, VRead(buf, size), true);
      v2.(readPort := p.sender)
    case Seek => AnswerPkt(v1, p.id, DOSFALSE, ERROR_OBJECT_WRONG_TYPE, [])
    case WaitChar(us) =>
      if v.state == VFlush then AnswerPkt(v1, p.id, DOSFALSE, 0, []) else PostOrFail(v1, p.id, VWait(us), true)
    case Unknown => AnswerPkt(v1, p.id, DOSFALSE, ERROR_ACTION_NOT_KNOWN, [])
  }

  function Codes(r: VResult): (int, int) {
    match r
    case ReadDone(data) => (|data|, 0)
    case ReadRefused(size) => (size, 0)
    case WriteDone(size) => (size, 0)
    case WaitResult(lines) => if lines == 0 then (DOSFALSE, 0) else (DOSTRUE, lines)
    case ModeResult(mode) => if mode == MODE_UNSUPPORTED then (DOSFALSE, ERROR_OBJECT_WRONG_TYPE) else (DOSTRUE, 0)
    case EndResult => (DOSTRUE, 0)
  }

  function HandleReply(v: Vcon): Vcon
    requires v.replies != []
  {
    var r := v.replies[0];
    var v1 := v.(replies := v.replies[1..], free := v.free + [r.vid]);
    match r.pkt
    case None => v1
    case Some(id) => AnswerPkt(v1, id, Codes(r.result).0, Codes(r.result).1, if r.result.ReadDone? then r.result.data else [])
  }

  /** A break sent to a task: which of the four, C to F. */
  datatype Break = Break(task: nat, mask: seq<bool>)

  /** The breaks sent with these ports: to the reader and, if it is another one, to the writer; 0 is no port. */
  function BreaksTo(reader: nat, writer: nat, mask: seq<bool>): seq<Break> {
    (if reader != 0 then [Break(reader, mask)] else []) + (if writer != 0 && writer != reader then [Break(writer, mask)] else [])
  }

  /** Which ports get a signal. */
  function SignalTargets(v: Vcon): set<nat> {
    (if v.readPort != 0 then {v.readPort} else {}) + (if v.writePort != 0 then {v.writePort} else {})
  }
}
