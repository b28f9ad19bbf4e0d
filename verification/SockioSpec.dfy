/**
 The socket message service as an abstract machine: requests are values in FIFO lists, buffers are
 sequences of bytes, and the socket, the timer and the signals are inputs of each wait step.
 History fields record what the network delivered and accepted; no step reads them.
 */
module SockioSpec {
  import opened Common

  // ----- messages -----

  /** `buf` names memory of the client, of which up to `cap` bytes may be used. */
  datatype RecvReq<U> = RecvReq(id: nat, buf: nat, cap: nat, min: nat, user: Option<U>)
  /** The bytes of a send are its own, or those the user's report buffer holds whenever they are read. */
  datatype Load = Own(bytes: seq<byte>) | Shared

  /** The report buffer, as far as it is sent. */
  type Report = r: seq<byte> | |r| == 3 witness [0, 0, 0]

  function Bytes(report: Report, load: Load): seq<byte> {
    match load case Own(bytes) => bytes case Shared => report
  }

  datatype SendReq<U> = SendReq(id: nat, load: Load, user: Option<U>)
  datatype WaitReq<U> = WaitReq(id: nat, job: Option<nat>, user: Option<U>)

  /** A request on the message port. */
  datatype Req<U> = Rx(recv: RecvReq<U>) | Tx(send: SendReq<U>) | Wt(wait: WaitReq<U>)

  datatype Reply<U> =
    | RecvDone(id: nat, data: seq<byte>, user: Option<U>)
    | SendDone(id: nat, user: Option<U>)
    | WaitDone(id: nat, avail: bool, user: Option<U>)
    | ErrorNote(id: nat, code: nat, user: Option<U>)

  const ERROR_WAIT := 0
  const ERROR_IO := 1

  datatype State = Ok | Eof | Failed

  /** A running timer request and the message it will expire. */
  datatype Job = Job(jid: nat, owner: nat)

  /**
   received: all bytes recv returned.  kept: data of answered reads minus what was pushed back.
   sent: all bytes send accepted.  submitted: the payloads of sends as they were when submitted.
   */
  datatype Hist = Hist(
    received: seq<byte>,
    kept: seq<byte>,
    sent: seq<byte>,
    submitted: seq<seq<byte>>)

  datatype Sio<U> = Sio(
    free: seq<nat>,
    port: seq<Req<U>>,
    recv: seq<RecvReq<U>>,
    send: seq<SendReq<U>>,
    wait: seq<WaitReq<U>>,
    out: seq<Reply<U>>,
    held: seq<nat>,
    partial: seq<byte>,
    tx: nat,
    state: State,
    push: seq<byte>,
    pushMax: nat,
    jobs: seq<Job>,
    nextJob: nat,
    report: Report,
    hist: Hist)

  function Initial<U>(ids: seq<nat>, pushMax: nat): Sio<U> {
    Sio(ids, [], [], [], [], [], [], [], 0, Ok, [], pushMax, [], 0, [0, 0, 0], Hist([], [], [], []))
  }

  // ----- what the user calls -----

  predicate CanSubmit<U>(s: Sio<U>) { s.state != Failed && s.free != [] }

  function SubmitRecv<U>(s: Sio<U>, buf: nat, cap: nat, min: nat, user: Option<U>): Sio<U>
    requires CanSubmit(s)
  {
    s.(free := s.free[1..], port := s.port + [Rx(RecvReq(s.free[0], buf, cap, min, user))])
  }

  function Payload<U>(s: Sio<U>, m: SendReq<U>): seq<byte> { Bytes(s.report, m.load) }

  function SubmitSend<U>(s: Sio<U>, load: Load, user: Option<U>): Sio<U>
    requires CanSubmit(s)
  {
    s.(free := s.free[1..],
       port := s.port + [Tx(SendReq(s.free[0], load, user))],
       hist := s.hist.(submitted := s.hist.submitted + [Bytes(s.report, load)]))
  }

  /** Starting the timer may fail; the message is queued all the same, without a job. */
  function SubmitWait<U>(s: Sio<U>, started: bool, user: Option<U>): Sio<U>
    requires CanSubmit(s)
  {
    var id := s.free[0];
    if started then
      s.(free := s.free[1..], port := s.port + [Wt(WaitReq(id, Some(s.nextJob), user))],
         jobs := s.jobs + [Job(s.nextJob, id)], nextJob := s.nextJob + 1)
    else
      s.(free := s.free[1..], port := s.port + [Wt(WaitReq(id, None, user))])
  }

  /** The user picks the next reply off its port and holds the message until it frees it. */
  function Take<U>(s: Sio<U>): Sio<U>
    requires s.out != []
  {
    s.(out := s.out[1..], held := s.held + [s.out[0].id])
  }

  function Without(ids: seq<nat>, id: nat): seq<nat> {
    if ids == [] then [] else if ids[0] == id then ids[1..] else [ids[0]] + Without(ids[1..], id)
  }

  function FreeMsg<U>(s: Sio<U>, id: nat): Sio<U> {
    s.(free := s.free + [id], held := Without(s.held, id))
  }

  /** Too large a push-back is refused; otherwise it replaces whatever was pushed back before. */
  function PushBack<U>(s: Sio<U>, data: seq<byte>): Sio<U> {
    if |data| > s.pushMax then s
    else
      var kept := s.hist.kept;
      s.(push := data,
         hist := s.hist.(kept := if |data| <= |kept| then kept[..|kept| - |data|] else kept))
  }

  /** A new buffer for a pending receive; bytes already there move along, those that no longer fit are pushed back. */
  function ReplaceRecv<U>(s: Sio<U>, k: nat, buf: nat, cap: nat, min: nat): (Sio<U>, bool)
    requires k < |s.recv|
  {
    var s1 := s.(recv := s.recv[k := s.recv[k].(buf := buf, cap := cap, min := min)]);
    if k > 0 then (s1, true)
    else if |s.partial| > cap && |s.partial| - cap > s.pushMax then (s1, false)
    else
      var fits := if |s.partial| > cap then cap else |s.partial|;
      var s2 := s1.(partial := s.partial[..fits], push := if |s.partial| > cap then s.partial[fits..] else s.push);
      (if fits >= min then CompleteRecv(s2) else s2, true)
  }

  // ----- the wait step -----

  datatype Outcome = SelectFailed | SignalsOnly | SocketReady

  datatype RecvResult = Data(chunk: seq<byte>) | RecvAgain | Closed | RecvError

  datatype SendResult = Sent(n: nat) | SendAgain | SendError

  /** Everything the outside decides during one wait. */
  datatype Env = Env(
    outcome: Outcome,
    msgSig: bool,
    timerSig: bool,
    expired: seq<nat>,
    readable: bool,
    writable: bool,
    rx: RecvResult,
    tx: SendResult)

  /** The head receive is answered with the bytes it has. */
  function CompleteRecv<U>(s: Sio<U>): Sio<U>
    requires s.recv != []
  {
    var r := s.recv[0];
    s.(recv := s.recv[1..],
       out := s.out + [RecvDone(r.id, s.partial, r.user)],
       partial := [],
       hist := s.hist.(kept := s.hist.kept + s.partial))
  }

  function CompleteSend<U>(s: Sio<U>): Sio<U>
    requires s.send != []
  {
    var m := s.send[0];
    s.(send := s.send[1..],
       out := s.out + [SendDone(m.id, m.user)],
       tx := 0)
  }

  function EofReplies<U>(rs: seq<RecvReq<U>>): seq<Reply<U>> {
    seq(|rs|, i requires 0 <= i < |rs| => RecvDone(rs[i].id, [], rs[i].user))
  }

  function TimeoutReplies<U>(ws: seq<WaitReq<U>>): seq<Reply<U>> {
    seq(|ws|, i requires 0 <= i < |ws| => WaitDone(ws[i].id, false, ws[i].user))
  }

  function SendReplies<U>(ms: seq<SendReq<U>>): seq<Reply<U>> {
    seq(|ms|, i requires 0 <= i < |ms| => SendDone(ms[i].id, ms[i].user))
  }

  function StopJob(jobs: seq<Job>, jid: Option<nat>): seq<Job> {
    if jid.None? || jobs == [] then jobs
    else if jobs[0].jid == jid.value then jobs[1..]
    else [jobs[0]] + StopJob(jobs[1..], jid)
  }

  function StopJobs<U>(jobs: seq<Job>, ws: seq<WaitReq<U>>): seq<Job> {
    if ws == [] then jobs else StopJob(StopJobs(jobs, ws[..|ws| - 1]), ws[|ws| - 1].job)
  }

  function FlushRecv<U>(s: Sio<U>): Sio<U> {
    s.(recv := [], wait := [],
       out := s.out + EofReplies(s.recv) + TimeoutReplies(s.wait),
       jobs := StopJobs(s.jobs, s.wait))
  }

  function FlushSend<U>(s: Sio<U>): Sio<U> {
    s.(send := [], out := s.out + SendReplies(s.send))
  }

  /** Enter the error state: every queued request is answered, and one error note if a message is free. */
  function FailAll<U>(s: Sio<U>, code: nat): Sio<U> {
    var f := FlushRecv(FlushSend(s)).(state := Failed, partial := [], tx := 0);
    if f.free == [] then f
    else f.(free := f.free[1..], out := f.out + [ErrorNote(f.free[0], code, None)])
  }

  function FlushForState<U>(s: Sio<U>): Sio<U> {
    match s.state
    case Ok => s
    case Eof => FlushRecv(s)
    case Failed => FlushRecv(FlushSend(s))
  }

  /** Pushed-back bytes go to the head receive first; the receive still to be served, if any, comes second. */
  function ServePushBack<U>(s: Sio<U>): (Sio<U>, Option<RecvReq<U>>) {
    if s.recv == [] then (s, None)
    else if s.push == [] then (s, Some(s.recv[0]))
    else
      var room := s.recv[0].cap - |s.partial|;
      var n := if room <= 0 then 0 else if |s.push| > room then room else |s.push|;
      var s1 := s.(partial := s.partial + s.push[..n], push := s.push[n..]);
      if |s1.partial| >= s.recv[0].min then (CompleteRecv(s1), None) else (s1, Some(s.recv[0]))
  }

  function HeadOf<T>(list: seq<T>): Option<T> { if list == [] then None else Some(list[0]) }

  function RecvsOf<U>(port: seq<Req<U>>): seq<RecvReq<U>> {
    if port == [] then []
    else
      var m := port[|port| - 1];
      RecvsOf(port[..|port| - 1]) + (if m.Rx? then [m.recv] else [])
  }

  function SendsOf<U>(port: seq<Req<U>>): seq<SendReq<U>> {
    if port == [] then []
    else
      var m := port[|port| - 1];
      SendsOf(port[..|port| - 1]) + (if m.Tx? then [m.send] else [])
  }

  function WaitsOf<U>(port: seq<Req<U>>): seq<WaitReq<U>> {
    if port == [] then []
    else
      var m := port[|port| - 1];
      WaitsOf(port[..|port| - 1]) + (if m.Wt? then [m.wait] else [])
  }

  /** Every message on the port moves to the list of its kind. */
  function Drain<U>(s: Sio<U>): Sio<U> {
    s.(port := [], recv := s.recv + RecvsOf(s.port), send := s.send + SendsOf(s.port), wait := s.wait + WaitsOf(s.port))
  }

  /** Where in the wait list the message of a job is; past the end if nowhere. */
  function WaiterOf<U>(ws: seq<WaitReq<U>>, jid: nat): (k: nat)
    ensures k <= |ws| && (k < |ws| ==> ws[k].job == Some(jid))
    ensures forall i :: 0 <= i < k ==> ws[i].job != Some(jid)
  {
    if ws == [] || ws[0].job == Some(jid) then 0 else 1 + WaiterOf(ws[1..], jid)
  }

  /** One expired job: it is stopped and its message answered with no character. */
  function ExpireOne<U>(s: Sio<U>, jid: nat): Sio<U> {
    var k := WaiterOf(s.wait, jid);
    if k == |s.wait| then s
    else
      s.(wait := s.wait[..k] + s.wait[k + 1..],
         jobs := StopJob(s.jobs, Some(jid)),
         out := s.out + [WaitDone(s.wait[k].id, false, s.wait[k].user)])
  }

  function Expire<U>(s: Sio<U>, jids: seq<nat>): Sio<U> {
    if jids == [] then s else ExpireOne(Expire(s, jids[..|jids| - 1]), jids[|jids| - 1])
  }

  /** The socket became readable: the head waiter is answered and its job stopped. */
  function AnswerWait<U>(s: Sio<U>): Sio<U>
    requires s.wait != []
  {
    var w := s.wait[0];
    s.(wait := s.wait[1..], jobs := StopJob(s.jobs, w.job), out := s.out + [WaitDone(w.id, true, w.user)])
  }

  function DropHead<U>(s: Sio<U>): Sio<U>
    requires s.recv != []
  {
    s.(recv := s.recv[1..], out := s.out + [RecvDone(s.recv[0].id, [], s.recv[0].user)], partial := [], state := Eof)
  }

  /** The receive picked before the wait: read if it was asked for and possible, answer it once it has enough. */
  function RxPhase<U>(s: Sio<U>, min: nat, read: bool, res: RecvResult): (Sio<U>, bool)
    requires s.recv != []
  {
    if read && res.Closed? && |s.partial| < min then (DropHead(s), false)
    else
      var s1 :=
        if read && res.Data?
        then s.(partial := s.partial + res.chunk, hist := s.hist.(received := s.hist.received + res.chunk))
        else s;
      (if |s1.partial| >= min then CompleteRecv(s1) else s1, read && res.RecvError?)
  }

  function TxPhase<U>(s: Sio<U>, write: bool, res: SendResult): (Sio<U>, bool)
    requires s.send != [] && (write && res.Sent? ==> s.tx + res.n <= |Payload(s, s.send[0])|)
  {
    var payload := Payload(s, s.send[0]);
    var s1 :=
      if write && res.Sent?
      then s.(tx := s.tx + res.n, hist := s.hist.(sent := s.hist.sent + payload[s.tx..s.tx + res.n]))
      else s;
    (if s1.tx == |payload| then CompleteSend(s1) else s1, write && res.SendError?)
  }

  /** What was decided before the wait: which requests to serve and what to ask of the socket. */
  datatype Plan<U> = Plan(rx: Option<RecvReq<U>>, tx: Option<SendReq<U>>, wait: Option<WaitReq<U>>, read: bool, write: bool)

  function Prepare<U>(s: Sio<U>): (Sio<U>, Plan<U>) {
    var s0 := FlushForState(s);
    var (s1, rx) := ServePushBack(s0);
    (s1, Plan(rx, HeadOf(s0.send), HeadOf(s1.wait),
              rx.Some? && |s1.partial| < rx.value.min,
              s0.send != [] && s0.tx < |Payload(s0, s0.send[0])|))
  }

  function Signals<U>(s: Sio<U>, e: Env): Sio<U> {
    var s1 := if e.msgSig then Drain(s) else s;
    if e.timerSig then Expire(s1, e.expired) else s1
  }

  /** What the operating system guarantees of a wait. */
  predicate Promised<U>(s: Sio<U>, e: Env) {
    var (s1, p) := Prepare(s);
    && (e.outcome != SelectFailed ==>
          // a message put to the port has raised the port's signal
          && (s1.port != [] ==> e.msgSig)
          // only running jobs expire, each once
          && (e.timerSig ==>
                && (forall i :: 0 <= i < |e.expired| ==> exists k :: 0 <= k < |s1.jobs| && s1.jobs[k].jid == e.expired[i])
                && (forall i, j :: 0 <= i < j < |e.expired| ==> e.expired[i] != e.expired[j])))
    && (e.outcome == SocketReady ==>
          // recv and send never transfer more than they were asked to, and recv at least one byte
          && (p.read && e.readable && e.rx.Data? ==> 1 <= |e.rx.chunk| && |s1.partial| + |e.rx.chunk| <= p.rx.value.cap)
          && (p.write && e.writable && e.tx.Sent? ==> s1.tx + e.tx.n <= |Payload(s1, p.tx.value)|))
  }

  /** The head waiter's job does not expire in the very wait that finds the socket readable. */
  predicate WaiterNotStale<U>(s: Sio<U>, e: Env) {
    var w := Prepare(s).1.wait;
    e.outcome == SocketReady && e.readable && e.timerSig && w.Some? && w.value.job.Some? ==>
      w.value.job.value !in e.expired
  }

  predicate EnvOk<U>(s: Sio<U>, e: Env) { Promised(s, e) && WaiterNotStale(s, e) }

  /** Whether the socket was found readable; it was only asked about when somebody wanted to know. */
  predicate SeenReadable<U>(p: Plan<U>, e: Env) { e.readable && (p.read || p.wait.Some?) }

  /** The picked requests head their lists and the transfer fits. */
  ghost predicate Servable<U>(s: Sio<U>, p: Plan<U>, e: Env) {
    && (p.rx.Some? ==> s.recv != [] && s.recv[0] == p.rx.value)
    && (p.tx.Some? ==> s.send != [] && s.send[0] == p.tx.value)
    && (p.wait.Some? && e.readable ==> s.wait != [] && s.wait[0] == p.wait.value)
    && (p.read ==> p.rx.Some?)
    && (p.write ==> p.tx.Some?)
    && (p.write && e.writable && e.tx.Sent? ==> s.tx + e.tx.n <= |Payload(s, p.tx.value)|)
  }

  ghost function ServeWait<U>(s: Sio<U>, p: Plan<U>, e: Env): Sio<U>
    requires Servable(s, p, e)
  {
    if p.wait.Some? && SeenReadable(p, e) then AnswerWait(s) else s
  }

  ghost function ServeRx<U>(s: Sio<U>, p: Plan<U>, e: Env): (Sio<U>, bool)
    requires Servable(s, p, e)
  {
    var s1 := ServeWait(s, p, e);
    if p.rx.Some? then RxPhase(s1, p.rx.value.min, p.read && SeenReadable(p, e), e.rx) else (s1, false)
  }

  ghost function ServeTx<U>(s: Sio<U>, p: Plan<U>, e: Env): (Sio<U>, bool)
    requires Servable(s, p, e)
  {
    var (s2, bad1) := ServeRx(s, p, e);
    var (s3, bad2) := if p.tx.Some? then TxPhase(s2, p.write && e.writable, e.tx) else (s2, false);
    (s3, bad1 || bad2)
  }

  /** After the signals: serve the socket. An error is acted on only when both directions have been tried. */
  ghost function Serve<U>(s: Sio<U>, p: Plan<U>, e: Env): Sio<U>
    requires Servable(s, p, e)
  {
    var (s3, bad) := ServeTx(s, p, e);
    if bad then FailAll(s3, ERROR_IO) else s3
  }

  lemma RxPhaseFrame<U>(s: Sio<U>, min: nat, read: bool, res: RecvResult)
    requires s.recv != []
    ensures var t := RxPhase(s, min, read, res).0;
            t == s.(recv := t.recv, out := t.out, partial := t.partial, state := t.state, hist := t.hist)
  {
  }

  lemma TxPhaseFrame<U>(s: Sio<U>, write: bool, res: SendResult)
    requires s.send != [] && (write && res.Sent? ==> s.tx + res.n <= |Payload(s, s.send[0])|)
    ensures var t := TxPhase(s, write, res).0;
            t == s.(send := t.send, out := t.out, tx := t.tx, hist := t.hist)
  {
  }

  // ----- what was picked before the wait is still there after it -----

  lemma {:induction false} ExpireKeeps<U>(s: Sio<U>, jids: seq<nat>)
    ensures var t := Expire(s, jids);
            t == s.(wait := t.wait, jobs := t.jobs, out := t.out)
    ensures s.wait != [] && (s.wait[0].job.Some? ==> s.wait[0].job.value !in jids) ==>
              Expire(s, jids).wait != [] && Expire(s, jids).wait[0] == s.wait[0]
  {
    if jids != [] {
      ExpireKeeps(s, jids[..|jids| - 1]);
    }
  }

  /**
   The removals after the wait take the head of each list; although the message port was drained and jobs
   expired in between, that head is the very message picked before the wait.
   */
  lemma PickedStaysHead<U>(s: Sio<U>, e: Env)
    requires EnvOk(s, e) && e.outcome == SocketReady
    ensures var (s1, p) := Prepare(s);
            var s2 := Signals(s1, e);
            && Servable(s2, p, e)
            && s2.partial == s1.partial && s2.tx == s1.tx && s2.push == s1.push && s2.state == s1.state
            && s2.hist == s1.hist && s2.report == s1.report
  {
    var (s1, p) := Prepare(s);
    var s2 := if e.msgSig then Drain(s1) else s1;
    if e.timerSig {
      ExpireKeeps(s2, e.expired);
    }
  }

  /** One wait, from picking the requests to serving the socket. */
  ghost function WaitStep<U>(s: Sio<U>, e: Env): Sio<U>
    requires EnvOk(s, e)
  {
    var (s1, p) := Prepare(s);
    if e.outcome == SelectFailed then FailAll(s1, ERROR_WAIT)
    else if e.outcome == SignalsOnly then Signals(s1, e)
    else
      PickedStaysHead(s, e);
      Serve(Signals(s1, e), p, e)
  }

  // ----- what is in the buffer of the first receive -----

  /** Once pushed-back bytes have gone there. */
  function Filled<U>(s: Sio<U>): seq<byte> {
    if s.recv == [] || s.push == [] || |s.partial| >= s.recv[0].cap then s.partial
    else
      var room := s.recv[0].cap - |s.partial|;
      s.partial + s.push[..if |s.push| > room then room else |s.push|]
  }

  function Got(partial: seq<byte>, read: bool, res: RecvResult): seq<byte> {
    if read && res.Data? then partial + res.chunk else partial
  }

  /** After the wait. */
  function HeadBytes<U>(s: Sio<U>, e: Env): seq<byte> {
    var p := Prepare(s).1;
    Got(Filled(s), e.outcome == SocketReady && p.rx.Some? && p.read && SeenReadable(p, e), e.rx)
  }
}
