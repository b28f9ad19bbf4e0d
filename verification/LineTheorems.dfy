/** The two loops of `Line` on the socket service: their scripts are what runs of the service produce. */
module LineTheorems {
  import opened Common
  import opened SockioSpec
  import opened LineRuns
  import opened SessionStream
  import Line

  // ----- the two clients -----

  function LineAsks(r: Line.Reply): bool {
    match r
    case CharReply(avail, _) => avail
    case RecvReply(chunk, _) => Line.NewlineAt(chunk) == |chunk|
    case ErrorReply => false
  }

  function LineBack(r: Line.Reply): seq<byte> {
    match r
    case RecvReply(chunk, _) =>
      var n := Line.NewlineAt(chunk);
      if n < |chunk| then Line.PushedFor(chunk[n + 1..]) else []
    case _ => []
  }

  function LineClient(buf: nat, left: nat): Client { Client(LineAsks, LineBack, buf, left) }

  function CheckAsks(r: Line.Reply): bool { r.CharReply? && r.avail }

  function CheckBack(special: seq<byte>): Line.Reply -> seq<byte> {
    (r: Line.Reply) => if r.RecvReply? && Line.CharOf(r) !in special then [Line.CharOf(r)] else []
  }

  function CheckClient(special: seq<byte>, buf: nat): Client { Client(CheckAsks, CheckBack(special), buf, 1) }

  lemma {:induction false} LineStays(script: seq<Line.Reply>, buf: nat, left: nat)
    ensures Line.HandleAll(Line.BEGIN, script).stay <==> Stays(LineClient(buf, left), script)
  {
    if script != [] {
      var n := |script| - 1;
      LineStays(script[..n], buf, left);
      SnocStays(LineClient(buf, left), script[..n], script[n]);
      assert script == script[..n] + [script[n]];
    }
  }

  lemma {:induction false} CheckStays(script: seq<Line.Reply>, special: seq<byte>, buf: nat)
    ensures Line.CheckAll(script, special).stay <==> Stays(CheckClient(special, buf), script)
  {
    if script != [] {
      var n := |script| - 1;
      CheckStays(script[..n], special, buf);
      SnocStays(CheckClient(special, buf), script[..n], script[n]);
      assert script == script[..n] + [script[n]];
    }
  }

  // ----- what is delivered is what the loop has seen -----

  /** As long as the loop goes on: what the service delivered is what was received, or waits on the port. */
  ghost predicate SeesAll(c: Client, x: Reader, before: seq<byte>) {
    Stays(c, x.script) ==> Delivered(x.sio, before + Line.Stream(x.script))
  }

  lemma RespondDelivers(c: Client, x: Reader, started: bool)
    requires x.sio.out != [] && AsksAgain(c, x)
    ensures TakeOne(c, x, started).sio.hist == x.sio.hist
  {
  }

  lemma StreamSnoc(script: seq<Line.Reply>, r: Reply<nat>, next: bool)
    ensures Line.Stream(script + [Seen(r, next)]) == Line.Stream(script) + ReadData(r)
  {
    assert (script + [Seen(r, next)])[..|script|] == script;
  }

  lemma TakeSeesAll(c: Client, x: Reader, started: bool, before: seq<byte>)
    requires x.sio.out != [] && SeesAll(c, x, before)
    ensures SeesAll(c, TakeOne(c, x, started), before)
  {
    var r, next := x.sio.out[0], CanSubmit(Take(x.sio));
    SnocStays(c, x.script, Seen(r, next));
    if Stays(c, x.script) && AsksAgain(c, x) {
      RespondDelivers(c, x, started);
      TakenFrame(c, x, started);
      StreamSnoc(x.script, r, next);
      DataOfHead(x.sio.out);
      Assoc(before, Line.Stream(x.script), ReadData(r));
      Assoc(before + Line.Stream(x.script), ReadData(r), DataOf(x.sio.out[1..]));
    }
  }

  lemma MoveSeesAll(c: Client, x: Reader, m: Move, before: seq<byte>)
    requires CanMove(c, x, m) && SeesAll(c, x, before)
    ensures SeesAll(c, Moved(c, x, m), before)
  {
    match m
    case Waits(e) => WaitKeepsDelivered(x.sio, e, before + Line.Stream(x.script));
    case Takes(started) => TakeSeesAll(c, x, started, before);
  }

  lemma {:induction false} RunSeesAll(c: Client, states: seq<Reader>, moves: seq<Move>, i: nat, before: seq<byte>)
    requires LineRuns.IsRun(c, states, moves) && i < |states| && SeesAll(c, states[0], before)
    ensures SeesAll(c, states[i], before)
  {
    if i > 0 {
      RunSeesAll(c, states, moves, i - 1, before);
      MoveSeesAll(c, states[i - 1], moves[i - 1], before);
    }
  }

  lemma BeginSeesAll(c: Client, s: Sio<nat>, started: bool)
    requires Unused(s) && CanSubmit(s)
    ensures SeesAll(c, Begin(s, started), s.hist.kept)
  {
    assert s.hist.kept + [] + [] == s.hist.kept;
  }

  // ----- the loops -----

  /**
   Reading a line, over every run of the socket service: the loop finds the first newline of what comes in, and as long as
   there is none its text is exactly what the service has delivered since.
   */
  lemma ServiceReadsLine(s: Sio<nat>, started: bool, buf: nat, left: nat, states: seq<Reader>, moves: seq<Move>, i: nat)
    requires Unused(s) && CanSubmit(s) && LineRuns.IsRun(LineClient(buf, left), states, moves) && i < |states|
    requires states[0] == Begin(s, started)
    ensures var script := states[i].script;
            var p := Line.HandleAll(Line.BEGIN, script);
            && Line.Orderly(script) && Line.Reads(p, Line.Stream(script))
            && (p.stay ==> Delivered(states[i].sio, s.hist.kept + p.text))
  {
    var c, script := LineClient(buf, left), states[i].script;
    BeginIsInOrder(c, s, started);
    RunIsInOrder(c, states, moves, i);
    forall k | 0 <= k < |script| && !Line.HandleAll(Line.BEGIN, script[..k]).stay ensures script[k].ErrorReply? {
      LineStays(script[..k], buf, left);
    }
    Line.ReadsFirstLine(script);
    LineStays(script, buf, left);
    BeginSeesAll(c, s, started);
    RunSeesAll(c, states, moves, i, s.hist.kept);
    StayingText(script);
  }

  /** A loop that goes on has met no newline. */
  lemma StayingText(script: seq<Line.Reply>)
    requires Line.Orderly(script)
    ensures var p := Line.HandleAll(Line.BEGIN, script); p.stay ==> p.text == Line.Stream(script)
  {
    Line.ReadsFirstLine(script);
    NoResultYet(script);
  }

  lemma {:induction false} NoResultYet(script: seq<Line.Reply>)
    ensures var p := Line.HandleAll(Line.BEGIN, script); p.stay ==> p.result < 0
  {
    if script != [] {
      NoResultYet(script[..|script| - 1]);
    }
  }

  /** Checking for a character, over every run of the socket service. */
  lemma ServiceChecksCharacter(s: Sio<nat>, started: bool, special: seq<byte>, buf: nat, states: seq<Reader>, moves: seq<Move>, i: nat)
    requires Unused(s) && CanSubmit(s) && LineRuns.IsRun(CheckClient(special, buf), states, moves) && i < |states|
    requires states[0] == Begin(s, started)
    ensures var script := states[i].script;
            var c := Line.CheckAll(script, special);
            Line.OrderlyCheck(script, special) && Line.Checked(script, special, c.result, c.pushed)
  {
    var c, script := CheckClient(special, buf), states[i].script;
    BeginIsInOrder(c, s, started);
    RunIsInOrder(c, states, moves, i);
    forall k | 0 <= k < |script| && !Line.CheckAll(script[..k], special).stay ensures script[k].ErrorReply? {
      CheckStays(script[..k], special, buf);
    }
    Line.ChecksCharacter(script, special);
  }
}
