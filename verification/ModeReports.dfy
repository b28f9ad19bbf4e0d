/** The two halves meet: the mode a session reports is the mode the other side's event layer sees. */
module ModeReports {
  import opened Common
  import C = ControlStream
  import T = StreamTheorems
  import Ev = Events
  import SessionSpec

  lemma ReportIsPrinted(mode: nat)
    requires mode < 3
    ensures SessionSpec.ModeReport(mode) == C.SeqBytes(0x56, [Some(mode)], None, true)
  {
    var params: seq<Option<int>> := [Some(mode)];
    assert params[..0] == [];
    assert C.JoinParams(params) == C.ParamBytes(params[0]);
    assert C.Intro(true) + [0x30 + mode] + [0x56] == [0x9B, 0x30 + mode, 0x56];
  }

  /** Behind any text, and whatever was shifted: the text, and then exactly this mode. */
  lemma ReportDecodes(text: seq<byte>, shifted: bool, mode: nat)
    requires mode < 3
    ensures var s := Ev.EventState(C.Stream(C.Ground, text), shifted);
            Ev.FeedChunk(s, SessionSpec.ModeReport(mode)) ==
              (Ev.EventState(C.Fresh, shifted), Ev.TextEvents(Ev.ShiftAll(shifted, text)) + [Ev.ModeEvent(mode)])
  {
    var params: seq<Option<int>> := [Some(mode)];
    var e := C.ControlSeq(0x56, params, None);
    ReportIsPrinted(mode);
    T.PrintParse(text, 0x56, params, None, true);
    assert T.ReadBack(params, None) == params;
    Ev.AllEventsConcat(shifted, C.FlushText(text), [e]);
    Ev.FlushEvents(shifted, text);
    Ev.AllEventsOne(shifted, e);
  }
}
