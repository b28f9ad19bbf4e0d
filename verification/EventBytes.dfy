/** The events of the console, in numbers: shifted text, control characters, modes and attributes. */
module EventBytes {
  import opened Common
  import opened ControlStream
  import opened StreamTheorems
  import opened Events
  import opened StreamBytes

  // ----- text while shifted and not -----

  /** Bytes of the lower half that are no control characters. */
  predicate LowText(t: seq<byte>) { forall i :: 0 <= i < |t| ==> 0x20 <= t[i] <= 0x7F }

  function Raised(t: seq<byte>): seq<byte>
    requires LowText(t)
  {
    seq(|t|, i requires 0 <= i < |t| => t[i] + 128)
  }

  lemma {:induction false} LowTextFeeds(text: seq<byte>, t: seq<byte>)
    requires LowText(t)
    ensures FeedAll(Stream(Ground, text), t) == (Stream(Ground, text + t), [])
  {
    if t == [] {
      assert text + t == text;
    } else {
      var n := |t| - 1;
      LowTextFeeds(text, t[..n]);
      FeedAllSnoc(Stream(Ground, text), t[..n], t[n]);
      GroundText(text + t[..n], t[n]);
      var none: seq<Element> := [];
      assert t == t[..n] + [t[n]] && text + t == text + t[..n] + [t[n]] && none + none == none;
    }
  }

  /** Text between two control characters. */
  lemma Enclosed(a: byte, t: seq<byte>, b: byte)
    requires LowText(t) && a < 0x1B && b < 0x1B
    ensures FeedAll(Fresh, [a] + t + [b]) ==
              (Fresh, [ControlChar(a)] + (if t == [] then [] else [Text(t)]) + [ControlChar(b)])
  {
    FeedAllOne(Fresh, a);
    GroundControl([], a);
    LowTextFeeds([], t);
    FeedAllSplits(Fresh, [a], t);
    FeedAllSnoc(Fresh, [a] + t, b);
    GroundControl(t, b);
    assert [] + t == t && [ControlChar(a)] + [] == [ControlChar(a)] && [] + [ControlChar(a)] == [ControlChar(a)];
    Assoc([ControlChar(a)], if t == [] then [] else [Text(t)], [ControlChar(b)]);
  }

  lemma ThreeEvents(shifted: bool, a: byte, t: seq<byte>, b: byte)
    requires t != []
    ensures var es := [ControlChar(a)] + [Text(t)] + [ControlChar(b)];
            var sh := ElementEvents(shifted, ControlChar(a)).0;
            AllEvents(shifted, es) ==
              (ElementEvents(sh, ControlChar(b)).0,
               ElementEvents(shifted, ControlChar(a)).1 + ElementEvents(sh, Text(t)).1 + ElementEvents(sh, ControlChar(b)).1)
  {
    AllEventsOne(shifted, ControlChar(a));
    RunSnoc(ElementEvents, shifted, [ControlChar(a)], Text(t));
    RunSnoc(ElementEvents, shifted, [ControlChar(a)] + [Text(t)], ControlChar(b));
  }

  lemma AloneIs(evs: seq<Event>)
    ensures [] + evs + [] == evs
  {
  }

  /** Behind 14 text comes out raised by 128, up to the next 15, whatever the mode was before. */
  lemma ShiftedText(before: bool, t: seq<byte>)
    requires LowText(t) && t != []
    ensures FeedChunk(EventState(Fresh, before), [0x0E] + t + [0x0F]) == (EventState(Fresh, false), [TextEvent(Raised(t))])
  {
    Enclosed(0x0E, t, 0x0F);
    ThreeEvents(before, 0x0E, t, 0x0F);
    assert ShiftAll(true, t) == Raised(t);
    AloneIs([TextEvent(Raised(t))]);
  }

  /** Behind 15 it comes out as it is. */
  lemma PlainText(before: bool, t: seq<byte>)
    requires LowText(t) && t != []
    ensures FeedChunk(EventState(Fresh, before), [0x0F] + t + [0x0E]) == (EventState(Fresh, true), [TextEvent(t)])
  {
    Enclosed(0x0F, t, 0x0E);
    ThreeEvents(before, 0x0F, t, 0x0E);
    assert ShiftAll(false, t) == t;
    AloneIs([TextEvent(t)]);
  }

  /** And it is not shifted in the beginning. */
  lemma FirstText(t: seq<byte>)
    requires LowText(t) && t != []
    ensures FeedChunk(FreshEvents, [0x07] + t + [0x07]).1 == [CtlCharEvent(7), TextEvent(t), CtlCharEvent(7)]
  {
    Enclosed(0x07, t, 0x07);
    ThreeEvents(false, 0x07, t, 0x07);
    assert ShiftAll(false, t) == t;
  }

  // ----- the mode after any input -----

  /** Of all characters 14 and 15 the last one is 14; without any, it is as before. */
  predicate LastShifts(before: bool, es: seq<Element>) {
    if es == [] then before
    else
      var e := es[|es| - 1];
      e == ControlChar(0x0E) || (e != ControlChar(0x0F) && LastShifts(before, es[..|es| - 1]))
  }

  lemma {:induction false} ShiftedAfter(before: bool, es: seq<Element>)
    ensures AllEvents(before, es).0 == LastShifts(before, es)
  {
    if es != [] {
      ShiftedAfter(before, es[..|es| - 1]);
    }
  }

  /** After any input text is shifted if and only if the last shift character of its elements is 14. */
  lemma ModeAfter(s: EventState, data: seq<byte>)
    ensures var es := FeedAll(s.stream, data).1;
            FeedChunk(s, data).0.shifted <==>
              if exists i :: 0 <= i < |es| && (es[i] == ControlChar(0x0E) || es[i] == ControlChar(0x0F))
              then exists i :: 0 <= i < |es| && es[i] == ControlChar(0x0E) && NoOutAfter(es, i)
              else s.shifted
  {
    var es := FeedAll(s.stream, data).1;
    ShiftedAfter(s.shifted, es);
    LastShiftsIff(s.shifted, es);
  }

  predicate NoOutAfter(es: seq<Element>, i: nat) { forall j :: i < j < |es| ==> es[j] != ControlChar(0x0F) }

  lemma {:induction false} LastShiftsIff(before: bool, es: seq<Element>)
    ensures LastShifts(before, es) <==>
              if exists i :: 0 <= i < |es| && (es[i] == ControlChar(0x0E) || es[i] == ControlChar(0x0F))
              then exists i :: 0 <= i < |es| && es[i] == ControlChar(0x0E) && NoOutAfter(es, i)
              else before
  {
    if es != [] {
      var n := |es| - 1;
      LastShiftsIff(before, es[..n]);
      if es[n] == ControlChar(0x0E) {
        assert NoOutAfter(es, n);
      } else if es[n] != ControlChar(0x0F) {
        forall i | 0 <= i < n ensures NoOutAfter(es, i) <==> NoOutAfter(es[..n], i) {
          if NoOutAfter(es[..n], i) {
            forall j | i < j < |es| ensures es[j] != ControlChar(0x0F) {
              assert j < n ==> es[..n][j] == es[j];
            }
          }
          if NoOutAfter(es, i) {
            forall j | i < j < n ensures es[..n][j] != ControlChar(0x0F) {
              assert es[j] == es[..n][j];
            }
          }
        }
        assert forall i :: 0 <= i < n ==> es[..n][i] == es[i];
      } else {
        assert forall i :: 0 <= i < n ==> !NoOutAfter(es, i);
      }
    }
  }

  // ----- control characters -----

  /** All 256 of them: next line is a linefeed, 0x88 sets a tab, some give themselves, the others nothing. */
  lemma ControlTable(shifted: bool, c: byte)
    ensures ElementEvents(shifted, ControlChar(c)) ==
              (if c == 14 then true else if c == 15 then false else shifted,
               if c == 0x85 then [CtlCharEvent(10)]
               else if c == 0x88 then [TabSetEvent]
               else if 7 <= c <= 13 || c == 0x1B || c == 0x84 || c == 0x8D || c == 0x9B then [CtlCharEvent(c)]
               else [])
  {
  }

  /** Text byte by byte: while shifted the lower half moves up by 128. */
  lemma TextTable(shifted: bool, t: seq<byte>)
    ensures var (sh, evs) := ElementEvents(shifted, Text(t));
            && sh == shifted && |evs| == 1 && evs[0].TextEvent? && |evs[0].txt| == |t|
            && forall i :: 0 <= i < |t| ==> evs[0].txt[i] == if shifted && t[i] < 128 then t[i] + 128 else t[i]
  {
  }

  // ----- sequences -----

  /** V gives a mode, zero if none is named; m gives attributes; no other key gives anything. */
  lemma SequenceTable(shifted: bool, key: byte, params: seq<Option<int>>, special: Option<int>)
    ensures var (sh, evs) := ElementEvents(shifted, ControlSeq(key, params, special));
            && sh == shifted
            && (key == 86 ==> evs == [ModeEvent(if params == [] || params[0].None? then 0 else params[0].value)])
            && (key == 109 ==> |evs| == 1 && evs[0].CharAttrEvent? &&
                                 evs[0].bg == if special == Some(0) then None else special)
            && (key != 86 && key != 109 ==> evs == [])
  {
  }

  /** The last parameter that counts. */
  lemma {:induction false} LastOfIff(params: seq<Option<int>>, pick: int -> Option<int>, v: int)
    ensures LastOf(params, pick) == Some(v) <==>
              exists i :: 0 <= i < |params| && params[i].Some? && pick(params[i].value) == Some(v) && NoneAfter(params, pick, i)
  {
    if params != [] {
      var n := |params| - 1;
      LastOfIff(params[..n], pick, v);
      if params[n].Some? && pick(params[n].value).Some? {
        assert NoneAfter(params, pick, n);
        assert forall i :: 0 <= i < n ==> !NoneAfter(params, pick, i);
      } else {
        forall i | 0 <= i < n ensures NoneAfter(params, pick, i) <==> NoneAfter(params[..n], pick, i) {
          NoneAfterMore(params, pick, i);
        }
        assert forall i :: 0 <= i < n ==> params[..n][i] == params[i];
      }
    }
  }

  predicate NoneAfter(params: seq<Option<int>>, pick: int -> Option<int>, i: nat) {
    forall j :: i < j < |params| && params[j].Some? ==> pick(params[j].value).None?
  }

  lemma NoneAfterMore(params: seq<Option<int>>, pick: int -> Option<int>, i: nat)
    requires i < |params| - 1 && (params[|params| - 1].Some? ==> pick(params[|params| - 1].value).None?)
    ensures NoneAfter(params, pick, i) <==> NoneAfter(params[..|params| - 1], pick, i)
  {
    var n := |params| - 1;
    assert forall j :: i < j < n ==> params[..n][j] == params[j];
    if NoneAfter(params[..n], pick, i) {
      forall j | i < j < |params| && params[j].Some? ensures pick(params[j].value).None? {
        assert j < n ==> params[..n][j].Some? && pick(params[..n][j].value).None?;
      }
    }
  }

  /** Numbers below 30 are attributes, those from 30 and 40 on the two colours; of each the last one counts. */
  lemma AttributesAre(shifted: bool, params: seq<Option<int>>, special: Option<int>, v: int)
    ensures var e := ElementEvents(shifted, ControlSeq(109, params, special)).1[0];
            && (e.attr == Some(v) <==> v < 30 && exists i :: 0 <= i < |params| && params[i] == Some(v) && LastLow(params, i))
            && (e.fg == Some(v) <==> 0 <= v < 10 && exists i :: 0 <= i < |params| && params[i] == Some(30 + v) && LastIn(params, 30, i))
            && (e.cg == Some(v) <==> 0 <= v < 10 && exists i :: 0 <= i < |params| && params[i] == Some(40 + v) && LastIn(params, 40, i))
  {
    LastOfIff(params, PickAttr, v);
    LastOfIff(params, PickFore, v);
    LastOfIff(params, PickCell, v);
    assert forall i :: 0 <= i < |params| ==> (NoneAfter(params, PickAttr, i) <==> LastLow(params, i));
    assert forall i :: 0 <= i < |params| ==> (NoneAfter(params, PickFore, i) <==> LastIn(params, 30, i));
    assert forall i :: 0 <= i < |params| ==> (NoneAfter(params, PickCell, i) <==> LastIn(params, 40, i));
  }

  predicate LastLow(params: seq<Option<int>>, i: nat) { forall j :: i < j < |params| && params[j].Some? ==> params[j].value >= 30 }

  predicate LastIn(params: seq<Option<int>>, low: int, i: nat) {
    forall j :: i < j < |params| && params[j].Some? ==> !(low <= params[j].value < low + 10)
  }
}
