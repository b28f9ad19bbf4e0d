/** The second parser in numbers: what it makes of short inputs. */
module TermioBytes {
  import opened Common
  import opened Decimal
  import opened ControlStream
  import opened SequenceGrammar
  import opened StreamTheorems
  import opened Termio

  predicate Digit(b: byte) { 48 <= b <= 57 }

  /** Digits, spaces and semicolons with no command behind them are not enough. */
  lemma Unfinished(rest: seq<byte>, start: nat)
    requires forall i :: 0 <= i < |rest| ==> Digit(rest[i]) || rest[i] == 32 || rest[i] == 59
    ensures CsiSpec(rest, start) == if |WordArgs(ClosedFields(rest))| > 8 then TooManyArgs else SeqTooShort
  {
    assert rest[..|rest|] == rest;
    PlainPrefixIs(rest, |rest|);
  }

  lemma {:induction false} DigitsAreOneField(rest: seq<byte>)
    requires forall i :: 0 <= i < |rest| ==> Digit(rest[i])
    ensures Fields(rest) == [rest] && ClosedFields(rest) == []
  {
    SingleField(rest);
  }

  /** A number alone. */
  lemma NumberUnfinished(rest: seq<byte>, start: nat)
    requires forall i :: 0 <= i < |rest| ==> Digit(rest[i])
    ensures CsiSpec(rest, start) == SeqTooShort
  {
    Unfinished(rest, start);
    DigitsAreOneField(rest);
  }

  lemma TwoDigits(a: byte, b: byte)
    requires Digit(a) && Digit(b)
    ensures WordArgs(CountedFields([a, b])) == [(a - 48) * 10 + (b - 48)]
  {
    var body := [a, b];
    DigitsAreOneField(body);
    assert StartsNumber(body[0]) && body[..1] == [a] && [a][..0] == [];
    assert DigitsValue([a]) == a - 48 && DigitsValue(body) == (a - 48) * 10 + (b - 48);
    var fs: seq<seq<byte>> := [body];
    assert CountedFields(body) == fs && fs[..0] == [];
  }

  /** A number and its command; 64 to 127 are commands. */
  lemma NumberParsed(a: byte, b: byte, key: byte, start: nat)
    requires Digit(a) && Digit(b) && 64 <= key <= 127 && start < 3
    ensures CsiSpec([a, b, key], start) == Parsed(key, [(a - 48) * 10 + (b - 48)], start + 2)
  {
    assert [a, b, key][..2] == [a, b];
    PlainPrefixIs([a, b, key], 2);
    TwoDigits(a, b);
  }

  /** Nothing but a command. */
  lemma CommandAlone(key: byte, start: nat)
    requires 64 <= key <= 127 && start < 3
    ensures CsiSpec([key], start) == Parsed(key, [], start)
  {
    var none: seq<byte> := [];
    assert [key][..0] == none;
    PlainPrefixIs([key], 0);
    DigitsAreOneField(none);
    assert !HasNumber(none) && CountedFields(none) == [];
  }

  /** Any other byte is refused at once. */
  lemma OtherRefused(b: byte, more: seq<byte>, start: nat)
    requires !Digit(b) && b != 32 && b != 59 && !(64 <= b <= 127)
    ensures CsiSpec([b] + more, start) == InvalidChar
  {
    var none: seq<byte> := [];
    assert ([b] + more)[..0] == none;
    PlainPrefixIs([b] + more, 0);
    DigitsAreOneField(none);
  }

  // ----- expansion -----

  /** f, c and b are a digit behind 3, 4 and `>`; n is a number and anything else a copy, both as far as there is room. */
  lemma ExpandTable(code: byte, input: seq<byte>, room: int)
    ensures var n := if room <= 0 then 0 else if room < |input| then room else |input|;
            ExpandOne(code, input, room) ==
              if input == [] then ParamEmpty
              else if code == 102 || code == 99 || code == 98 then
                if Digit(input[0]) then Expanded([if code == 102 then 51 else if code == 99 then 52 else 62, input[0]]) else ParamNoNumber
              else if code == 110 && exists i :: 0 <= i < n && !Digit(input[i]) then ParamNoNumber
              else Expanded(input[..n])
  {
    var n := if room <= 0 then 0 else if room < |input| then room else |input|;
    assert forall i :: 0 <= i < n ==> input[..n][i] == input[i];
  }

  /** What follows the introducer is copied as far as there is room. */
  lemma TemplateAlone(rest: seq<byte>, bufLen: int)
    ensures ExpandSpec([0x9B] + rest, [], [], bufLen) ==
              Expanded([0x9B] + rest[..if bufLen <= 1 then 0 else if bufLen - 1 < |rest| then bufLen - 1 else |rest|])
  {
    assert ([0x9B] + rest)[1..] == rest;
    assert [0x9B] + [] == [0x9B];
  }

  /** An error of the first argument is the result, whatever follows. */
  lemma FirstErrorIs(tpl: seq<byte>, code: byte, params: seq<byte>, input: seq<byte>, args: seq<seq<byte>>, bufLen: int)
    requires tpl != [] && tpl[0] == 0x9B && !ExpandOne(code, input, bufLen - 1).Expanded?
    ensures ExpandSpec(tpl, [code] + params, [input] + args, bufLen) == ExpandOne(code, input, bufLen - 1)
  {
    FirstErrorOf([code] + params, [input] + args, 1, Least(|args| + 1, |params| + 1), bufLen);
  }

  lemma {:induction false} FirstErrorOf(params: seq<byte>, args: seq<seq<byte>>, lead: nat, k: nat, bufLen: int)
    requires 1 <= k <= |params| && k <= |args| && !ExpandOne(params[0], args[0], bufLen - lead).Expanded?
    ensures ExpandParams(params, args, k, lead, bufLen) == ExpandOne(params[0], args[0], bufLen - lead)
  {
    if k > 1 {
      FirstErrorOf(params, args, lead, k - 1, bufLen);
    } else {
      assert [] + Separator(true) == [];
    }
  }
}
