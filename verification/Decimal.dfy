/** Decimal numerals, written and read as the Python `str` and the parsers do. */
module Decimal {
  import opened Common

  function Digits(n: nat): seq<byte> {
    if n < 10 then [0x30 + n] else Digits(n / 10) + [0x30 + n % 10]
  }

  function Dec(n: int): seq<byte> {
    if n < 0 then [0x2D] + Digits(-n) else Digits(n)
  }

  predicate AllDigits(s: seq<byte>) { forall i :: 0 <= i < |s| ==> 0x30 <= s[i] <= 0x39 }

  /** The number a text of digits stands for; other bytes in it are skipped. */
  function DigitsValue(s: seq<byte>): nat {
    if s == [] then 0
    else
      var b := s[|s| - 1];
      var v := DigitsValue(s[..|s| - 1]);
      if 0x30 <= b <= 0x39 then v * 10 + (b - 0x30) else v
  }

  lemma {:induction false} DigitsRoundTrip(n: nat)
    ensures AllDigits(Digits(n)) && |Digits(n)| > 0 && DigitsValue(Digits(n)) == n
  {
    if n < 10 {
      assert [0x30 + n][..0] == [];
      assert DigitsValue([]) == 0;
    } else {
      DigitsRoundTrip(n / 10);
      assert Digits(n)[..|Digits(n)| - 1] == Digits(n / 10);
    }
  }

  /** Produces the numeral the way a conversion loop does, least significant digit first. */
  method DecimalText(n: int) returns (s: seq<byte>)
    ensures s == Dec(n)
  {
    var m := if n < 0 then -n else n;
    var rest := m;
    s := [];
    while rest >= 10
      invariant rest >= 0
      invariant Digits(m) == Digits(rest) + s
    {
      s := [0x30 + rest % 10] + s;
      rest := rest / 10;
    }
    s := [0x30 + rest] + s;
    if n < 0 {
      s := [0x2D] + s;
    }
  }
}
