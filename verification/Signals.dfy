/** Signal bytes in received data: bytes 3 to 6 are taken out of the buffer and counted. */
module SignalBytes {
  import opened Common

  const START_SIGNAL: byte := 3
  const NUM_SIGNALS := 4

  predicate IsSignal(b: byte) { START_SIGNAL <= b < START_SIGNAL + NUM_SIGNALS }

  /** What the reader gets to see. */
  function Visible(data: seq<byte>): seq<byte> {
    if data == [] then []
    else
      var b := data[|data| - 1];
      Visible(data[..|data| - 1]) + (if IsSignal(b) then [] else [b])
  }

  /** The signals that were sent, in order. */
  function SignalsIn(data: seq<byte>): seq<byte> {
    if data == [] then []
    else
      var b := data[|data| - 1];
      SignalsIn(data[..|data| - 1]) + (if IsSignal(b) then [b] else [])
  }

  function Count(data: seq<byte>, b: byte): nat {
    if data == [] then 0 else Count(data[..|data| - 1], b) + (if data[|data| - 1] == b then 1 else 0)
  }

  lemma {:induction false} VisibleConcat(a: seq<byte>, b: seq<byte>)
    ensures Visible(a + b) == Visible(a) + Visible(b) && SignalsIn(a + b) == SignalsIn(a) + SignalsIn(b)
  {
    if b == [] {
      assert a + b == a;
    } else {
      var n := |b| - 1;
      VisibleConcat(a, b[..n]);
      assert (a + b)[..|a + b| - 1] == a + b[..n];
    }
  }

  /** No byte is lost: what is not visible is a signal, and every byte keeps its number of occurrences. */
  lemma {:induction false} VisibleSplits(data: seq<byte>)
    ensures |Visible(data)| + |SignalsIn(data)| == |data|
    ensures forall i :: 0 <= i < |Visible(data)| ==> !IsSignal(Visible(data)[i])
    ensures forall i :: 0 <= i < |SignalsIn(data)| ==> IsSignal(SignalsIn(data)[i])
    ensures forall b: byte :: b in data <==> b in Visible(data) || b in SignalsIn(data)
  {
    if data != [] {
      var n := |data| - 1;
      VisibleSplits(data[..n]);
      assert data == data[..n] + [data[n]];
    }
  }

  /** Data without signal bytes is visible as it is. */
  lemma {:induction false} VisibleIdentity(data: seq<byte>)
    requires forall i :: 0 <= i < |data| ==> !IsSignal(data[i])
    ensures Visible(data) == data && SignalsIn(data) == []
  {
    if data != [] {
      var n := |data| - 1;
      VisibleIdentity(data[..n]);
      assert data == data[..n] + [data[n]];
    }
  }

  lemma {:induction false} CountPositive(data: seq<byte>, b: byte)
    ensures Count(data, b) > 0 <==> b in data
  {
    if data != [] {
      var n := |data| - 1;
      CountPositive(data[..n], b);
      assert data == data[..n] + [data[n]];
    }
  }

  /**
   Compacts the first `size` bytes in place. Returns the new size, how often each signal occurred, and their
   total number; bytes behind the old size are not touched.
   */
  method ExtractSignals(buf: array<byte>, size: nat) returns (outSize: nat, counts: seq<nat>, changes: nat)
    requires size <= buf.Length
    modifies buf
    ensures var data := old(buf[..size]);
            && outSize <= size && buf[..outSize] == Visible(data)
            && changes == |SignalsIn(data)|
            && |counts| == NUM_SIGNALS
            && (forall k :: 0 <= k < NUM_SIGNALS ==> counts[k] == Count(data, START_SIGNAL + k))
    ensures buf[size..] == old(buf[size..])
  {
    var dst := 0;
    var copy := false;
    outSize := size;
    changes := 0;
    counts := [0, 0, 0, 0];
    ghost var data := buf[..size];
    for i := 0 to size
      invariant dst == |Visible(data[..i])| && changes == |SignalsIn(data[..i])| && dst + changes == i
      invariant outSize == size - changes && (copy <==> changes > 0)
      invariant buf[..dst] == Visible(data[..i])
      invariant forall k :: i <= k < size ==> buf[k] == data[k]
      invariant buf[size..] == old(buf[size..])
      invariant |counts| == NUM_SIGNALS
      invariant forall k :: 0 <= k < NUM_SIGNALS ==> counts[k] == Count(data[..i], START_SIGNAL + k)
    {
      var ch := buf[i];
      assert ch == data[i];
      assert data[..i + 1][..i] == data[..i];
      if START_SIGNAL <= ch < START_SIGNAL + NUM_SIGNALS {
        var signal := ch - START_SIGNAL;
        counts := counts[signal := counts[signal] + 1];
        copy := true;
        outSize := outSize - 1;
        changes := changes + 1;
      } else {
        if copy {
          buf[dst] := ch;
        }
        dst := dst + 1;
      }
    }
    assert data[..size] == data;
  }
}
