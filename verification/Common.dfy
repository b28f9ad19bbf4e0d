/** Shared vocabulary: bytes, options, and the few sequence facts every module needs. */
module Common {

  type byte = b: int | 0 <= b < 256

  datatype Option<+T> = None | Some(value: T)

  /** Concatenation of a list of sequences. */
  function Flatten<T>(ss: seq<seq<T>>): seq<T> {
    if ss == [] then [] else Flatten(ss[..|ss| - 1]) + ss[|ss| - 1]
  }

  lemma {:induction false} FlattenConcat<T>(a: seq<seq<T>>, b: seq<seq<T>>)
    ensures Flatten(a + b) == Flatten(a) + Flatten(b)
  {
    if b == [] {
      assert a + b == a;
    } else {
      var n := |b| - 1;
      FlattenConcat(a, b[..n]);
      assert (a + b)[..|a + b| - 1] == a + b[..n];
    }
  }

  lemma FlattenOne<T>(s: seq<T>)
    ensures Flatten([s]) == s
  {
    assert [s][..0] == [];
  }

  lemma FlattenTwo<T>(s: seq<T>, t: seq<T>)
    ensures Flatten([s, t]) == s + t
  {
    assert [s, t] == [s] + [t];
    FlattenConcat([s], [t]);
    FlattenOne(s);
    FlattenOne(t);
  }

  lemma Assoc<T>(a: seq<T>, b: seq<T>, c: seq<T>)
    ensures (a + b) + c == a + (b + c)
  {
  }

  /** A machine with output, run over a whole input: the state it ends in, and everything it put out. */
  function Run<S, I, O>(step: (S, I) -> (S, seq<O>), s: S, data: seq<I>): (S, seq<O>) {
    if data == [] then (s, [])
    else
      var n := |data| - 1;
      var (s1, out1) := Run(step, s, data[..n]);
      var (s2, out2) := step(s1, data[n]);
      (s2, out1 + out2)
  }

  lemma RunSnoc<S, I, O>(step: (S, I) -> (S, seq<O>), s: S, data: seq<I>, x: I)
    ensures var (s1, out1) := Run(step, s, data);
            var (s2, out2) := step(s1, x);
            Run(step, s, data + [x]) == (s2, out1 + out2)
  {
    assert (data + [x])[..|data|] == data;
  }

  lemma RunOne<S, I, O>(step: (S, I) -> (S, seq<O>), s: S, x: I)
    ensures Run(step, s, [x]) == step(s, x)
  {
    RunSnoc(step, s, [], x);
    assert [] + [x] == [x];
    assert [] + step(s, x).1 == step(s, x).1;
  }

  /** Running over an input in two pieces is running over it at once. */
  lemma {:induction false} RunSplits<S, I, O>(step: (S, I) -> (S, seq<O>), s: S, a: seq<I>, b: seq<I>)
    ensures var (s1, out1) := Run(step, s, a);
            var (s2, out2) := Run(step, s1, b);
            Run(step, s, a + b) == (s2, out1 + out2)
  {
    if b == [] {
      assert a + b == a && Run(step, s, a).1 + [] == Run(step, s, a).1;
    } else {
      var n := |b| - 1;
      RunSplits(step, s, a, b[..n]);
      assert (a + b)[..|a + b| - 1] == a + b[..n];
      var (s1, out1) := Run(step, s, a);
      var (s2, out2) := Run(step, s1, b[..n]);
      Assoc(out1, out2, step(s2, b[n]).1);
    }
  }

  /** Writes bytes into a buffer; bytes taken from another buffer, or from the same one in place, are read first. */
  method CopyMem(data: seq<byte>, dst: array<byte>, to: nat)
    requires to + |data| <= dst.Length
    modifies dst
    ensures dst[to..to + |data|] == data
    ensures dst[..to] == old(dst[..to])
  {
    for i := 0 to |data|
      invariant dst[to..to + i] == data[..i]
      invariant dst[..to] == old(dst[..to])
    {
      dst[to + i] := data[i];
    }
  }
}
