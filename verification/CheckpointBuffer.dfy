/**
 * A checkpoint is one buffer: of every cache the rows of the tokens so far, of every
 * recurrent state and history the whole, one behind the other. Save and restore walk the
 * same tensors with a cursor.
 */
module CheckpointBuffer {

  type Byte = bv8

  /** A cache has `row` bytes for each token of the context; a state counts whole. */
  datatype Tensor = Tensor(cache: bool, row: nat, bytes: seq<Byte>)

  predicate Fits(t: Tensor, n: nat) {
    t.cache ==> t.row * n <= |t.bytes|
  }

  /** How much of a tensor a checkpoint of `n` tokens holds. */
  function Part(t: Tensor, n: nat): nat {
    if t.cache then t.row * n else |t.bytes|
  }

  predicate AllFit(ts: seq<Tensor>, n: nat) {
    forall i :: 0 <= i < |ts| ==> Fits(ts[i], n)
  }

  function Size(ts: seq<Tensor>, n: nat): nat {
    if ts == [] then 0 else Size(ts[..|ts| - 1], n) + Part(ts[|ts| - 1], n)
  }

  /** The same tensors with other bytes in them. */
  predicate SameShape(a: Tensor, b: Tensor) {
    a.cache == b.cache && a.row == b.row && |a.bytes| == |b.bytes|
  }

  predicate SameShapes(xs: seq<Tensor>, ys: seq<Tensor>) {
    |xs| == |ys| && forall i :: 0 <= i < |xs| ==> SameShape(xs[i], ys[i])
  }

  lemma {:induction false} SizeOfShape(xs: seq<Tensor>, ys: seq<Tensor>, n: nat)
    requires SameShapes(xs, ys)
    ensures Size(xs, n) == Size(ys, n)
  {
    if xs != [] {
      SizeOfShape(xs[..|xs| - 1], ys[..|ys| - 1], n);
    }
  }

  /** The bytes of one token's row in every cache. */
  function RowBytes(ts: seq<Tensor>): nat {
    if ts == [] then 0 else (if ts[0].cache then ts[0].row else 0) + RowBytes(ts[1..])
  }

  /** The bytes of every recurrent state and history. */
  function StateBytes(ts: seq<Tensor>): nat {
    if ts == [] then 0 else (if ts[0].cache then 0 else |ts[0].bytes|) + StateBytes(ts[1..])
  }

  lemma {:induction false} BytesSnoc(ts: seq<Tensor>, t: Tensor)
    ensures RowBytes(ts + [t]) == RowBytes(ts) + if t.cache then t.row else 0
    ensures StateBytes(ts + [t]) == StateBytes(ts) + if t.cache then 0 else |t.bytes|
  {
    if ts == [] {
      assert ts + [t] == [t];
    } else {
      assert (ts + [t])[1..] == ts[1..] + [t];
      BytesSnoc(ts[1..], t);
    }
  }

  lemma Spread(n: nat, a: nat, b: nat)
    ensures n * (a + b) == n * a + b * n
  {
  }

  /** A row of every cache for each token, and every state once. */
  lemma {:induction false} SizeIs(ts: seq<Tensor>, n: nat)
    ensures Size(ts, n) == n * RowBytes(ts) + StateBytes(ts)
  {
    if ts != [] {
      var init, last := ts[..|ts| - 1], ts[|ts| - 1];
      assert ts == init + [last];
      BytesSnoc(init, last);
      SizeIs(init, n);
      Spread(n, RowBytes(init), if last.cache then last.row else 0);
    }
  }

  lemma {:induction false} SizeUpTo(ts: seq<Tensor>, n: nat, i: nat)
    requires i < |ts|
    ensures Size(ts[..i], n) + Part(ts[i], n) == Size(ts[..i + 1], n) <= Size(ts, n)
    decreases |ts|
  {
    assert ts[..i + 1][..i] == ts[..i];
    if i + 1 == |ts| {
      assert ts[..i + 1] == ts;
    } else {
      var init := ts[..|ts| - 1];
      SizeUpTo(init, n, i);
      assert init[..i] == ts[..i] && init[..i + 1] == ts[..i + 1];
    }
  }

  /** Where tensor `i` is in the buffer, and what it holds of it. */
  predicate Holds(buf: seq<Byte>, ts: seq<Tensor>, n: nat, i: nat)
    requires i < |ts| && AllFit(ts, n)
  {
    var at := Size(ts[..i], n);
    && at + Part(ts[i], n) <= |buf|
    && Part(ts[i], n) <= |ts[i].bytes|
    && buf[at..at + Part(ts[i], n)] == ts[i].bytes[..Part(ts[i], n)]
  }

  predicate IsCheckpoint(buf: seq<Byte>, ts: seq<Tensor>, n: nat) {
    AllFit(ts, n) && |buf| == Size(ts, n) && forall i :: 0 <= i < |ts| ==> Holds(buf, ts, n, i)
  }

  /** The committed part of a tensor is `b`'s; the rows past it are `a`'s. */
  predicate Overlaid(r: Tensor, a: Tensor, b: Tensor, n: nat) {
    && SameShape(r, a) && SameShape(r, b) && Fits(r, n)
    && r.bytes[..Part(r, n)] == b.bytes[..Part(r, n)]
    && r.bytes[Part(r, n)..] == a.bytes[Part(r, n)..]
  }

  /** A state or history `r` is what it was in `b`; a cache has `b`'s rows of the first n tokens and `a`'s others. */
  ghost predicate PutBack(r: Tensor, a: Tensor, b: Tensor, n: nat) {
    && SameShape(r, a) && SameShape(r, b)
    && (!r.cache ==> r.bytes == b.bytes)
    && (r.cache ==>
      && r.row * n <= |r.bytes|
      && forall x :: 0 <= x < |r.bytes| ==> r.bytes[x] == if x < r.row * n then b.bytes[x] else a.bytes[x])
  }

  lemma OverlaidPutsBack(r: Tensor, a: Tensor, b: Tensor, n: nat)
    requires Overlaid(r, a, b, n)
    ensures PutBack(r, a, b, n)
  {
    if r.cache {
      var m := r.row * n;
      forall x | 0 <= x < m ensures r.bytes[x] == b.bytes[x] { assert r.bytes[..m][x] == b.bytes[..m][x]; }
      forall x | m <= x < |r.bytes| ensures r.bytes[x] == a.bytes[x] {
        assert r.bytes[m..][x - m] == a.bytes[m..][x - m];
      }
    } else {
      assert r.bytes[..|r.bytes|] == r.bytes && b.bytes[..|r.bytes|] == b.bytes;
    }
  }

  class State {
    var tensors: seq<Tensor>

    constructor (ts: seq<Tensor>)
      ensures tensors == ts
    {
      tensors := ts;
    }

    method CheckpointBytes(n: nat) returns (size: nat)
      ensures size == Size(tensors, n) == n * RowBytes(tensors) + StateBytes(tensors)
    {
      size := 0;
      for i := 0 to |tensors|
        invariant size == Size(tensors[..i], n)
      {
        SizeUpTo(tensors, n, i);
        size := size + Part(tensors[i], n);
      }
      assert tensors[..|tensors|] == tensors;
      SizeIs(tensors, n);
    }

    method Save(n: nat, dst: array<Byte>)
      requires AllFit(tensors, n) && dst.Length == Size(tensors, n)
      modifies dst
      ensures IsCheckpoint(dst[..], tensors, n)
    {
      var cursor := 0;
      for i := 0 to |tensors|
        invariant cursor == Size(tensors[..i], n) <= dst.Length
        invariant forall k :: 0 <= k < i ==> Holds(dst[..], tensors, n, k)
      {
        SizeUpTo(tensors, n, i);
        var b := Part(tensors[i], n);
        ghost var before := dst[..];
        CopyIn(dst, cursor, tensors[i].bytes[..b]);
        forall k | 0 <= k < i ensures Holds(dst[..], tensors, n, k) {
          StillHolds(before, dst[..], tensors, n, k, i);
        }
        cursor := cursor + b;
      }
    }

    /** Whatever the tensors hold by now: their committed parts become the checkpoint's. */
    method Restore(n: nat, src: seq<Byte>, ghost was: seq<Tensor>)
      requires AllFit(tensors, n) && SameShapes(tensors, was) && IsCheckpoint(src, was, n)
      modifies this
      ensures |tensors| == |was|
      ensures forall i :: 0 <= i < |tensors| ==> PutBack(tensors[i], old(tensors)[i], was[i], n)
    {
      var cursor := 0;
      for i := 0 to |tensors|
        invariant |tensors| == |was| && cursor == Size(was[..i], n)
        invariant forall k :: 0 <= k < i ==> Overlaid(tensors[k], old(tensors)[k], was[k], n)
        invariant forall k :: i <= k < |tensors| ==> tensors[k] == old(tensors)[k]
      {
        SizeUpTo(was, n, i);
        assert Holds(src, was, n, i) && SameShape(tensors[i], was[i]);
        var t := tensors[i];
        var b := Part(t, n);
        tensors := tensors[i := t.(bytes := src[cursor..cursor + b] + t.bytes[b..])];
        cursor := cursor + b;
      }
      forall i | 0 <= i < |tensors| ensures PutBack(tensors[i], old(tensors)[i], was[i], n) {
        OverlaidPutsBack(tensors[i], old(tensors)[i], was[i], n);
      }
    }

    /** A save of n tokens, any bytes written to any tensor, and a restore of the n tokens: every recurrent state and
        history is back as a whole, every cache has its first n rows back and keeps the rest as written. */
    method SaveAndRestore(n: nat, written: seq<Tensor>)
      requires AllFit(tensors, n) && SameShapes(tensors, written)
      modifies this
      ensures SameShapes(tensors, old(tensors))
      ensures forall i :: 0 <= i < |tensors| && !tensors[i].cache ==> tensors[i].bytes == old(tensors)[i].bytes
      ensures forall i, x :: 0 <= i < |tensors| && tensors[i].cache && 0 <= x < |tensors[i].bytes| ==>
                var (saved, now) := (old(tensors)[i], written[i]);
                && |tensors[i].bytes| == |saved.bytes| == |now.bytes|
                && tensors[i].bytes[x] == if x < tensors[i].row * n then saved.bytes[x] else now.bytes[x]
    {
      ghost var was := tensors;
      var size := CheckpointBytes(n);
      var buf := new Byte[size];
      Save(n, buf);
      tensors := written;
      assert AllFit(tensors, n) by {
        forall i | 0 <= i < |tensors| ensures Fits(tensors[i], n) {
          assert SameShape(was[i], tensors[i]) && Fits(was[i], n);
        }
      }
      Restore(n, buf[..], was);
    }
  }

  method CopyIn(dst: array<Byte>, at: nat, bytes: seq<Byte>)
    requires at + |bytes| <= dst.Length
    modifies dst
    ensures dst[at..at + |bytes|] == bytes && dst[..at] == old(dst[..at])
  {
    for i := 0 to |bytes|
      invariant dst[at..at + i] == bytes[..i] && dst[..at] == old(dst[..at])
    {
      dst[at + i] := bytes[i];
    }
  }

  lemma {:induction false} Earlier(ts: seq<Tensor>, n: nat, k: nat, i: nat)
    requires k < i <= |ts|
    ensures Size(ts[..k], n) + Part(ts[k], n) <= Size(ts[..i], n)
  {
    SizeUpTo(ts[..i], n, k);
    assert ts[..i][..k] == ts[..k] && ts[..i][..k + 1] == ts[..k + 1] && ts[..i][k] == ts[k];
  }

  lemma StillHolds(s: seq<Byte>, t: seq<Byte>, ts: seq<Tensor>, n: nat, k: nat, i: nat)
    requires AllFit(ts, n) && k < i <= |ts| && Holds(s, ts, n, k)
    requires |s| == |t| && Size(ts[..i], n) <= |s| && s[..Size(ts[..i], n)] == t[..Size(ts[..i], n)]
    ensures Holds(t, ts, n, k)
  {
    Earlier(ts, n, k, i);
    KeptBefore(s, t, Size(ts[..k], n), Size(ts[..k], n) + Part(ts[k], n), Size(ts[..i], n));
  }

  lemma KeptBefore(s: seq<Byte>, t: seq<Byte>, lo: nat, hi: nat, at: nat)
    requires |s| == |t| && lo <= hi <= at <= |s| && s[..at] == t[..at]
    ensures s[lo..hi] == t[lo..hi]
  {
    forall x | lo <= x < hi ensures s[x] == t[x] {
      assert s[..at][x] == t[..at][x];
    }
  }

  /** A buffer is the checkpoint of one committed state only. */
  lemma OneState(buf: seq<Byte>, xs: seq<Tensor>, ys: seq<Tensor>, n: nat, i: nat)
    requires SameShapes(xs, ys) && IsCheckpoint(buf, xs, n) && IsCheckpoint(buf, ys, n) && i < |xs|
    ensures if xs[i].cache then Fits(xs[i], n) && xs[i].bytes[..xs[i].row * n] == ys[i].bytes[..xs[i].row * n]
            else xs[i].bytes == ys[i].bytes
  {
    assert Holds(buf, xs, n, i) && Holds(buf, ys, n, i);
    assert SameShapes(xs[..i], ys[..i]);
    SizeOfShape(xs[..i], ys[..i], n);
    assert SameShape(xs[i], ys[i]) && Fits(xs[i], n);
    assert xs[i].bytes[..Part(xs[i], n)] == ys[i].bytes[..Part(xs[i], n)];
    assert xs[i].bytes[..|xs[i].bytes|] == xs[i].bytes && ys[i].bytes[..|ys[i].bytes|] == ys[i].bytes;
  }
}
