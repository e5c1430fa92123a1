/** The block bias a decode keeps up to date by rewriting three blocks a step, the bucket a step's graph is shaped for
    and the selection budget cut to it. */
module DecodeBias {
  import opened Arithmetic
  import opened SparseDecode

  const MAX_T: nat := 4          // a token and its drafts
  const MIN_BUCKET: nat := 768

  // ---------------------------------------------------------------- the bias, patched

  /** The bias after rewriting the window of three blocks around the position's own. */
  function Patched(bias: seq<Bias>, q: nat, nb: nat, r: nat): (b: seq<Bias>)
    requires r > 0 && |bias| == nb
    ensures |b| == nb
  {
    seq(nb, b requires 0 <= b < nb => if q / r - 1 <= b <= q / r + 1 then Closed(q, nb, r)[b] else bias[b])
  }

  /** The window is enough for a step of up to four positions when blocks hold three cells or more. */
  lemma PatchExact(at: nat, q: nat, nb: nat, r: nat)
    requires r >= 3 && at < q <= at + MAX_T
    ensures Patched(Closed(at, nb, r), q, nb, r) == Closed(q, nb, r)
  {
    forall b: nat | b < nb ensures Patched(Closed(at, nb, r), q, nb, r)[b] == Closed(q, nb, r)[b] {
      if !(q / r - 1 <= b <= q / r + 1) { OutsideWindow(at, q, b, r); }
    }
  }

  lemma OutsideWindow(at: nat, q: nat, b: nat, r: nat)
    requires r >= 3 && at < q <= at + MAX_T && (b + 1 < q / r || b > q / r + 1)
    ensures b + 1 < q / r ==> b < (q + 1) / r && b < (at + 1) / r
    ensures b > q / r + 1 ==> b >= (q + 1) / r && b >= (at + 1) / r && b != at / r
  {
    if b + 1 < q / r { BelowWindow(at, q, b, r); } else { AboveWindow(at, q, b, r); }
  }

  lemma BelowWindow(at: nat, q: nat, b: nat, r: nat)
    requires r >= 3 && at < q <= at + MAX_T && b + 1 < q / r
    ensures b < (q + 1) / r && b < (at + 1) / r
  {
    WholeBlock(q, b, r);
    WholeBlock(at, b, r);
    BlockOf(q, r);
    TwoBelow(b, q / r, r);
  }

  lemma AboveWindow(at: nat, q: nat, b: nat, r: nat)
    requires r >= 3 && at < q <= at + MAX_T && b > q / r + 1
    ensures b >= (q + 1) / r && b >= (at + 1) / r && b != at / r
  {
    assert q + r < b * r by {
      BlockOf(q, r);
      TwoBelow(q / r, b, r);
    }
    BlockAfter(q, b, r);
    BlockAfter(at, b, r);
  }

  lemma BlockAfter(q: nat, b: nat, r: nat)
    requires r > 0 && q + r < b * r
    ensures b >= (q + 1) / r && b != q / r
  {
    WholeBlock(q, b, r);
    BlockIs(q, b, r);
  }

  lemma TwoBelow(a: nat, b: nat, r: nat)
    requires a + 1 < b
    ensures a * r + r + r <= b * r
  {
    Monotone(a + 1, b, r);
    assert (a + 1) * r == a * r + r;
  }

  /** With smaller blocks it is not: four positions can pass a block the window no longer covers. */
  lemma PatchMisses(r: nat, nb: nat)
    requires 1 <= r <= 2 && nb >= 5
    ensures exists at: nat, q: nat ::
        at < q <= at + MAX_T && q < nb * r && Patched(Closed(at, nb, r), q, nb, r) != Closed(q, nb, r)
  {
    var at: nat, q: nat := 0, 4;
    var b := if r == 1 then 1 else 0;
    assert Patched(Closed(at, nb, r), q, nb, r)[b] != Closed(q, nb, r)[b];
    assert q < nb * r;
  }

  lemma PatchExactIff(r: nat, nb: nat)
    requires r > 0 && nb >= 5
    ensures (forall at: nat, q: nat | at < q <= at + MAX_T && q < nb * r ::
        Patched(Closed(at, nb, r), q, nb, r) == Closed(q, nb, r)) <==> r >= 3
  {
    if r >= 3 {
      forall at: nat, q: nat | at < q <= at + MAX_T && q < nb * r
          ensures Patched(Closed(at, nb, r), q, nb, r) == Closed(q, nb, r) {
        PatchExact(at, q, nb, r);
      }
    } else {
      PatchMisses(r, nb);
    }
  }

  function Unset(n: nat): seq<Bias> { seq(n, i => Hidden) }

  // ---------------------------------------------------------------- bucket and budget

  function Min(a: nat, b: nat): nat { if a < b then a else b }
  function Max(a: nat, b: nat): nat { if a < b then b else a }

  /** How many blocks a graph is shaped for at position q: the next multiple of 256, at least 768, at most all. */
  function Bucket(q: nat, nb: nat, r: nat): nat
    requires r > 0
  {
    Min(Max((q / r + 1 + 255) / 256 * 256, MIN_BUCKET), nb)
  }

  lemma BucketCovers(q: nat, nb: nat, r: nat)
    requires r > 0 && q < nb * r
    ensures q / r < Bucket(q, nb, r) <= nb && Min(MIN_BUCKET, nb) <= Bucket(q, nb, r)
  {
    CellInBlock(q, nb, r);
  }

  /** It is all blocks, or the least multiple of 256 that is 768 or more and holds the position's block. */
  lemma BucketIs(q: nat, nb: nat, r: nat, b: nat)
    requires r > 0 && q / r < b && 768 <= b && b % 256 == 0
    ensures Bucket(q, nb, r) <= b && Bucket(q, nb, r) <= nb
    ensures Bucket(q, nb, r) == nb || (Bucket(q, nb, r) > q / r && Bucket(q, nb, r) >= 768
                                       && Bucket(q, nb, r) % 256 == 0)
  {
    var n := q / r + 1;
    DivIs(b, b / 256, 0, 256);
    Monotone((n + 255) / 256, b / 256, 256);
  }

  /** The budget after steps at the positions qs: cut to each bucket it met, and never raised again. */
  function Budget(k0: nat, nb: nat, r: nat, qs: seq<nat>): nat
    requires r > 0
  {
    if qs == [] then k0 else Min(Budget(k0, nb, r, qs[..|qs| - 1]), Bucket(qs[|qs| - 1], nb, r))
  }

  lemma {:induction false} BudgetKept(k0: nat, nb: nat, r: nat, qs: seq<nat>)
    requires r > 0 && (k0 <= MIN_BUCKET || nb <= MIN_BUCKET) && forall i | 0 <= i < |qs| :: qs[i] < nb * r
    ensures Budget(k0, nb, r, qs) == if qs == [] then k0 else Min(k0, nb)
  {
    if qs != [] {
      BudgetKept(k0, nb, r, qs[..|qs| - 1]);
      BucketCovers(qs[|qs| - 1], nb, r);
    }
  }

  ghost predicate InContext(qs: seq<nat>, n: nat) {
    forall i | 0 <= i < |qs| :: qs[i] < n
  }

  lemma BudgetSnoc(k0: nat, nb: nat, r: nat, qs: seq<nat>, q: nat)
    requires r > 0
    ensures Budget(k0, nb, r, qs + [q]) == Min(Budget(k0, nb, r, qs), Bucket(q, nb, r))
    ensures Budget(k0, nb, r, [q]) == Min(k0, Bucket(q, nb, r))
  {
    assert (qs + [q])[..|qs|] == qs;
    assert [q][..0] == [];
  }

  /** A step at the start of a context, then one past the smallest bucket: the budget has not come back. */
  lemma BudgetSticks(k0: nat, nb: nat, r: nat)
    requires r > 0 && k0 > MIN_BUCKET && nb > MIN_BUCKET
    ensures var q := MIN_BUCKET * r; q < nb * r && Budget(k0, nb, r, [0] + [q]) < Budget(k0, nb, r, [q])
  {
    var q := MIN_BUCKET * r;
    Monotone(MIN_BUCKET, nb, r);
    BlockIs(q, MIN_BUCKET, r);
    BlockIs(0, 0, r);
    BudgetSnoc(k0, nb, r, [], 0);
    BudgetSnoc(k0, nb, r, [0], q);
  }

  /** The budget at a position is the one a taken start there would have, whatever came before, exactly when the whole
      budget fits the smallest bucket or every bucket is the whole context. */
  lemma BudgetForgets(k0: nat, nb: nat, r: nat)
    requires r > 0 && nb > 0
    ensures (forall qs: seq<nat>, q: nat | q < nb * r && InContext(qs, nb * r) ::
        Budget(k0, nb, r, qs + [q]) == Budget(k0, nb, r, [q]))
       <==> (k0 <= MIN_BUCKET || nb <= MIN_BUCKET)
  {
    if k0 <= MIN_BUCKET || nb <= MIN_BUCKET {
      forall qs: seq<nat>, q: nat | q < nb * r && InContext(qs, nb * r)
          ensures Budget(k0, nb, r, qs + [q]) == Budget(k0, nb, r, [q]) {
        BudgetKept(k0, nb, r, qs + [q]);
        BudgetKept(k0, nb, r, [q]);
      }
    } else {
      BudgetSticks(k0, nb, r);
      Monotone(1, nb, r);
      assert InContext([0], nb * r);
    }
  }
}
