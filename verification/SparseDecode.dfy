/** Decode-time sparse attention: raw keys pooled by block, the top blocks selected by score and bias, attention over
    the cells of the selected blocks that are not after the position. A verify step's positions run at once or one after
    the other, to the same end. A prompt's queries select by the same order.  Keys, pooling, scores and the attention
    itself are functions the model leaves open. A bias of a billion outweighs every score: a forced block comes first
    whatever it scores, one after the query last of the finite ones. */
module SparseDecode {
  import opened Arithmetic

  /** 0, 1e9, -1e9 and minus infinity. */
  datatype Bias = Whole | Tail | After | Hidden

  datatype Net = Net(pool: (nat, seq<int>) -> int, score: (int, int) -> int, attend: (int, set<(nat, int)>) -> int)

  /** The indexer's raw keys and the K/V rows by cell, the pooled keys by block of r cells. */
  datatype Caches = Caches(raw: seq<int>, pool: seq<int>, kv: seq<int>)

  /** What one position projects to. */
  datatype Pos = Pos(key: int, kv: int, query: int)

  ghost predicate Shaped(r: nat, nb: nat, c: Caches) {
    r > 0 && |c.raw| == |c.kv| == nb * r && |c.pool| == nb
  }

  // ---------------------------------------------------------------- blocks

  lemma BlockOf(q: nat, r: nat)
    requires r > 0
    ensures q / r * r <= q < q / r * r + r
  {
  }

  lemma BlockIs(q: nat, b: nat, r: nat)
    requires r > 0
    ensures b * r <= q < b * r + r <==> q / r == b
  {
    BlockOf(q, r);
    if b < q / r { assert (b + 1) * r <= q / r * r; }
    if b > q / r { assert b * r >= (q / r + 1) * r; }
  }

  /** A block is whole at position q when its last cell is not after q. */
  lemma WholeBlock(q: nat, b: nat, r: nat)
    requires r > 0
    ensures b < (q + 1) / r <==> b * r + r <= q + 1
  {
    BlockOf(q + 1, r);
    if b < (q + 1) / r { assert (b + 1) * r <= (q + 1) / r * r; }
    if b >= (q + 1) / r { assert (b + 1) * r >= ((q + 1) / r + 1) * r; }
  }

  lemma CellInBlock(q: nat, nb: nat, r: nat)
    requires r > 0 && q < nb * r
    ensures q / r < nb && q / r * r + r <= nb * r
  {
    var b := q / r;
    BlockOf(q, r);
    Monotone(nb, b, r);
    Monotone(b, nb, r);
  }

  lemma BlockEnd(b: nat, nb: nat, r: nat)
    requires b < nb
    ensures b * r + r <= nb * r
  {
    assert (b + 1) * r <= nb * r;
  }

  function Members(raw: seq<int>, b: nat, r: nat): seq<int>
    requires b * r + r <= |raw|
  {
    raw[b * r..b * r + r]
  }

  // ---------------------------------------------------------------- the bias

  /** The bias of position q: whole blocks are scored, the incomplete block holding q is forced, later ones are hidden.
      */
  function Closed(q: nat, nb: nat, r: nat): seq<Bias>
    requires r > 0
  {
    seq(nb, b => if b < (q + 1) / r then Whole else if b == q / r then Tail else Hidden)
  }

  // ---------------------------------------------------------------- selection

  datatype Rank = Forced | Scored(v: int) | Later(v: int) | Never

  /** Strict order of the selection; equal ranks go by index. */
  predicate Beats(a: Rank, i: int, b: Rank, j: int) {
    match (a, b)
    case (Forced, Forced) => i < j
    case (Forced, _) => true
    case (Scored(_), Forced) => false
    case (Scored(v), Scored(w)) => v > w || (v == w && i < j)
    case (Scored(_), _) => true
    case (Later(v), Later(w)) => v > w || (v == w && i < j)
    case (Later(_), Never) => true
    case (Later(_), _) => false
    case (Never, Never) => i < j
    case (Never, _) => false
  }

  function RankOf(net: Net, query: int, row: int, b: Bias): Rank {
    match b
    case Tail => Forced
    case Whole => Scored(net.score(query, row))
    case After => Later(net.score(query, row))
    case Hidden => Never
  }

  /** The ranks of the first `bucket` blocks. */
  function Ranks(net: Net, query: int, pool: seq<int>, bias: seq<Bias>, bucket: nat): seq<Rank>
    requires bucket <= |pool| && bucket <= |bias|
  {
    seq(bucket, b requires 0 <= b < bucket => RankOf(net, query, pool[b], bias[b]))
  }

  function Better(ranks: seq<Rank>, i: nat): set<nat>
    requires i < |ranks|
  {
    set j: nat | j < |ranks| && Beats(ranks[j], j, ranks[i], i)
  }

  function TopK(ranks: seq<Rank>, k: nat): set<nat> {
    set i: nat | i < |ranks| && |Better(ranks, i)| < k
  }

  /** What position q attends over: the cells not after it of the selected blocks. */
  function Visible(net: Net, r: nat, c: Caches, q: nat, query: int, bias: seq<Bias>, bucket: nat, k: nat): set<nat>
    requires r > 0 && bucket <= |c.pool| && bucket <= |bias|
  {
    set x: nat | x <= q && x / r in TopK(Ranks(net, query, c.pool, bias, bucket), k)
  }

  function Attended(net: Net, r: nat, c: Caches, q: nat, query: int, bias: seq<Bias>, bucket: nat, k: nat): int
    requires r > 0 && bucket <= |c.pool| && bucket <= |bias| && q < |c.kv|
  {
    net.attend(query, set x | x in Visible(net, r, c, q, query, bias, bucket, k) :: (x, c.kv[x]))
  }

  // ---------------------------------------------------------------- one position after the other

  /** sparse_attn_decode's writes: the raw key, then its block pooled over what is written, then K and V. */
  function Write(net: Net, r: nat, nb: nat, c: Caches, q: nat, p: Pos): (d: Caches)
    requires Shaped(r, nb, c) && q < nb * r
    ensures Shaped(r, nb, d)
  {
    CellInBlock(q, nb, r);
    var raw := c.raw[q := p.key];
    Caches(raw, c.pool[q / r := net.pool(q / r, Members(raw, q / r, r))], c.kv[q := p.kv])
  }

  /** The caches after the first k chained positions. */
  function Chained(net: Net, r: nat, nb: nat, c: Caches, q: nat, ps: seq<Pos>, k: nat): (d: Caches)
    requires Shaped(r, nb, c) && q + |ps| <= nb * r && k <= |ps|
    ensures Shaped(r, nb, d)
  {
    if k == 0 then c else Write(net, r, nb, Chained(net, r, nb, c, q, ps, k - 1), q + k - 1, ps[k - 1])
  }

  // ---------------------------------------------------------------- all positions at once

  function Keys(ps: seq<Pos>): seq<int> { seq(|ps|, k requires 0 <= k < |ps| => ps[k].key) }

  function Rows(ps: seq<Pos>): seq<int> { seq(|ps|, k requires 0 <= k < |ps| => ps[k].kv) }

  /** The blocks of the first k positions pooled from the raw keys, in order. */
  function Pooled(net: Net, r: nat, nb: nat, raw: seq<int>, pool: seq<int>, q: nat, k: nat): (d: seq<int>)
    requires r > 0 && |raw| == nb * r && |pool| == nb && q + k <= nb * r
    ensures |d| == nb
  {
    if k == 0 then pool else PooledOnce(net, r, nb, raw, Pooled(net, r, nb, raw, pool, q, k - 1), q + k - 1)
  }

  /** The block of one cell pooled from the raw keys. */
  function PooledOnce(net: Net, r: nat, nb: nat, raw: seq<int>, pool: seq<int>, x: nat): (d: seq<int>)
    requires r > 0 && |raw| == nb * r && |pool| == nb && x < nb * r
    ensures |d| == nb
  {
    CellInBlock(x, nb, r);
    pool[x / r := net.pool(x / r, Members(raw, x / r, r))]
  }

  /** sparse_attn_decode_T's writes: every raw key first, then the positions' blocks pooled, then every K and V. */
  function Batched(net: Net, r: nat, nb: nat, c: Caches, q: nat, ps: seq<Pos>): (d: Caches)
    requires Shaped(r, nb, c) && q + |ps| <= nb * r
    ensures Shaped(r, nb, d)
  {
    var raw := c.raw[..q] + Keys(ps) + c.raw[q + |ps|..];
    Caches(raw, Pooled(net, r, nb, raw, c.pool, q, |ps|), c.kv[..q] + Rows(ps) + c.kv[q + |ps|..])
  }

  // ---------------------------------------------------------------- they agree

  lemma {:induction false} ChainedRows(net: Net, r: nat, nb: nat, c: Caches, q: nat, ps: seq<Pos>, k: nat)
    requires Shaped(r, nb, c) && q + |ps| <= nb * r && k <= |ps|
    ensures var d := Chained(net, r, nb, c, q, ps, k);
      forall x: nat | x < nb * r :: d.raw[x] == StepRaw(c, q, ps, k, x) && d.kv[x] == StepKv(c, q, ps, k, x)
  {
    var d := Chained(net, r, nb, c, q, ps, k);
    forall x: nat | x < nb * r ensures d.raw[x] == StepRaw(c, q, ps, k, x) && d.kv[x] == StepKv(c, q, ps, k, x) {
      ChainedCell(net, r, nb, c, q, ps, k, x);
    }
  }

  lemma {:induction false} ChainedCell(net: Net, r: nat, nb: nat, c: Caches, q: nat, ps: seq<Pos>, k: nat, x: nat)
    requires Shaped(r, nb, c) && q + |ps| <= nb * r && k <= |ps| && x < nb * r
    ensures var d := Chained(net, r, nb, c, q, ps, k);
      d.raw[x] == StepRaw(c, q, ps, k, x) && d.kv[x] == StepKv(c, q, ps, k, x)
  {
    if k > 0 {
      ChainedCell(net, r, nb, c, q, ps, k - 1, x);
      WriteCells(net, r, nb, Chained(net, r, nb, c, q, ps, k - 1), q + k - 1, ps[k - 1]);
      hide Write;
    }
  }

  lemma WriteCells(net: Net, r: nat, nb: nat, c: Caches, q: nat, p: Pos)
    requires Shaped(r, nb, c) && q < nb * r
    ensures Write(net, r, nb, c, q, p).raw == c.raw[q := p.key] && Write(net, r, nb, c, q, p).kv == c.kv[q := p.kv]
  {
  }

  /** Pooling a block reads only its own cells: raw keys that agree there give the same row. */
  lemma SameMembers(a: seq<int>, b: seq<int>, blk: nat, r: nat)
    requires |a| == |b| && blk * r + r <= |a| && forall x | blk * r <= x < blk * r + r :: a[x] == b[x]
    ensures Members(a, blk, r) == Members(b, blk, r)
  {
  }

  /** One of the first k positions from q on is in block b. */
  predicate Touched(q: nat, k: nat, b: nat, r: nat)
    requires r > 0
  {
    k > 0 && ((q + k - 1) / r == b || Touched(q, k - 1, b, r))
  }

  /** No position after a block's last cell is in it. */
  lemma {:induction false} TouchedLate(q: nat, k: nat, n: nat, b: nat, r: nat)
    requires r > 0 && k <= n && b * r + r <= q + k
    ensures Touched(q, n, b, r) == Touched(q, k, b, r)
  {
    if k < n {
      TouchedLate(q, k, n - 1, b, r);
      BlockIs(q + n - 1, b, r);
    }
  }

  /** The row of block b after k chained positions, if one of them wrote it: pooled from the raw keys there are then,
      although it may have been written before the last of them. */
  lemma {:induction false} ChainedPool(net: Net, r: nat, nb: nat, c: Caches, q: nat, ps: seq<Pos>, k: nat, b: nat)
    requires Shaped(r, nb, c) && q + |ps| <= nb * r && k <= |ps| && b < nb && b * r + r <= nb * r
    ensures var d := Chained(net, r, nb, c, q, ps, k);
      d.pool[b] == if Touched(q, k, b, r) then net.pool(b, Members(d.raw, b, r)) else c.pool[b]
  {
    if k > 0 {
      ChainedPool(net, r, nb, c, q, ps, k - 1, b);
      var e, d := Chained(net, r, nb, c, q, ps, k - 1), Chained(net, r, nb, c, q, ps, k);
      WriteRow(net, r, nb, e, q + k - 1, ps[k - 1], b);
    }
  }

  lemma WriteRow(net: Net, r: nat, nb: nat, c: Caches, q: nat, p: Pos, b: nat)
    requires Shaped(r, nb, c) && q < nb * r && b < nb && b * r + r <= nb * r
    ensures var d := Write(net, r, nb, c, q, p);
      if q / r == b then d.pool[b] == net.pool(b, Members(d.raw, b, r))
      else d.pool[b] == c.pool[b] && Members(d.raw, b, r) == Members(c.raw, b, r)
  {
    CellInBlock(q, nb, r);
    BlockIs(q, b, r);
    if q / r != b { SameMembers(c.raw, c.raw[q := p.key], b, r); }
  }

  lemma {:induction false} PooledRow(net: Net, r: nat, nb: nat, raw: seq<int>, pool: seq<int>, q: nat, k: nat, b: nat)
    requires r > 0 && |raw| == nb * r && |pool| == nb && q + k <= nb * r && b < nb && b * r + r <= nb * r
    ensures Pooled(net, r, nb, raw, pool, q, k)[b] == if Touched(q, k, b, r) then net.pool(b, Members(raw, b, r))
        else pool[b]
  {
    if k > 0 {
      PooledRow(net, r, nb, raw, pool, q, k - 1, b);
      CellInBlock(q + k - 1, nb, r);
    }
  }

  lemma BatchedRows(net: Net, r: nat, nb: nat, c: Caches, q: nat, ps: seq<Pos>)
    requires Shaped(r, nb, c) && q + |ps| <= nb * r
    ensures var d := Batched(net, r, nb, c, q, ps);
      forall x: nat | x < nb * r :: d.raw[x] == StepRaw(c, q, ps, |ps|, x) && d.kv[x] == StepKv(c, q, ps, |ps|, x)
  {
  }

  /** Cell x as a step from position q on leaves it. */
  function StepRaw(c: Caches, q: nat, ps: seq<Pos>, k: nat, x: nat): int
    requires k <= |ps| && x < |c.raw|
  {
    if q <= x < q + k then ps[x - q].key else c.raw[x]
  }

  function StepKv(c: Caches, q: nat, ps: seq<Pos>, k: nat, x: nat): int
    requires k <= |ps| && x < |c.kv|
  {
    if q <= x < q + k then ps[x - q].kv else c.kv[x]
  }

  lemma CellsAgree(net: Net, r: nat, nb: nat, c: Caches, q: nat, ps: seq<Pos>)
    requires Shaped(r, nb, c) && q + |ps| <= nb * r
    ensures Batched(net, r, nb, c, q, ps).raw == Chained(net, r, nb, c, q, ps, |ps|).raw
    ensures Batched(net, r, nb, c, q, ps).kv == Chained(net, r, nb, c, q, ps, |ps|).kv
  {
    ChainedRows(net, r, nb, c, q, ps, |ps|);
    BatchedRows(net, r, nb, c, q, ps);
  }

  /** The step leaves the same caches either way. */
  lemma BatchedIsChained(net: Net, r: nat, nb: nat, c: Caches, q: nat, ps: seq<Pos>)
    requires Shaped(r, nb, c) && q + |ps| <= nb * r
    ensures Batched(net, r, nb, c, q, ps) == Chained(net, r, nb, c, q, ps, |ps|)
  {
    var d, e := Batched(net, r, nb, c, q, ps), Chained(net, r, nb, c, q, ps, |ps|);
    CellsAgree(net, r, nb, c, q, ps);
    forall b | 0 <= b < nb ensures d.pool[b] == e.pool[b] {
      BlockEnd(b, nb, r);
      ChainedPool(net, r, nb, c, q, ps, |ps|, b);
      PooledRow(net, r, nb, d.raw, c.pool, q, |ps|, b);
    }
  }

  /** A block whole at the k-th position has its row already when that position scores, and no later position changes
      it. */
  lemma WholeRow(net: Net, r: nat, nb: nat, c: Caches, q: nat, ps: seq<Pos>, k: nat, b: nat)
    requires Shaped(r, nb, c) && q + |ps| <= nb * r && k < |ps| && b < nb && b < (q + k + 1) / r
    ensures Chained(net, r, nb, c, q, ps, k + 1).pool[b] == Chained(net, r, nb, c, q, ps, |ps|).pool[b]
  {
    assert b * r + r <= nb * r && b * r + r <= q + k + 1 by {
      BlockEnd(b, nb, r);
      WholeBlock(q + k, b, r);
    }
    WholeRaw(net, r, nb, c, q, ps, k, b);
    ChainedPool(net, r, nb, c, q, ps, k + 1, b);
    ChainedPool(net, r, nb, c, q, ps, |ps|, b);
    TouchedLate(q, k + 1, |ps|, b, r);
  }

  lemma WholeRaw(net: Net, r: nat, nb: nat, c: Caches, q: nat, ps: seq<Pos>, k: nat, b: nat)
    requires Shaped(r, nb, c) && q + |ps| <= nb * r && k < |ps| && b * r + r <= nb * r && b * r + r <= q + k + 1
    ensures Members(Chained(net, r, nb, c, q, ps, k + 1).raw, b, r) == Members(Chained(net, r, nb, c, q, ps, |ps|).raw,
        b, r)
  {
    ChainedRows(net, r, nb, c, q, ps, k + 1);
    ChainedRows(net, r, nb, c, q, ps, |ps|);
    SameMembers(Chained(net, r, nb, c, q, ps, k + 1).raw, Chained(net, r, nb, c, q, ps, |ps|).raw, b, r);
  }

  lemma SameRanks(net: Net, r: nat, nb: nat, c: Caches, q: nat, ps: seq<Pos>, k: nat, bucket: nat)
    requires Shaped(r, nb, c) && q + |ps| <= nb * r && k < |ps| && bucket <= nb
    ensures Ranks(net, ps[k].query, Batched(net, r, nb, c, q, ps).pool, Closed(q + k, nb, r), bucket)
         == Ranks(net, ps[k].query, Chained(net, r, nb, c, q, ps, k + 1).pool, Closed(q + k, nb, r), bucket)
  {
    var d, e := Batched(net, r, nb, c, q, ps), Chained(net, r, nb, c, q, ps, k + 1);
    BatchedIsChained(net, r, nb, c, q, ps);
    forall b: nat | b < bucket && b < (q + k + 1) / r
        ensures d.pool[b] == e.pool[b] { WholeRow(net, r, nb, c, q, ps, k, b); }
  }

  lemma SameKv(net: Net, r: nat, nb: nat, c: Caches, q: nat, ps: seq<Pos>, k: nat, x: nat)
    requires Shaped(r, nb, c) && q + |ps| <= nb * r && k < |ps| && x <= q + k
    ensures Batched(net, r, nb, c, q, ps).kv[x] == Chained(net, r, nb, c, q, ps, k + 1).kv[x]
  {
    ChainedRows(net, r, nb, c, q, ps, k + 1);
    BatchedRows(net, r, nb, c, q, ps);
  }

  /** Each position of a verify step attends over the same visible cells, with the same result, whether the step writes
      everything first or runs one position at a time. */
  lemma VerifyStep(net: Net, r: nat, nb: nat, c: Caches, q: nat, ps: seq<Pos>, k: nat, bucket: nat, top: nat)
    requires Shaped(r, nb, c) && q + |ps| <= nb * r && k < |ps| && bucket <= nb
    ensures var d, e := Batched(net, r, nb, c, q, ps), Chained(net, r, nb, c, q, ps, k + 1);
      && Visible(net, r, d, q + k, ps[k].query, Closed(q + k, nb, r), bucket, top)
           == Visible(net, r, e, q + k, ps[k].query, Closed(q + k, nb, r), bucket, top)
      && Attended(net, r, d, q + k, ps[k].query, Closed(q + k, nb, r), bucket, top)
           == Attended(net, r, e, q + k, ps[k].query, Closed(q + k, nb, r), bucket, top)
  {
    var d, e := Batched(net, r, nb, c, q, ps), Chained(net, r, nb, c, q, ps, k + 1);
    SameRanks(net, r, nb, c, q, ps, k, bucket);
    var v := Visible(net, r, d, q + k, ps[k].query, Closed(q + k, nb, r), bucket, top);
    forall x | x in v ensures d.kv[x] == e.kv[x] { SameKv(net, r, nb, c, q, ps, k, x); }
    assert (set x | x in v :: (x, d.kv[x])) == (set x | x in v :: (x, e.kv[x]));
  }

  // ---------------------------------------------------------------- what is selected

  /** Whatever beats the better of two beats the other too, and so does the better one. */
  lemma BeatsTrans(ranks: seq<Rank>, e: nat, b: nat)
    requires e < |ranks| && b < |ranks| && Beats(ranks[e], e, ranks[b], b)
    ensures |Better(ranks, e)| < |Better(ranks, b)|
  {
    assert e !in Better(ranks, e) && e in Better(ranks, b);
    SubsetSize(Better(ranks, e) + {e}, Better(ranks, b));
  }

  /** One of the blocks that none of them beats. */
  lemma {:induction false} Best(ranks: seq<Rank>, s: set<nat>) returns (m: nat)
    requires s != {} && forall i | i in s :: i < |ranks|
    ensures m in s && forall j | j in s :: !Beats(ranks[j], j, ranks[m], m)
    decreases |s|
  {
    var x :| x in s;
    m := x;
    if s != {x} {
      assert s - {x} != {};
      var y := Best(ranks, s - {x});
      m := if Beats(ranks[x], x, ranks[y], y) then x else y;
      forall j | j in s ensures !Beats(ranks[j], j, ranks[m], m) {
        assert j == x || j in s - {x};
      }
    }
  }

  /** Exactly k blocks are selected, or all where there are fewer. */
  lemma {:induction false} SelectionSize(ranks: seq<Rank>, k: nat)
    ensures |TopK(ranks, k)| == if k <= |ranks| then k else |ranks|
  {
    if k == 0 {
      assert TopK(ranks, 0) == {};
    } else {
      SelectionSize(ranks, k - 1);
      Grows(ranks, k - 1);
    }
  }

  lemma Grows(ranks: seq<Rank>, k: nat)
    requires |TopK(ranks, k)| == if k <= |ranks| then k else |ranks|
    ensures |TopK(ranks, k + 1)| == if k < |ranks| then k + 1 else |ranks|
  {
    var t, all := TopK(ranks, k), Below(|ranks|);
    if k < |ranks| {
      assert all - t != {} by { if all <= t { SubsetSize(all, t); } }
      var m := Best(ranks, all - t);
      forall j: nat | j < |ranks| && j !in t ensures !Beats(ranks[j], j, ranks[m], m) { assert j in all - t; }
      NextSelected(ranks, k, m);
    } else {
      SubsetSize(TopK(ranks, k + 1), all);
      SubsetSize(t, TopK(ranks, k + 1));
    }
  }

  lemma NextSelected(ranks: seq<Rank>, k: nat, m: nat)
    requires m < |ranks| && m !in TopK(ranks, k) && |TopK(ranks, k)| <= k
    requires forall j: nat | j < |ranks| && j !in TopK(ranks, k) :: !Beats(ranks[j], j, ranks[m], m)
    ensures TopK(ranks, k + 1) == TopK(ranks, k) + {m}
  {
    SubsetSize(Better(ranks, m), TopK(ranks, k));
    forall i | i in TopK(ranks, k + 1) ensures i in TopK(ranks, k) + {m} {
      if i != m && i !in TopK(ranks, k) {
        assert Beats(ranks[m], m, ranks[i], i);
        BeatsTrans(ranks, m, i);
      }
    }
  }

  /** A block selected beside one left out. By score among whole blocks and among those after the position, the lower
      index first where scores are equal; whatever they score, a forced block before a whole one, a whole one before one
      after the position, and hidden ones last. */
  lemma Selects(net: Net, query: int, pool: seq<int>, bias: seq<Bias>, n: nat, k: nat, b: nat, e: nat)
    requires b < n <= |pool| && e < n <= |bias|
    requires b in TopK(Ranks(net, query, pool, bias, n), k) && e !in TopK(Ranks(net, query, pool, bias, n), k)
    ensures bias[b] == bias[e] == Whole || bias[b] == bias[e] == After ==>
              || net.score(query, pool[b]) > net.score(query, pool[e])
              || (net.score(query, pool[b]) == net.score(query, pool[e]) && b < e)
    ensures bias[e] == Tail ==> bias[b] == Tail && b < e
    ensures bias[e] == Whole ==> bias[b] == Tail || bias[b] == Whole
    ensures bias[b] == Hidden ==> bias[e] == Hidden && b < e
  {
    var ranks := Ranks(net, query, pool, bias, n);
    if Beats(ranks[e], e, ranks[b], b) {
      BeatsTrans(ranks, e, b);
    }
    assert Beats(ranks[b], b, ranks[e], e);
  }

  /** At position q: of the blocks that end by it those of the highest scores, the lower index first where scores are
      equal; one that begins after it only beside every other; the incomplete one it is in always. */
  lemma SelectsAt(net: Net, query: int, pool: seq<int>, q: nat, r: nat, n: nat, k: nat, b: nat, e: nat)
    requires r > 0 && b < n <= |pool| && e < n
    requires b in TopK(Ranks(net, query, pool, Closed(q, |pool|, r), n), k)
    requires e !in TopK(Ranks(net, query, pool, Closed(q, |pool|, r), n), k)
    ensures b * r + r <= q + 1 && e * r + r <= q + 1 ==>
              || net.score(query, pool[b]) > net.score(query, pool[e])
              || (net.score(query, pool[b]) == net.score(query, pool[e]) && b < e)
    ensures e * r <= q ==> b * r <= q && e * r + r <= q + 1
  {
    Selects(net, query, pool, Closed(q, |pool|, r), n, k, b, e);
    BiasAt(q, |pool|, r, b);
    BiasAt(q, |pool|, r, e);
    if e * r <= q < e * r + r - 1 {
      BlockIs(q, b, r);
      BlockIs(q, e, r);
    }
  }

  lemma BiasAt(q: nat, nb: nat, r: nat, b: nat)
    requires r > 0 && b < nb
    ensures Closed(q, nb, r)[b] == if b * r + r <= q + 1 then Whole else if b * r <= q then Tail else Hidden
  {
    WholeBlock(q, b, r);
    BlockIs(q, b, r);
  }

  /** The pooled key of a block that ends by the step's end is that of its r cells' keys, in order. */
  lemma PoolsCells(net: Net, r: nat, nb: nat, c: Caches, q: nat, ps: seq<Pos>, b: nat, cells: seq<int>)
    requires Shaped(r, nb, c) && q + |ps| <= nb * r && b < nb && b * r + r <= nb * r && q < b * r + r <= q + |ps|
    requires |cells| == r
    requires forall i: nat | i < r :: cells[i] == if b * r + i < q then c.raw[b * r + i] else ps[b * r + i - q].key
    ensures Batched(net, r, nb, c, q, ps).pool[b] == net.pool(b, cells)
  {
    var d := Batched(net, r, nb, c, q, ps);
    WholeAfter(net, r, nb, c, q, ps, b);
    BatchedRows(net, r, nb, c, q, ps);
    forall i: nat | i < r ensures Members(d.raw, b, r)[i] == cells[i] {
      assert d.raw[b * r + i] == StepRaw(c, q, ps, |ps|, b * r + i);
    }
    assert Members(d.raw, b, r) == cells;
  }

  /** The rows attention is given: of every cell not after the position in a selected block its K/V row, and no other.
      */
  lemma AttendsTo(net: Net, r: nat, c: Caches, q: nat, query: int, bias: seq<Bias>, bucket: nat, k: nat)
    returns (rows: set<(nat, int)>)
    requires r > 0 && bucket <= |c.pool| && bucket <= |bias| && q < |c.kv|
    ensures Attended(net, r, c, q, query, bias, bucket, k) == net.attend(query, rows)
    ensures forall x: nat, v :: (x, v) in rows <==>
              && x <= q && v == c.kv[x]
              && exists b :: b in TopK(Ranks(net, query, c.pool, bias, bucket), k) && b * r <= x < b * r + r
  {
    var sel := TopK(Ranks(net, query, c.pool, bias, bucket), k);
    rows := set x | x in Visible(net, r, c, q, query, bias, bucket, k) :: (x, c.kv[x]);
    forall x: nat, v
      ensures (x, v) in rows <==>
                x <= q && v == c.kv[x] && exists b :: b in sel && b * r <= x < b * r + r
    {
      BlockOf(x, r);
      if b :| b in sel && b * r <= x < b * r + r { BlockIs(x, b, r); }
      if x <= q && x / r in sel { assert x in Visible(net, r, c, q, query, bias, bucket, k); }
    }
  }

  // ---------------------------------------------------------------- bucket and budget

  lemma BetterNear(net: Net, query: int, pool: seq<int>, q: nat, nb: nat, r: nat, n: nat, b: nat)
    requires r > 0 && |pool| == nb && b <= q / r < n <= nb
    ensures b < (q + 1) / r || b == q / r
    ensures Better(Ranks(net, query, pool, Closed(q, nb, r), n),
        b) == Better(Ranks(net, query, pool, Closed(q, nb, r), nb), b)
    ensures |Better(Ranks(net, query, pool, Closed(q, nb, r), n), b)| < n
  {
    if b < q / r {
      BlockOf(q, r);
      WholeBlock(q, b, r);
      Monotone(b + 1, q / r, r);
      assert (b + 1) * r == b * r + r;
    }
    var ranks, all := Ranks(net, query, pool, Closed(q, nb, r), n), Ranks(net, query, pool, Closed(q, nb, r), nb);
    assert ranks[b] == all[b] && !all[b].Never?;
    forall j: nat | j < nb && Beats(all[j], j, all[b], b) ensures j < n && ranks[j] == all[j] {
      assert !all[j].Never?;
      if j > q / r { LaterHidden(q, j, r); }
    }
    Fewer(Better(ranks, b), n, b);
  }

  lemma LaterHidden(q: nat, j: nat, r: nat)
    requires r > 0 && j > q / r
    ensures j >= (q + 1) / r
  {
    WholeBlock(q, j, r);
    BlockOf(q, r);
    Monotone(q / r + 1, j, r);
    assert (q / r + 1) * r == q / r * r + r;
  }

  function Below(n: nat): (s: set<nat>)
    ensures forall x: nat :: x in s <==> x < n
    ensures |s| == n
  {
    if n == 0 then {} else Below(n - 1) + {n - 1}
  }

  lemma Fewer(s: set<nat>, n: nat, b: nat)
    requires (forall x | x in s :: x < n) && b < n && b !in s
    ensures |s| < n
  {
    SubsetSize(s, Below(n) - {b});
  }

  lemma {:induction false} SubsetSize<T>(a: set<T>, b: set<T>)
    requires a <= b
    ensures |a| <= |b|
  {
    if a != {} {
      var x :| x in a;
      SubsetSize(a - {x}, b - {x});
    }
  }

  lemma BlockOrder(x: nat, q: nat, r: nat)
    requires r > 0 && x <= q
    ensures x / r <= q / r
  {
    BlockOf(x, r);
    BlockOf(q, r);
    Monotone(q / r + 1, x / r, r);
  }

  /** The bucket the graph is shaped for, and a budget cut down to it, do not change what a position sees. */
  lemma AnyBucket(net: Net, r: nat, nb: nat, c: Caches, q: nat, query: int, n: nat, k: nat, k0: nat)
    requires Shaped(r, nb, c) && q / r < n <= nb && (k == k0 || n <= k <= k0)
    ensures Visible(net, r, c, q, query, Closed(q, nb, r), n, k) == Visible(net, r, c, q, query, Closed(q, nb, r), nb,
        k0)
    ensures q < |c.kv| ==> Attended(net, r, c, q, query, Closed(q, nb, r), n, k) == Attended(net, r, c, q, query,
        Closed(q, nb, r), nb, k0)
  {
    var ranks, all := Ranks(net, query, c.pool, Closed(q, nb, r), n), Ranks(net, query, c.pool, Closed(q, nb, r), nb);
    forall x: nat | x <= q ensures x / r in TopK(ranks, k) <==> x / r in TopK(all, k0) {
      BlockOrder(x, q, r);
      BetterNear(net, query, c.pool, q, nb, r, n, x / r);
    }
  }

  /** The block a position is in is always among the selected: it sees itself. */
  lemma SeesItself(net: Net, r: nat, nb: nat, c: Caches, q: nat, query: int, k: nat)
    requires Shaped(r, nb, c) && q < nb * r && k > 0 && (q + 1) / r == q / r
    ensures q in Visible(net, r, c, q, query, Closed(q, nb, r), nb, k)
  {
    CellInBlock(q, nb, r);
    var ranks := Ranks(net, query, c.pool, Closed(q, nb, r), nb);
    assert Better(ranks, q / r) == {};
  }

  /** What a position sees depends on the rows of the blocks whole at it and the K/V rows not after it, on nothing else.
      */
  lemma SeesOnly(net: Net, r: nat, nb: nat, c: Caches, d: Caches, q: nat, query: int, k: nat)
    requires Shaped(r, nb, c) && Shaped(r, nb, d) && q < nb * r
    requires forall b: nat | b < nb && b < (q + 1) / r :: c.pool[b] == d.pool[b]
    requires forall x: nat | x <= q :: c.kv[x] == d.kv[x]
    ensures Attended(net, r, c, q, query, Closed(q, nb, r), nb, k) == Attended(net, r, d, q, query, Closed(q, nb, r),
        nb, k)
  {
    assert Ranks(net, query, c.pool, Closed(q, nb, r), nb) == Ranks(net, query, d.pool, Closed(q, nb, r), nb);
    var v := Visible(net, r, c, q, query, Closed(q, nb, r), nb, k);
    assert (set x | x in v :: (x, c.kv[x])) == (set x | x in v :: (x, d.kv[x]));
  }

  /** After a step that ends before cell q + |ps|, every block whole by then has the row its raw keys pool to, if those
      whole before the step had. */
  lemma WholeAfter(net: Net, r: nat, nb: nat, c: Caches, q: nat, ps: seq<Pos>, b: nat)
    requires Shaped(r, nb, c) && q + |ps| <= nb * r && b < nb && b * r + r <= nb * r && b * r + r <= q + |ps|
    requires b * r + r <= q ==> c.pool[b] == net.pool(b, Members(c.raw, b, r))
    ensures var d := Batched(net, r, nb, c, q, ps); d.pool[b] == net.pool(b, Members(d.raw, b, r))
  {
    var d := Batched(net, r, nb, c, q, ps);
    PooledRow(net, r, nb, d.raw, c.pool, q, |ps|, b);
    BatchedRows(net, r, nb, c, q, ps);
    if b * r + r <= q {
      SameMembers(c.raw, d.raw, b, r);
    } else {
      var k := b * r + r - q;
      BlockIs(q + k - 1, b, r);
      TouchedLate(q, k, |ps|, b, r);
    }
  }
}
