/** The block bias of a prompt's queries, built three ways -- filled, looped over, and by a formula on the device -- and
    what selecting by it means. */
module PromptBias {
  import opened Arithmetic
  import opened SparseDecode

  /** A bias as it is stored. */
  datatype Word = Fin(v: real) | NegInf

  const BIG: real := 1000000000.0

  function Stored(b: Bias): Word {
    match b
    case Whole => Fin(0.0)
    case Tail => Fin(BIG)
    case After => Fin(-BIG)
    case Hidden => NegInf
  }

  /** Query q against block b: scored if the block ends at or before q, forced if it holds q, last if it lies after q.
      */
  function At(q: nat, b: nat, r: nat): Bias {
    if (b + 1) * r <= q + 1 then Whole else if b * r <= q then Tail else After
  }

  function Prompt(q: nat, blocks: nat, r: nat): seq<Bias> {
    seq(blocks, b requires 0 <= b < blocks => At(q, b, r))
  }

  function Words(q: nat, blocks: nat, r: nat): seq<Word> {
    seq(blocks, b requires 0 <= b < blocks => Stored(At(q, b, r)))
  }

  /** Blocks over nKv cells; the last one may be partial. */
  function Blocks(nKv: nat, r: nat): nat
    requires r > 0
  {
    (nKv + r - 1) / r
  }

  lemma BlockCount(nKv: nat, r: nat)
    requires r > 0
    ensures nKv / r <= Blocks(nKv, r) <= nKv / r + 1
    ensures Blocks(nKv, r) == nKv / r <==> nKv / r * r == nKv
    ensures nKv <= Blocks(nKv, r) * r < nKv + r
  {
    BlockOf(nKv, r);
    BlockOf(nKv + r - 1, r);
    var n, b := nKv / r, Blocks(nKv, r);
    Monotone(n + 1, b, r);
    Monotone(b, n, r);
    Monotone(n, b, r);
    assert (n + 1) * r == n * r + r;
    Monotone(b + 1, n + 1, r);
    Monotone(n + 2, b, r);
    assert (n + 2) * r == n * r + r + r;
  }

  lemma WholeUpTo(q: nat, b: nat, r: nat)
    requires r > 0
    ensures b < (q + 1) / r <==> At(q, b, r) == Whole
  {
    WholeBlock(q, b, r);
    assert (b + 1) * r == b * r + r;
  }

  // ---------------------------------------------------------------- three ways to build it

  /** Block x's word with the ranges filled and the lowering done up to block b. */
  function Lowered(q: nat, r: nat, tail: nat, b: nat, x: nat): Word {
    if x < tail then Fin(0.0) else if x < b && x * r > q then Fin(-BIG) else Fin(BIG)
  }

  /** By filling ranges, then lowering what lies after the query. */
  method Filled(nKv: nat, q: nat, r: nat) returns (row: seq<Word>)
    requires r > 0 && q < nKv
    ensures row == Words(q, Blocks(nKv, r), r)
  {
    var blocks, bid := Blocks(nKv, r), nKv / r;
    BlockCount(nKv, r);
    BlockOrder(q + 1, nKv, r);
    var dead := bid < blocks;
    var tail := if (q + 1) / r < bid then (q + 1) / r else bid;
    row := seq(tail, b => Fin(0.0)) + seq(bid - tail, b => Fin(BIG)) + seq(blocks - bid, b => NegInf);
    if dead { row := row[bid := Fin(BIG)]; }
    for b := tail to blocks
      invariant |row| == blocks
      invariant forall x | 0 <= x < blocks :: row[x] == Lowered(q, r, tail, b, x)
    {
      if row[b] != NegInf && row[b].v > 0.0 && b * r > q { row := row[b := Fin(-BIG)]; }
    }
    forall b | 0 <= b < blocks ensures row[b] == Stored(At(q, b, r)) { WholeUpTo(q, b, r); }
  }

  /** By one pass over the blocks, a tail rounded down to a block's first cell. */
  method Looped(nKv: nat, q: nat, r: nat) returns (row: seq<Word>)
    requires r > 0 && q < nKv
    ensures row == Words(q, Blocks(nKv, r), r)
  {
    var blocks, bid := Blocks(nKv, r), nKv / r;
    BlockCount(nKv, r);
    row := Pass(nKv, q, r, blocks);
    if bid < blocks { row := row[bid := Fin(BIG)]; }
    row := Lower(nKv, q, r, row);
  }

  method Pass(nKv: nat, q: nat, r: nat, blocks: nat) returns (row: seq<Word>)
    requires r > 0
    ensures |row| == blocks && forall x | 0 <= x < blocks :: row[x] == Raised(nKv, q, r, x)
  {
    var bid, tail := nKv / r, (q + 1) / r * r;
    row := [];
    for b := 0 to blocks
      invariant |row| == b && forall x | 0 <= x < b :: row[x] == Raised(nKv, q, r, x)
    {
      row := row + [if b >= bid then NegInf else if b * r >= tail then Fin(BIG) else Fin(0.0)];
    }
  }

  method Lower(nKv: nat, q: nat, r: nat, before: seq<Word>) returns (row: seq<Word>)
    requires r > 0 && q < nKv && |before| == Blocks(nKv, r)
    requires forall x | 0 <= x < |before| :: before[x] == if x == nKv / r then Fin(BIG) else Raised(nKv, q, r, x)
    ensures row == Words(q, |before|, r)
  {
    BlockCount(nKv, r);
    BlockOrder(q + 1, nKv, r);
    row := before;
    var start := (q + 1) / r;
    for b := start to |before|
      invariant |row| == |before|
      invariant forall x | 0 <= x < |row| :: row[x] == if start <= x < b && x * r > q then Fin(-BIG) else before[x]
    {
      LoopWord(nKv, q, r, b, before);
      if row[b] != NegInf && row[b].v > 0.0 && b * r > q { row := row[b := Fin(-BIG)]; }
    }
    forall b | 0 <= b < |row| ensures row[b] == Stored(At(q, b, r)) {
      WholeUpTo(q, b, r);
      LoopWord(nKv, q, r, b, before);
    }
  }

  /** Block x's word before the partial block is forced and anything is lowered. */
  function Raised(nKv: nat, q: nat, r: nat, x: nat): Word
    requires r > 0
  {
    if x >= nKv / r then NegInf else if x * r >= (q + 1) / r * r then Fin(BIG) else Fin(0.0)
  }

  /** Before lowering, the loop has 0 in the blocks that end at or before the query and 1e9 in the others. */
  lemma LoopWord(nKv: nat, q: nat, r: nat, b: nat, row: seq<Word>)
    requires r > 0 && q < nKv && b < Blocks(nKv, r) == |row|
    requires forall x | 0 <= x < |row| :: row[x] == if x == nKv / r then Fin(BIG) else Raised(nKv, q, r, x)
    ensures row[b] == if b < (q + 1) / r then Fin(0.0) else Fin(BIG)
  {
    BlockCount(nKv, r);
    BlockOrder(q + 1, nKv, r);
    Monotone(b, (q + 1) / r, r);
    Monotone((q + 1) / r, b, r);
  }

  function Step(x: real): real { if x > 0.0 then 1.0 else 0.0 }

  /** By the device's formula: two steps, half a cell off so that no difference is zero. */
  function Formula(q: nat, b: nat, r: nat): Word {
    var col := b as real * r as real + (r as real - 1.5);
    var first := b as real * r as real - 0.5;
    Fin(Step(col - q as real) * BIG - Step(first - q as real) * (BIG + BIG))
  }

  lemma FormulaIs(q: nat, b: nat, r: nat)
    ensures Formula(q, b, r) == Stored(At(q, b, r))
  {
    assert b as real * r as real == (b * r) as real;
    assert (b + 1) * r == b * r + r;
  }

  // ---------------------------------------------------------------- what it selects

  /** What the selection compares: a score with its stored bias added. */
  function Biased(score: int, b: Bias): Word {
    match Stored(b)
    case Fin(v) => Fin(score as real + v)
    case NegInf => NegInf
  }

  predicate Above(a: Word, b: Word) {
    a.Fin? && (b.Fin? ==> a.v > b.v)
  }

  /** For scores from 0 up to a bound of a billion, going by score plus stored bias, then by index, is going by rank (at
      most one block is forced). */
  lemma WordOrder(net: Net, query: int, x: int, y: int, a: Bias, b: Bias, i: nat, j: nat)
    requires 0 <= net.score(query, x) < 1000000000 && 0 <= net.score(query, y) < 1000000000
    requires a != Tail || b != Tail
    ensures var v, w := Biased(net.score(query, x), a), Biased(net.score(query, y), b);
            Beats(RankOf(net, query, x, a), i, RankOf(net, query, y, b), j) <==> Above(v, w) || (v == w && i < j)
  {
  }

  /** A block selected beside one left out has the greater sum of score and stored bias, or the same and the lower
      index. */
  lemma SelectsByWord(net: Net, query: int, pool: seq<int>, q: nat, r: nat, k: nat, b: nat, e: nat)
    requires r > 0 && b < |pool| && e < |pool|
    requires 0 <= net.score(query, pool[b]) < 1000000000 && 0 <= net.score(query, pool[e]) < 1000000000
    requires b in TopK(Ranks(net, query, pool, Prompt(q, |pool|, r), |pool|), k)
    requires e !in TopK(Ranks(net, query, pool, Prompt(q, |pool|, r), |pool|), k)
    ensures var v, w := Biased(net.score(query, pool[b]), At(q, b, r)), Biased(net.score(query, pool[e]), At(q, e, r));
            Above(v, w) || (v == w && b < e)
  {
    var ranks := Ranks(net, query, pool, Prompt(q, |pool|, r), |pool|);
    if At(q, b, r) == At(q, e, r) == Tail {
      OneForced(q, |pool|, r, b);
      OneForced(q, |pool|, r, e);
    }
    if Beats(ranks[e], e, ranks[b], b) { BeatsTrans(ranks, e, b); }
    WordOrder(net, query, pool[b], pool[e], At(q, b, r), At(q, e, r), b, e);
  }

  /** Only the block a query is in is forced. */
  lemma OneForced(q: nat, blocks: nat, r: nat, b: nat)
    requires r > 0 && b < blocks && Prompt(q, blocks, r)[b] == Tail
    ensures b == q / r && (q + 1) / r == q / r
  {
    BlockIs(q, b, r);
    WholeUpTo(q, b, r);
    BlockOf(q, r);
    BlockIs(q + 1, b, r);
    assert (b + 1) * r == b * r + r;
  }

  /** A block wholly after the query takes a place in the selection only when every block at or before it has one. */
  lemma AfterLast(net: Net, query: int, pool: seq<int>, q: nat, r: nat, k: nat, b: nat, e: nat)
    requires r > 0 && b < |pool| && e < |pool| && b * r > q && e * r <= q
    requires b in TopK(Ranks(net, query, pool, Prompt(q, |pool|, r), |pool|), k)
    ensures e in TopK(Ranks(net, query, pool, Prompt(q, |pool|, r), |pool|), k)
  {
    var ranks := Ranks(net, query, pool, Prompt(q, |pool|, r), |pool|);
    assert (b + 1) * r == b * r + r;
    assert ranks[b].Later? && !ranks[e].Later? && !ranks[e].Never?;
    BeatsTrans(ranks, e, b);
  }

  /** How many blocks a prompt's query selects. */
  function Width(nKv: nat, topK: nat, r: nat): nat
    requires r > 0
  {
    var cells := if nKv < topK + r - 1 then nKv else topK + r - 1;
    var kb := (cells + r - 1) / r;
    if kb < Blocks(nKv, r) then kb else Blocks(nKv, r)
  }

  /** The cells a block maps to: its own, the context's last one repeated past the end. */
  function CellOf(nKv: nat, r: nat, b: nat, k: nat): nat
    requires nKv > 0
  {
    if b * r + k < nKv then b * r + k else nKv - 1
  }

  lemma {:induction false} RankBound(ranks: seq<Rank>, b: nat)
    requires b < |ranks|
    ensures |Better(ranks, b)| < |ranks|
  {
    Fewer(Better(ranks, b), |ranks|, b);
  }

  /** Sparse is dense while the context fits the selection: every block, hence every cell, is selected. */
  lemma Dense(net: Net, query: int, pool: seq<int>, nKv: nat, q: nat, topK: nat, r: nat, x: nat)
    requires r > 0 && |pool| == Blocks(nKv, r) && x < nKv <= topK + r - 1
    ensures x / r < |pool| && x / r in TopK(Ranks(net, query, pool, Prompt(q, |pool|, r), |pool|), Width(nKv, topK, r))
    ensures CellOf(nKv, r, x / r, x % r) == x
  {
    DenseBlock(nKv, r, x);
    DenseWidth(nKv, topK, r);
    RankBound(Ranks(net, query, pool, Prompt(q, |pool|, r), |pool|), x / r);
  }

  lemma DenseBlock(nKv: nat, r: nat, x: nat)
    requires r > 0 && x < nKv
    ensures x / r < Blocks(nKv, r) && CellOf(nKv, r, x / r, x % r) == x
  {
    BlockCount(nKv, r);
    BlockOf(x, r);
    Monotone(Blocks(nKv, r), x / r, r);
  }

  lemma DenseWidth(nKv: nat, topK: nat, r: nat)
    requires r > 0 && nKv <= topK + r - 1
    ensures Width(nKv, topK, r) == Blocks(nKv, r)
  {
    BlockCount(nKv, r);
    BlockCount(topK + r - 1, r);
    Monotone(Blocks(topK + r - 1, r) + 1, Blocks(nKv, r), r);
  }

  /** Every block is selected exactly while the context fits the whole blocks the selection is rounded up to. */
  lemma DenseIff(nKv: nat, topK: nat, r: nat)
    requires r > 0 && topK > 0
    ensures Width(nKv, topK, r) == Blocks(nKv, r) <==> nKv <= (topK + r - 1 + r - 1) / r * r
  {
    var most, blocks := Blocks(topK + r - 1, r), Blocks(nKv, r);
    BlockCount(nKv, r);
    BlockCount(topK + r - 1, r);
    Monotone(blocks, most, r);
    Monotone(most, blocks, r);
  }
}
