/** The state a decode carries from step to step, held in the engine's buffers: K/V and indexer caches, the block bias
    and pooled keys kept up to date step by step, recurrent and convolution state, the snapshots a rejected draft is
    undone from, and checkpoints. Each call does to it what DecodeRuns says, from any state any calls lead to, those of
    a stale rollback included; what is derived is right in all of them. One attention layer, one recurrent layer and one
    per-layer-embedding convolution stand for all of their kind. */
module DecodeState {
  import opened Arithmetic
  import opened DecodeBias
  import opened DecodeRuns
  import opened SparseDecode

  // ---------------------------------------------------------------- a step's projections

  /** What a projection gives at the k-th position of a step. */
  function Input(f: (Past, seq<nat>) -> int, m: Model, p: Past, toks: seq<nat>, ts: seq<nat>, k: nat): int
    requires k < |ts|
  {
    f(Carry(m, p, toks, ts[..k]), toks + ts[..k + 1])
  }

  function Inputs(f: (Past, seq<nat>) -> int, m: Model, p: Past, toks: seq<nat>, ts: seq<nat>): (xs: seq<int>)
    ensures |xs| == |ts|
  {
    seq(|ts|, k requires 0 <= k < |ts| => Input(f, m, p, toks, ts, k))
  }

  function Positions(m: Model, p: Past, toks: seq<nat>, ts: seq<nat>): seq<Pos> {
    var keys, kvs, qs := Inputs(m.key, m, p, toks, ts), Inputs(m.kv, m, p, toks, ts), Inputs(m.query, m, p, toks, ts);
    seq(|ts|, k requires 0 <= k < |ts| => Pos(keys[k], kvs[k], qs[k]))
  }

  /** A history after the inputs xs. */
  function HistAfter(c: seq<int>, xs: seq<int>): (d: seq<int>)
    ensures |d| == |c|
  {
    if xs == [] then c else Rolled(HistAfter(c, xs[..|xs| - 1]), xs[|xs| - 1])
  }

  /** The recurrent states before a step and after each of its positions. */
  function States(m: Model, p: Past, toks: seq<nat>, ts: seq<nat>): seq<int> {
    [p.mem.rec] + Inputs(m.step, m, p, toks, ts)
  }

  lemma InputOf(f: (Past, seq<nat>) -> int, m: Model, p: Past, toks: seq<nat>, ts: seq<nat>, us: seq<nat>, k: nat)
    requires ts <= us && k < |ts|
    ensures Input(f, m, p, toks, ts, k) == Input(f, m, p, toks, us, k)
  {
    assert ts[..k] == us[..k] && ts[..k + 1] == us[..k + 1];
  }

  lemma InputsUpTo(f: (Past, seq<nat>) -> int, m: Model, p: Past, toks: seq<nat>, ts: seq<nat>, n: nat)
    requires n <= |ts|
    ensures Inputs(f, m, p, toks, ts)[..n] == Inputs(f, m, p, toks, ts[..n])
  {
    forall k: nat | k < n ensures Input(f, m, p, toks, ts[..n], k) == Input(f, m, p, toks, ts, k) {
      InputOf(f, m, p, toks, ts[..n], ts, k);
    }
  }

  lemma InputsSnoc(f: (Past, seq<nat>) -> int, m: Model, p: Past, toks: seq<nat>, ts: seq<nat>, t: nat)
    ensures Inputs(f, m, p, toks, ts + [t])
         == Inputs(f, m, p, toks, ts) + [f(Carry(m, p, toks, ts), toks + (ts + [t]))]
  {
    var all := ts + [t];
    InputsUpTo(f, m, p, toks, all, |ts|);
    assert all[..|ts|] == ts && all[..|ts| + 1] == all;
  }

  /** The past after a step, part by part, out of the projections. */
  lemma {:induction false} CarryIs(m: Model, p: Past, toks: seq<nat>, ts: seq<nat>)
    ensures var q := Carry(m, p, toks, ts);
      && q.raw == p.raw + Inputs(m.key, m, p, toks, ts) && q.kv == p.kv + Inputs(m.kv, m, p, toks, ts)
      && q.mem.rec == States(m, p, toks, ts)[|ts|]
      && q.mem.conv == HistAfter(p.mem.conv, Inputs(m.chan, m, p, toks, ts))
      && q.mem.ple == HistAfter(p.mem.ple, Inputs(m.emb, m, p, toks, ts))
  {
    if ts != [] {
      var init, t := ts[..|ts| - 1], ts[|ts| - 1];
      assert ts == init + [t];
      CarryIs(m, p, toks, init);
      InputsSnoc(m.key, m, p, toks, init, t);
      InputsSnoc(m.kv, m, p, toks, init, t);
      InputsSnoc(m.step, m, p, toks, init, t);
      InputsSnoc(m.chan, m, p, toks, init, t);
      InputsSnoc(m.emb, m, p, toks, init, t);
      HistSnoc(p.mem.conv, Inputs(m.chan, m, p, toks, init), m.chan(Carry(m, p, toks, init), toks + ts));
      HistSnoc(p.mem.ple, Inputs(m.emb, m, p, toks, init), m.emb(Carry(m, p, toks, init), toks + ts));
    }
  }

  lemma HistSnoc(c: seq<int>, xs: seq<int>, x: int)
    ensures HistAfter(c, xs + [x]) == Rolled(HistAfter(c, xs), x)
  {
    assert (xs + [x])[..|xs + [x]| - 1] == xs;
  }

  /** A sequence's last h elements with the last s left off. */
  function Trailing(c: seq<int>, h: nat, s: nat): seq<int>
    requires h + s <= |c|
  {
    c[|c| - h - s..|c| - s]
  }

  /** The history s tokens back is there in the padded input. */
  lemma {:induction false} HistTail(c: seq<int>, xs: seq<int>, s: nat)
    requires s <= |xs|
    ensures Trailing(c + xs, |c|, s) == HistAfter(c, Less(xs, s))
    decreases |xs| - s
  {
    if s < |xs| {
      HistTail(c, xs, s + 1);
      var x := xs[|xs| - s - 1];
      assert Less(xs, s) == Less(xs, s + 1) + [x];
      HistSnoc(c, Less(xs, s + 1), x);
      TrailingStep(c + xs, |c|, s);
    }
  }

  lemma TrailingStep(c: seq<int>, h: nat, s: nat)
    requires h + s + 1 <= |c|
    ensures Trailing(c, h, s) == Rolled(Trailing(c, h, s + 1), c[|c| - s - 1])
  {
  }

  /** The first n snapshots. */
  function Slots(recs: seq<int>, convs: seq<seq<int>>, ples: seq<seq<int>>, n: nat): seq<Memory>
    requires n <= |recs| == |convs| == |ples|
  {
    seq(n, s requires 0 <= s < n => Memory(recs[s], convs[s], ples[s]))
  }

  /** What the k-th position of a step should answer, and what all of them should. */
  function AnswerAt(m: Model, g: Config, k: nat, p: Past, toks: seq<nat>, ts: seq<nat>, j: nat): int
    requires g.r > 0 && |p.raw| == |p.kv| == |toks| && |toks| + |ts| <= g.nb * g.r && j < |ts|
  {
    Answer(m, g.r, g.nb, k, Carry(m, p, toks, ts[..j]), toks + ts[..j + 1])
  }

  function Answers(m: Model, g: Config, k: nat, p: Past, toks: seq<nat>, ts: seq<nat>): seq<int>
    requires g.r > 0 && |p.raw| == |p.kv| == |toks| && |toks| + |ts| <= g.nb * g.r
  {
    seq(|ts|, j requires 0 <= j < |ts| => AnswerAt(m, g, k, p, toks, ts, j))
  }

  /** From a settled past each position answers as the tokens up to it do. */
  lemma AsTokens(m: Model, g: Config, k: nat, t: Track, ts: seq<nat>)
    requires g.r > 0 && Settled(m, t) && ts != [] && |t.toks| + |ts| <= g.nb * g.r
    ensures Settled(m, Feed(m, g, t, ts))
    ensures forall j: nat | j < |ts| ::
        Answers(m, g, k, t.past, t.toks, ts)[j] == Reference(m, g.r, g.nb, k, t.toks + ts[..j + 1])
  {
    FeedSettles(m, g, t, ts);
    forall j: nat | j < |ts| ensures AnswerAt(m, g, k, t.past, t.toks, ts, j)
        == Reference(m, g.r, g.nb, k, t.toks + ts[..j + 1]) {
      AnswersOf(m, g.r, g.nb, k, t.toks, ts, j);
    }
  }

  /** A budget that may have been cut, but only to a bucket of the whole context, selects as the whole budget does. */
  lemma AnyBudget(m: Model, g: Config, k: nat, p: Past, toks: seq<nat>, ts: seq<nat>)
    requires g.r > 0 && |p.raw| == |p.kv| == |toks| && |toks| + |ts| <= g.nb * g.r
    requires k == g.k0 || k == Min(g.k0, g.nb)
    ensures Answers(m, g, k, p, toks, ts) == Answers(m, g, g.k0, p, toks, ts)
  {
    forall j: nat | j < |ts|
      ensures AnswerAt(m, g, k, p, toks, ts, j) == AnswerAt(m, g, g.k0, p, toks, ts, j)
    {
      var past, q := Carry(m, p, toks, ts[..j]), |toks| + j;
      CellInBlock(q, g.nb, g.r);
      AnyBucket(m.net, g.r, g.nb, Rebuilt(m.net, g.r, g.nb, Grown(m, past, toks + ts[..j + 1])), q,
          m.query(past, toks + ts[..j + 1]), g.nb, k, g.k0);
    }
  }

  // ---------------------------------------------------------------- checkpoints

  datatype Checkpoint = Checkpoint(nPast: int, words: seq<int>)

  function Size(m: Model, n: nat): nat { n + n + 1 + m.hist + m.pleHist }

  predicate Complete(m: Model, g: Config, cp: Checkpoint) {
    0 <= cp.nPast <= g.nb * g.r && |cp.words| == Size(m, cp.nPast)
  }

  /** The past a checkpoint holds: K/V rows, raw keys, recurrent state, histories. */
  function Opened(m: Model, g: Config, cp: Checkpoint): Past
    requires Complete(m, g, cp)
  {
    var n, w: nat := cp.nPast, 2 * cp.nPast + 1;
    Past(Memory(cp.words[2 * n], cp.words[w..w + m.hist], cp.words[w + m.hist..]), cp.words[n..2 * n], cp.words[..n])
  }

  lemma LaidOut(m: Model, g: Config, cp: Checkpoint, p: Past)
    requires |p.raw| == |p.kv| <= g.nb * g.r && |p.mem.conv| == m.hist && |p.mem.ple| == m.pleHist
    requires cp == Checkpoint(|p.kv|, p.kv + p.raw + [p.mem.rec] + p.mem.conv + p.mem.ple)
    ensures Complete(m, g, cp) && Opened(m, g, cp) == p
  {
  }

  // ---------------------------------------------------------------- what the rows make of a position

  lemma SameRow(net: Net, r: nat, nb: nat, a: seq<int>, b: seq<int>, x: nat)
    requires r > 0 && |a| == |b| == nb * r && x < nb && forall i | 0 <= i < x * r + r :: i < |a| ==> a[i] == b[i]
    ensures PoolAt(net, r, nb, a, x) == PoolAt(net, r, nb, b, x)
  {
    BlockEnd(x, nb, r);
    SameMembers(a, b, x, r);
  }

  /** A position over the caches a step wrote attends as over caches rebuilt from the rows up to its own. */
  lemma StepSees(net: Net, r: nat, nb: nat, k: nat, d: Caches, all: Past, p: Past, query: int)
    requires Shaped(r, nb, d) && |all.raw| == |all.kv| <= nb * r && d.raw[..|all.raw|] == all.raw
        && d.kv[..|all.kv|] == all.kv
    requires 0 < |p.raw| == |p.kv| && p.raw <= all.raw && p.kv <= all.kv
    requires PoolIs(net, r, nb, d.raw, d.pool, |all.raw|)
    ensures var q: nat := |p.raw| - 1;
      Attended(net, r, d, q, query, Closed(q, nb, r), nb, k)
      == Attended(net, r, Rebuilt(net, r, nb, p), q, query, Closed(q, nb, r), nb, k)
  {
    var c, q: nat := Rebuilt(net, r, nb, p), |p.raw| - 1;
    forall x: nat | x <= q ensures d.kv[x] == c.kv[x] && d.raw[x] == c.raw[x] {
      assert d.kv[x] == all.kv[x] && d.raw[x] == all.raw[x];
    }
    forall b: nat | b < nb && b < (q + 1) / r ensures d.pool[b] == c.pool[b] {
      WholeBlock(q, b, r);
      SameRow(net, r, nb, d.raw, c.raw, b);
    }
    SeesOnly(net, r, nb, d, c, q, query, k);
  }

  /** The histories among the first n snapshots have their lengths. */
  predicate Long(slots: seq<seq<int>>, n: nat, h: nat) {
    n <= |slots| && forall s | 0 <= s < n :: |slots[s]| == h
  }

  /** Every block whole within the first n cells has the row its keys pool to. */
  predicate PoolIs(net: Net, r: nat, nb: nat, raw: seq<int>, pool: seq<int>, n: int) {
    && |pool| == nb && |raw| == nb * r
    && forall b: nat | b < nb && b * r + r <= n :: pool[b] == PoolAt(net, r, nb, raw, b)
  }

  lemma ShortPool(net: Net, r: nat, nb: nat, raw: seq<int>, pool: seq<int>, n: int, k: int)
    requires k <= n && PoolIs(net, r, nb, raw, pool, n)
    ensures PoolIs(net, r, nb, raw, pool, k)
  {
  }

  class Decoder {
    const m: Model
    const g: Config

    var nPast: int
    var raw: seq<int>
    var pool: seq<int>
    var kv: seq<int>
    var bias: seq<Bias>
    var bucket: nat
    var budget: nat
    var dirty: bool
    var rec: int
    var conv: seq<int>
    var ple: seq<int>
    var rbRec: seq<int>
    var rbConv: seq<seq<int>>
    var rbPle: seq<seq<int>>
    var rbDepth: nat
    var rbValid: bool

    var toks: seq<nat>         // the tokens kept so far; the caller hands them in with each step
    ghost var at: nat          // the position the bias was last prepared for

    function Now(): Caches
      reads this`raw, this`pool, this`kv
    {
      Caches(raw, pool, kv)
    }

    function Mem(): Memory
      reads this`rec, this`conv, this`ple
    {
      Memory(rec, conv, ple)
    }

    ghost predicate Shape()
      reads this`raw, this`pool, this`kv, this`bias, this`toks, this`nPast, this`rbDepth,
            this`rbRec, this`rbConv, this`rbPle
    {
      && g.r >= 3 && g.nb > 0 && Shaped(g.r, g.nb, Now()) && |bias| == g.nb && |toks| <= g.nb * g.r
      && (if nPast < 0 then toks == [] && rbDepth == 0 else nPast == |toks|)
      && |rbRec| == |rbConv| == |rbPle| == g.nsnap && rbDepth <= g.nsnap
    }

    ghost predicate Sizes(mem: Memory) {
      |mem.conv| == m.hist && |mem.ple| == m.pleHist
    }

    /** The bias is that of a recent position, one before any a rollback may go back to. */
    ghost predicate Derived()
      reads this`dirty, this`at, this`rbDepth, this`nPast, this`bias, this`raw, this`pool
    {
      !dirty ==>
        && at + rbDepth < nPast <= at + MAX_T && g.r > 0
        && bias == Closed(at, g.nb, g.r) && PoolIs(m.net, g.r, g.nb, raw, pool, nPast)
    }

    ghost predicate BudgetOk()
      reads this`budget
    {
      g.k0 <= MIN_BUCKET || g.nb <= MIN_BUCKET ==> budget == g.k0 || budget == Min(g.k0, g.nb)
    }

    /** Holds after any calls. That the position is not below zero is not part of it. */
    ghost predicate Valid()
      reads this
    {
      && Shape() && Sizes(Mem()) && Long(rbConv, rbDepth, m.hist) && Long(rbPle, rbDepth, m.pleHist)
      && Derived() && BudgetOk()
    }

    function Carried(): Past
      reads this`rec, this`conv, this`ple, this`raw, this`kv, this`nPast
      requires 0 <= nPast <= |raw| == |kv|
    {
      Past(Mem(), raw[..nPast], kv[..nPast])
    }

    function Saves(): seq<Memory>
      reads this`rbRec, this`rbConv, this`rbPle, this`rbDepth
      requires rbDepth <= |rbRec| == |rbConv| == |rbPle|
    {
      Slots(rbRec, rbConv, rbPle, rbDepth)
    }

    /** All that later calls depend on. */
    ghost function View(): Track
      reads this
      requires Shape()
    {
      if nPast < 0 then Sunk(budget) else Track(toks, Carried(), budget, Saves())
    }

    constructor (model: Model, cfg: Config)
      requires cfg.r >= 3 && cfg.nb > 0
      ensures m == model && g == cfg && Valid() && View() == AfterAll(m, g, []).now
    {
      m, g := model, cfg;
      nPast, toks, at := 0, [], 0;
      raw, kv, pool := Zeros(cfg.nb * cfg.r), Zeros(cfg.nb * cfg.r), Zeros(cfg.nb);
      bias, bucket, budget, dirty := Unset(cfg.nb), 0, cfg.k0, true;
      rec, conv, ple := model.zero, Zeros(model.hist), Zeros(model.pleHist);
      rbRec, rbConv, rbPle := Zeros(cfg.nsnap), seq(cfg.nsnap, i => []), seq(cfg.nsnap, i => []);
      rbDepth, rbValid := 0, false;
    }

    /** The recurrent state and the histories back to zero. */
    method ResetState()
      modifies this`rec, this`conv, this`ple
      ensures Mem() == Fresh(m).mem
    {
      rec, conv, ple := m.zero, Zeros(m.hist), Zeros(m.pleHist);
    }

    /** No tokens, nothing derived. */
    method Forget()
      requires Shape()
      modifies this`rbValid, this`nPast, this`toks, this`dirty, this`bias
      ensures Shape() && nPast == 0 && toks == [] && dirty
    {
      rbValid := false;
      nPast, toks, dirty := 0, [], true;
      bias := Unset(g.nb);
    }

    /** Forgets the sequence. The depth a rollback may go is left as it was. */
    method Reset()
      requires Valid()
      modifies this`rbValid, this`rec, this`conv, this`ple, this`nPast, this`toks, this`dirty, this`bias
      ensures Valid() && View() == Start(old(View()), Kept([], Fresh(m))) && nPast == 0 && dirty
    {
      ResetState();
      Forget();
    }

    // ------------------------------------------------------------ before a step

    /** The three biases around position q's block, in place. */
    method Window(q: nat, into: seq<Bias>) returns (out: seq<Bias>)
      requires g.r > 0 && |into| == g.nb && q / g.r < g.nb
      ensures out == Patched(into, q, g.nb, g.r)
    {
      var last, whole := q / g.r, (q + 1) / g.r;
      ghost var want := Closed(q, g.nb, g.r);
      assert forall x | 0 <= x < g.nb :: want[x] == if x < whole then Whole else if x == last then Tail else Hidden;
      out := into;
      var b := if last > 0 then last - 1 else 0;
      while b <= last + 1 && b < g.nb
        invariant (if last > 0 then last - 1 else 0) <= b <= last + 2 && b <= g.nb && |out| == g.nb
        invariant forall x | 0 <= x < g.nb :: out[x] == if last - 1 <= x < b then want[x] else into[x]
      {
        out := out[b := if b < whole then Whole else if b == last then Tail else Hidden];
        b := b + 1;
      }
    }

    /** The whole bias of position q. */
    method Fill(q: nat) returns (out: seq<Bias>)
      requires g.r > 0 && q / g.r < g.nb
      ensures out == Closed(q, g.nb, g.r)
    {
      var last, whole := q / g.r, (q + 1) / g.r;
      out := Unset(g.nb);
      var b := 0;
      while b < whole && b < g.nb
        invariant b <= g.nb && (b <= whole || b == 0) && |out| == g.nb
        invariant forall x | 0 <= x < g.nb :: out[x] == if x < b then Whole else Hidden
      {
        out := out[b := Whole];
        b := b + 1;
      }
      if last < g.nb { out := out[last := if last < whole then Whole else Tail]; }
    }

    /** Every whole block pooled from the raw cache. */
    method RebuildPool()
      requires Shape() && nPast >= 0
      modifies this`pool
      ensures |pool| == g.nb && PoolIs(m.net, g.r, g.nb, raw, pool, nPast)
    {
      var b, n := 0, nPast / g.r;
      while b < n
        invariant b <= n && b <= g.nb && |pool| == g.nb
        invariant forall x: nat | x < b :: pool[x] == PoolAt(m.net, g.r, g.nb, raw, x)
      {
        WholeBlock(nPast, b, g.r);
        BlockOf(nPast, g.r);
        Monotone(b + 1, n, g.r);
        if b >= g.nb { Monotone(g.nb, b, g.r); }
        BlockEnd(b, g.nb, g.r);
        pool := pool[b := m.net.pool(b, Members(raw, b, g.r))];
        b := b + 1;
      }
      forall x: nat | x < g.nb && x * g.r + g.r <= nPast ensures pool[x] == PoolAt(m.net, g.r, g.nb, raw, x) {
        BlockOf(nPast, g.r);
        Monotone(n, x, g.r);
      }
    }

    /** Everything derived is there for a step at position nPast. */
    ghost predicate Ready()
      reads this`dirty, this`at, this`nPast, this`bias, this`raw, this`pool
    {
      && !dirty && at == nPast && g.r > 0 && bias == Closed(at, g.nb, g.r)
      && PoolIs(m.net, g.r, g.nb, raw, pool, nPast)
    }

    /** The bucket covers position q, and the budget is one it may have. */
    ghost predicate Covers(q: nat)
      reads this`bucket, this`budget
      requires g.r > 0
    {
      q / g.r < bucket <= g.nb && budget <= bucket && BudgetOk()
    }

    /** What a prompt or a reset left behind, made anew. */
    method Renew(q: nat)
      requires Shape() && q == nPast && q / g.r < g.nb
      modifies this`bias, this`pool, this`dirty
      ensures Shape() && !dirty && bias == Closed(q, g.nb, g.r) && PoolIs(m.net, g.r, g.nb, raw, pool, nPast)
    {
      bias := Fill(q);
      RebuildPool();
      dirty := false;
    }

    /** Everything derived, for a step at position q: the bias patched or rewritten, the pooled keys rebuilt if a prompt
        or a reset left them behind. */
    method Prepare()
      requires Valid() && 0 <= nPast < g.nb * g.r
      modifies this`bias, this`bucket, this`budget, this`pool, this`dirty, this`at
      ensures Shape() && Ready() && Covers(nPast)
      ensures budget == Min(old(budget), Bucket(nPast, g.nb, g.r))
    {
      hide Closed;
      hide Patched;
      hide PoolIs;
      var q: nat := nPast;
      CellInBlock(q, g.nb, g.r);
      if !dirty { PatchExact(at, q, g.nb, g.r); }
      bias := Window(q, bias);
      BucketCovers(q, g.nb, g.r);
      bucket := Bucket(q, g.nb, g.r);
      budget := Min(budget, bucket);
      if dirty { Renew(q); }
      at := q;
    }

    /** One later position of a step: the previous one's bias with its own window on top; one bucket for all. */
    method LaterBias(q: nat, before: seq<Bias>) returns (b: seq<Bias>)
      requires g.r >= 3 && 0 < q < g.nb * g.r && before == Closed(q - 1, g.nb, g.r) && Covers(q - 1)
      modifies this`bucket, this`budget
      ensures b == Closed(q, g.nb, g.r) && Covers(q) && budget == old(budget)
    {
      CellInBlock(q, g.nb, g.r);
      PatchExact(q - 1, q, g.nb, g.r);
      b := Window(q, before);
      BucketCovers(q, g.nb, g.r);
      bucket := Max(bucket, Bucket(q, g.nb, g.r));
      budget := Min(budget, bucket);
    }

    /** The biases of a step's positions. */
    method PrepareAll(T: nat) returns (biases: seq<seq<Bias>>)
      requires g.r >= 3 && 0 < T && 0 <= nPast && nPast + T <= g.nb * g.r
      requires bias == Closed(nPast, g.nb, g.r) && Covers(nPast)
      modifies this`bucket, this`budget
      ensures |biases| == T && forall k: nat | k < T :: biases[k] == Closed(nPast + k, g.nb, g.r)
      ensures Covers(nPast + T - 1) && budget == old(budget)
    {
      biases := [bias];
      for k := 1 to T
        invariant |biases| == k && Covers(nPast + k - 1) && budget == old(budget)
        invariant forall j: nat | j < k :: biases[j] == Closed(nPast + j, g.nb, g.r)
      {
        var b := LaterBias(nPast + k, biases[k - 1]);
        biases := biases + [b];
      }
    }

    method Ahead(T: nat) returns (biases: seq<seq<Bias>>)
      requires Valid() && 0 < T && 0 <= nPast && nPast + T <= g.nb * g.r
      modifies this`bias, this`bucket, this`budget, this`pool, this`dirty, this`at
      ensures Shape() && Ready() && budget == Min(old(budget), Bucket(nPast, g.nb, g.r))
      ensures |biases| == T && forall k: nat | k < T :: biases[k] == Closed(nPast + k, g.nb, g.r)
      ensures Covers(nPast + T - 1)
    {
      hide Closed;
      hide PoolIs;
      Prepare();
      biases := PrepareAll(T);
    }

    // ------------------------------------------------------------ a step

    /** The step's keys, pooled blocks and K/V rows. */
    method WriteCaches(ps: seq<Pos>)
      requires Shape() && ps != [] && 0 <= nPast && nPast + |ps| <= g.nb * g.r
      modifies this`raw, this`pool, this`kv
      ensures Shape() && Now() == Batched(m.net, g.r, g.nb, old(Now()), nPast, ps)
    {
      var c := Now();
      var d := if |ps| == 1 then Write(m.net, g.r, g.nb, c, nPast, ps[0])
        else Batched(m.net, g.r, g.nb, c, nPast, ps);
      BatchedIsChained(m.net, g.r, g.nb, c, nPast, ps);
      assert |ps| == 1 ==> Chained(m.net, g.r, g.nb, c, nPast, ps, 0) == c;
      raw, pool, kv := d.raw, d.pool, d.kv;
    }

    /** The caches' first rows are the past's. */
    ghost predicate Rows(p: Past)
      reads this`raw, this`kv
    {
      |p.raw| == |p.kv| <= |raw| == |kv| && raw[..|p.raw|] == p.raw && kv[..|p.kv|] == p.kv
    }

    /** A step's rows, written: the caches hold them, and every block whole by then is pooled. */
    method WriteStep(ts: seq<nat>, p: Past)
      requires Shape() && ts != [] && 0 <= nPast && nPast + |ts| <= g.nb * g.r
      requires Rows(p) && |p.raw| == nPast && PoolIs(m.net, g.r, g.nb, raw, pool, nPast)
      modifies this`raw, this`pool, this`kv
      ensures Shape() && Rows(Carry(m, p, toks, ts)) && PoolIs(m.net, g.r, g.nb, raw, pool, nPast + |ts|)
    {
      ghost var c := Now();
      var ps := Positions(m, p, toks, ts);
      WriteCaches(ps);
      StepRows(c, p, ts);
      forall b: nat | b < g.nb && b * g.r + g.r <= nPast + |ts|
        ensures pool[b] == PoolAt(m.net, g.r, g.nb, raw, b)
      {
        BlockEnd(b, g.nb, g.r);
        WholeAfter(m.net, g.r, g.nb, c, nPast, ps, b);
      }
    }

    lemma StepRows(c: Caches, p: Past, ts: seq<nat>)
      requires Shaped(g.r, g.nb, c) && |p.raw| == |p.kv| && |p.raw| + |ts| <= g.nb * g.r
      requires c.raw[..|p.raw|] == p.raw && c.kv[..|p.kv|] == p.kv
      ensures var d, q := Batched(m.net, g.r, g.nb, c, |p.raw|, Positions(m, p, toks, ts)), Carry(m, p, toks, ts);
        d.raw[..|q.raw|] == q.raw && d.kv[..|q.kv|] == q.kv
    {
      CarryIs(m, p, toks, ts);
      var ps := Positions(m, p, toks, ts);
      assert Keys(ps) == Inputs(m.key, m, p, toks, ts) && SparseDecode.Rows(ps) == Inputs(m.kv, m, p, toks, ts);
    }

    /** The positions' attention. */
    method Attend(ts: seq<nat>, biases: seq<seq<Bias>>, p: Past) returns (out: seq<int>)
      requires Shape() && ts != [] && |p.raw| == nPast == |toks| && nPast + |ts| <= g.nb * g.r && |p.kv| == nPast
      requires |biases| == |ts| && forall k: nat | k < |ts| :: biases[k] == Closed(nPast + k, g.nb, g.r)
      requires Covers(nPast + |ts| - 1) && Rows(Carry(m, p, toks, ts))
      requires PoolIs(m.net, g.r, g.nb, raw, pool, nPast + |ts|)
      ensures out == Answers(m, g, budget, p, toks, ts)
    {
      hide PoolIs;
      hide AnswerAt;
      hide Attended;
      hide Carry;
      out := [];
      for k := 0 to |ts|
        invariant |out| == k
        invariant forall j: nat | j < k :: out[j] == AnswerAt(m, g, budget, p, toks, ts, j)
      {
        var query := Input(m.query, m, p, toks, ts, k);
        out := out + [Attended(m.net, g.r, Now(), nPast + k, query, biases[k], bucket, budget)];
        AttendedAt(ts, p, k);
      }
    }

    lemma AttendedAt(ts: seq<nat>, p: Past, k: nat)
      requires Shape() && k < |ts| && |p.raw| == nPast == |toks| && nPast + |ts| <= g.nb * g.r && |p.kv| == nPast
      requires Covers(nPast + |ts| - 1) && Rows(Carry(m, p, toks, ts))
      requires PoolIs(m.net, g.r, g.nb, raw, pool, nPast + |ts|)
      ensures bucket <= g.nb
      ensures Attended(m.net, g.r, Now(), nPast + k, Input(m.query, m, p, toks, ts, k), Closed(nPast + k, g.nb, g.r),
          bucket, budget) == AnswerAt(m, g, budget, p, toks, ts, k)
    {
      var q, query := nPast + k, Input(m.query, m, p, toks, ts, k);
      BlockOrder(q, nPast + |ts| - 1, g.r);
      AnyBucket(m.net, g.r, g.nb, Now(), q, query, bucket, budget, budget);
      StepAnswers(m, g, budget, Now(), p, toks, ts, k);
    }

    /** Over all blocks, a position of a written step attends as one over caches made anew. */
    static lemma StepAnswers(m: Model, g: Config, k: nat, d: Caches, p: Past, toks: seq<nat>, ts: seq<nat>, j: nat)
      requires g.r > 0 && |p.raw| == |p.kv| == |toks| && |toks| + |ts| <= g.nb * g.r && j < |ts|
      requires Shaped(g.r, g.nb, d) && PoolIs(m.net, g.r, g.nb, d.raw, d.pool, |toks| + |ts|)
      requires var all := Carry(m, p, toks, ts); d.raw[..|all.raw|] == all.raw && d.kv[..|all.kv|] == all.kv
      ensures Attended(m.net, g.r, d, |toks| + j, Input(m.query, m, p, toks, ts, j), Closed(|toks| + j, g.nb, g.r),
          g.nb, k) == AnswerAt(m, g, k, p, toks, ts, j)
    {
      hide Attended;
      hide Rebuilt;
      hide Closed;
      hide PoolIs;
      hide Carry;
      CarryRows(m, p, toks, ts, j + 1);
      CarryAt(m, p, toks, ts, j);
      StepSees(m.net, g.r, g.nb, k, d, Carry(m, p, toks, ts), Carry(m, p, toks, ts[..j + 1]),
          Input(m.query, m, p, toks, ts, j));
    }

    /** A history through a step: the inputs join its end, the last ones stay; and what it was 1, 2, ... n tokens back.
        */
    static method Roll(c: seq<int>, xs: seq<int>, slots: seq<seq<int>>, n: nat)
      returns (d: seq<int>, out: seq<seq<int>>)
      requires n <= |xs| && n <= |slots|
      ensures d == HistAfter(c, xs)
      ensures |out| == |slots| && forall s: nat | s < n :: out[s] == HistAfter(c, Less(xs, s + 1))
    {
      var padded := c + xs;
      HistTail(c, xs, 0);
      assert Less(xs, 0) == xs;
      d, out := Trailing(padded, |c|, 0), slots;
      for s := 0 to n
        invariant |out| == |slots| && forall x: nat | x < s :: out[x] == HistAfter(c, Less(xs, x + 1))
      {
        HistTail(c, xs, s + 1);
        out := out[s := Trailing(padded, |c|, s + 1)];
      }
    }

    /** The recurrent states 1, 2, ... n tokens before the last. */
    static method Backward(states: seq<int>, slots: seq<int>, n: nat) returns (out: seq<int>)
      requires n < |states| && n <= |slots|
      ensures |out| == |slots| && forall s: nat | s < n :: out[s] == states[|states| - s - 2]
    {
      out := slots;
      for s := 0 to n
        invariant |out| == |slots| && forall x: nat | x < s :: out[x] == states[|states| - x - 2]
      {
        out := out[s := states[|states| - s - 2]];
      }
    }

    /** The recurrent state and the two histories through the step, and what each was s tokens back. */
    method Advance(ts: seq<nat>, p: Past)
      requires p.mem == Mem() && ts != [] && |rbRec| == |rbConv| == |rbPle| == g.nsnap
      modifies this`rec, this`conv, this`ple, this`rbRec, this`rbConv, this`rbPle
      ensures Mem() == Carry(m, p, toks, ts).mem && |rbRec| == |rbConv| == |rbPle| == g.nsnap
      ensures Slots(rbRec, rbConv, rbPle, Depth(g, |ts|)) == Snapshots(m, g, p, toks, ts)
    {
      var n := Depth(g, |ts|);
      var states := States(m, p, toks, ts);
      CarryIs(m, p, toks, ts);
      rbRec := Backward(states, rbRec, n);
      rec := states[|ts|];
      conv, rbConv := Roll(conv, Inputs(m.chan, m, p, toks, ts), rbConv, n);
      ple, rbPle := Roll(ple, Inputs(m.emb, m, p, toks, ts), rbPle, n);
      Taken(m, g, p, toks, ts, rbRec, rbConv, rbPle);
    }

    static lemma Taken(m: Model, g: Config, p: Past, toks: seq<nat>, ts: seq<nat>, recs: seq<int>, convs: seq<seq<int>>,
            ples: seq<seq<int>>)
      requires ts != [] && Depth(g, |ts|) <= |recs| == |convs| == |ples|
      requires forall s: nat | s < Depth(g, |ts|) :: recs[s] == States(m, p, toks, ts)[|ts| - s - 1]
      requires forall s: nat | s < Depth(g, |ts|) ::
          convs[s] == HistAfter(p.mem.conv, Less(Inputs(m.chan, m, p, toks, ts), s + 1))
      requires forall s: nat | s < Depth(g, |ts|) ::
          ples[s] == HistAfter(p.mem.ple, Less(Inputs(m.emb, m, p, toks, ts), s + 1))
      ensures Slots(recs, convs, ples, Depth(g, |ts|)) == Snapshots(m, g, p, toks, ts)
    {
      forall s: nat | s < Depth(g, |ts|)
        ensures Memory(recs[s], convs[s], ples[s]) == Carry(m, p, toks, Less(ts, s + 1)).mem
      {
        Earlier(m, p, toks, ts, |ts| - s - 1);
      }
    }

    /** The snapshots' histories have the lengths of the memory's. */
    static lemma TakenLong(m: Model, g: Config, p: Past, toks: seq<nat>, ts: seq<nat>, recs: seq<int>,
            convs: seq<seq<int>>, ples: seq<seq<int>>)
      requires ts != [] && Depth(g, |ts|) <= |recs| == |convs| == |ples|
      requires Slots(recs, convs, ples, Depth(g, |ts|)) == Snapshots(m, g, p, toks, ts)
      ensures Long(convs, Depth(g, |ts|), |p.mem.conv|) && Long(ples, Depth(g, |ts|), |p.mem.ple|)
    {
      forall s: nat | s < Depth(g, |ts|) ensures |convs[s]| == |p.mem.conv| && |ples[s]| == |p.mem.ple| {
        assert Slots(recs, convs, ples, Depth(g, |ts|))[s] == Snapshots(m, g, p, toks, ts)[s];
      }
    }

    /** The memory after the first k tokens of a step, out of the projections of all of them. */
    static lemma Earlier(m: Model, p: Past, toks: seq<nat>, ts: seq<nat>, k: nat)
      requires k <= |ts|
      ensures Carry(m, p, toks, ts[..k]).mem == Memory(States(m, p, toks, ts)[k],
          HistAfter(p.mem.conv, Inputs(m.chan, m, p, toks, ts)[..k]),
          HistAfter(p.mem.ple, Inputs(m.emb, m, p, toks, ts)[..k]))
    {
      CarryIs(m, p, toks, ts[..k]);
      InputsUpTo(m.step, m, p, toks, ts, k);
      InputsUpTo(m.chan, m, p, toks, ts, k);
      InputsUpTo(m.emb, m, p, toks, ts, k);
      if k > 0 { assert Inputs(m.step, m, p, toks, ts)[..k][k - 1] == Inputs(m.step, m, p, toks, ts)[k - 1]; }
    }

    /** A decode step: a token, or a token and its drafts. What each position's attention gives is a function of the
        past, the tokens and the selection budget alone: bias, pooled keys and bucket are what a rebuild would give,
        whatever prompts, steps, rollbacks -- stale ones too -- resets and restores came before. Where the past is that
        of the tokens, so is the answer. The engine does not check that the position is not below zero. */
    method Decode(ts: seq<nat>) returns (ok: bool, out: seq<int>)
      requires Valid() && nPast >= 0
      modifies this
      ensures ok <==> 1 <= |ts| <= MAX_T && old(nPast) + |ts| <= g.nb * g.r
      ensures Valid() && View() == if ok then Feed(m, g, old(View()), ts) else old(View())
      ensures ok ==> !dirty && out == Answers(m, g, budget, old(Carried()), old(toks), ts)
      ensures ok && old(Settled(m, View())) ==>
                && Settled(m, View())
                && forall j: nat | j < |ts| :: out[j] == Reference(m, g.r, g.nb, budget, old(toks) + ts[..j + 1])
    {
      if |ts| < 1 || |ts| > MAX_T || nPast + |ts| > g.nb * g.r { return false, []; }
      ok := true;
      ghost var t := View();
      out := Step(ts);
      if Settled(m, t) { AsTokens(m, g, budget, t, ts); }
    }

    /** What the step leaves: the memory, the snapshots, the tokens. */
    method Finish(ts: seq<nat>, p: Past)
      requires Shape() && p.mem == Mem() && Sizes(p.mem) && |p.raw| == nPast && BudgetOk()
      requires 1 <= |ts| <= MAX_T && nPast + |ts| <= g.nb * g.r
      requires !dirty && at == nPast && bias == Closed(at, g.nb, g.r) && Rows(Carry(m, p, toks, ts))
      requires PoolIs(m.net, g.r, g.nb, raw, pool, nPast + |ts|)
      modifies this`rec, this`conv, this`ple, this`rbRec, this`rbConv, this`rbPle, this`nPast, this`toks, this`rbDepth,
               this`rbValid
      ensures Valid()
      ensures View() == Track(old(toks) + ts, Carry(m, p, old(toks), ts), budget, Snapshots(m, g, p, old(toks), ts))
    {
      hide Closed;
      hide PoolIs;
      Advance(ts, p);
      Commit(ts, p);
    }

    method Step(ts: seq<nat>) returns (out: seq<int>)
      requires Valid() && nPast >= 0 && 1 <= |ts| <= MAX_T && nPast + |ts| <= g.nb * g.r
      modifies this
      ensures Valid() && View() == Feed(m, g, old(View()), ts)
      ensures !dirty && out == Answers(m, g, budget, old(Carried()), old(toks), ts)
    {
      hide Closed;
      hide PoolIs;
      var p := Carried();
      var biases := Ahead(|ts|);
      out := Evaluate(ts, biases, p);
      Finish(ts, p);
    }

    /** The step's caches written and its positions attended. */
    method Evaluate(ts: seq<nat>, biases: seq<seq<Bias>>, p: Past) returns (out: seq<int>)
      requires Shape() && ts != [] && 0 <= nPast && nPast + |ts| <= g.nb * g.r
      requires Rows(p) && |p.raw| == nPast && PoolIs(m.net, g.r, g.nb, raw, pool, nPast)
      requires |biases| == |ts| && forall k: nat | k < |ts| :: biases[k] == Closed(nPast + k, g.nb, g.r)
      requires Covers(nPast + |ts| - 1)
      modifies this`raw, this`pool, this`kv
      ensures Shape() && Rows(Carry(m, p, toks, ts)) && PoolIs(m.net, g.r, g.nb, raw, pool, nPast + |ts|)
      ensures out == Answers(m, g, budget, p, toks, ts)
    {
      WriteStep(ts, p);
      out := Attend(ts, biases, p);
    }

    /** The step's tokens are kept, and may be taken back as far as the snapshots go. */
    method Commit(ts: seq<nat>, p: Past)
      requires Shape() && |p.raw| == nPast && 1 <= |ts| <= MAX_T && nPast + |ts| <= g.nb * g.r && BudgetOk()
      requires !dirty && at == nPast && bias == Closed(at, g.nb, g.r) && Sizes(p.mem)
      requires Rows(Carry(m, p, toks, ts)) && Mem() == Carry(m, p, toks, ts).mem
      requires PoolIs(m.net, g.r, g.nb, raw, pool, nPast + |ts|)
      requires Slots(rbRec, rbConv, rbPle, Depth(g, |ts|)) == Snapshots(m, g, p, toks, ts)
      modifies this`nPast, this`toks, this`rbDepth, this`rbValid
      ensures Valid()
      ensures View() == Track(old(toks) + ts, Carry(m, p, old(toks), ts), budget, Snapshots(m, g, p, old(toks), ts))
    {
      hide Closed;
      hide PoolIs;
      TakenLong(m, g, p, toks, ts, rbRec, rbConv, rbPle);
      nPast, toks := nPast + |ts|, toks + ts;
      rbDepth := if |ts| >= 2 then Min(|ts| - 1, g.nsnap) else 0;
      rbValid := rbDepth > 0;
    }

    /** A prompt. The pooled keys and the bias are left behind; `streamed` prompts also leave the rollback depth as it
        was, although the snapshots no longer describe anything. */
    method Prefill(ts: seq<nat>, streamed: bool) returns (ok: bool)
      requires Valid() && nPast >= 0
      modifies this
      ensures ok <==> 1 <= |ts| <= g.batch && old(nPast) + |ts| <= g.nb * g.r
      ensures Valid() && View() == if ok then Read(m, old(View()), ts, streamed) else old(View())
      ensures ok ==> dirty
    {
      if |ts| < 1 || |ts| > g.batch || nPast + |ts| > g.nb * g.r { return false; }
      ok := true;
      var p := Carried();
      PrefillRows(ts, p);
      PrefillState(ts, p);
      Extend(ts, p, streamed);
    }

    method PrefillRows(ts: seq<nat>, p: Past)
      requires Shape() && 0 <= nPast && nPast + |ts| <= g.nb * g.r && Rows(p) && |p.raw| == nPast
      modifies this`raw, this`kv
      ensures Shape() && Rows(Carry(m, p, toks, ts))
    {
      var keys, rows := Inputs(m.key, m, p, toks, ts), Inputs(m.kv, m, p, toks, ts);
      raw := raw[..nPast] + keys + raw[nPast + |ts|..];
      kv := kv[..nPast] + rows + kv[nPast + |ts|..];
      CarryIs(m, p, toks, ts);
    }

    method PrefillState(ts: seq<nat>, p: Past)
      requires p.mem == Mem()
      modifies this`rec, this`conv, this`ple
      ensures Mem() == Carry(m, p, toks, ts).mem
    {
      var none;
      CarryIs(m, p, toks, ts);
      rec := States(m, p, toks, ts)[|ts|];
      conv, none := Roll(conv, Inputs(m.chan, m, p, toks, ts), [], 0);
      ple, none := Roll(ple, Inputs(m.emb, m, p, toks, ts), [], 0);
    }

    method Extend(ts: seq<nat>, p: Past, streamed: bool)
      requires Shape() && |p.raw| == nPast && nPast + |ts| <= g.nb * g.r && BudgetOk() && Sizes(p.mem)
      requires Rows(Carry(m, p, toks, ts)) && Mem() == Carry(m, p, toks, ts).mem
      requires Long(rbConv, rbDepth, m.hist) && Long(rbPle, rbDepth, m.pleHist)
      modifies this`nPast, this`toks, this`dirty, this`rbDepth, this`rbValid
      ensures Valid() && dirty && nPast >= 0
      ensures View() == Track(old(toks) + ts, Carry(m, p, old(toks), ts), budget, if streamed then old(Saves()) else [])
    {
      if !streamed { rbDepth, rbValid := 0, false; }
      dirty := true;
      nPast, toks := nPast + |ts|, toks + ts;
    }

    // ------------------------------------------------------------ undoing a step

    /** Takes the last n tokens of a verify step back. The guard is the depth alone. What comes back is the memory n
        tokens before the end of the last decode step and the rows and tokens without the last n; bias, pooled keys and
        budget are right for them, whether or not the memory is (see RollbackIff). Taking back more tokens than there
        are leaves a position below zero. */
    method Rollback(n: int) returns (ok: bool)
      requires Valid()
      modifies this`rec, this`conv, this`ple, this`nPast, this`toks, this`rbDepth, this`rbValid
      ensures ok <==> 1 <= n <= old(rbDepth)
      ensures Valid() && View() == if ok then TakeBack(old(View()), n) else old(View())
      ensures nPast == if ok then old(nPast) - n else old(nPast)
    {
      if n < 1 || n > rbDepth { return false; }
      ok := true;
      CopyBack(n);
      Cut(n);
    }

    /** Slot n - 1 of every snapshot becomes the state. */
    method CopyBack(n: nat)
      requires 1 <= n <= rbDepth <= |rbRec| == |rbConv| == |rbPle|
      requires Long(rbConv, rbDepth, m.hist) && Long(rbPle, rbDepth, m.pleHist)
      modifies this`rec, this`conv, this`ple
      ensures Mem() == Saves()[n - 1] && Sizes(Mem())
    {
      rec, conv, ple := rbRec[n - 1], rbConv[n - 1], rbPle[n - 1];
    }

    method Cut(n: nat)
      requires Valid() && 1 <= n <= rbDepth
      modifies this`nPast, this`toks, this`rbDepth, this`rbValid
      ensures Valid() && nPast == old(nPast) - n && rbDepth == 0
      ensures n <= |old(toks)| ==> toks == Less(old(toks), n)
    {
      if !dirty { ShortPool(m.net, g.r, g.nb, raw, pool, nPast, nPast - n); }
      nPast := nPast - n;
      toks := if n <= |toks| then toks[..|toks| - n] else [];
      rbValid, rbDepth := false, 0;
    }

    // ------------------------------------------------------------ checkpoints

    /** The first nPast rows of the caches, the recurrent state and the histories; nothing derived. */
    method Save() returns (cp: Checkpoint)
      requires Valid() && nPast >= 0
      ensures cp.nPast == nPast && Complete(m, g, cp) && Opened(m, g, cp) == Carried()
    {
      var buf := kv[..nPast];
      buf := buf + raw[..nPast];
      buf := buf + [rec];
      buf := buf + conv;
      buf := buf + ple;
      cp := Checkpoint(nPast, buf);
      LaidOut(m, g, cp, Carried());
    }

    /** A checkpoint of a fitting size is put back over whatever there is, a position below zero included; everything
        derived is for the next step to rebuild. The rollback depth is not cleared. */
    method Restore(cp: Checkpoint, ts: seq<nat>) returns (ok: bool)
      requires Valid() && |ts| == cp.nPast
      modifies this
      ensures ok <==> Complete(m, g, cp)
      ensures Valid() && View() == if ok then Start(old(View()), Kept(ts, Opened(m, g, cp))) else old(View())
      ensures ok ==> dirty && nPast == cp.nPast
    {
      if cp.nPast < 0 || cp.nPast > g.nb * g.r || |cp.words| != Size(m, cp.nPast) { return false; }
      ok := true;
      Reset();
      Install(cp, cp.nPast, ts);
    }

    method Install(cp: Checkpoint, n: nat, ts: seq<nat>)
      requires Valid() && dirty && nPast == 0 && Complete(m, g, cp) && n == cp.nPast == |ts|
      modifies this`rec, this`conv, this`ple, this`nPast, this`toks, this`raw, this`kv
      ensures Valid() && View() == Start(old(View()), Kept(ts, Opened(m, g, cp))) && nPast == n
    {
      LoadRows(cp.words, n);
      LoadState(cp.words, n);
      nPast, toks := n, ts;
    }

    method LoadRows(words: seq<int>, n: nat)
      requires |raw| == |kv| == g.nb * g.r && n <= g.nb * g.r && n + n <= |words|
      modifies this`raw, this`kv
      ensures |raw| == |kv| == g.nb * g.r && kv[..n] == words[..n] && raw[..n] == words[n..2 * n]
    {
      var cursor := 0;
      kv := words[cursor..cursor + n] + kv[n..];
      cursor := cursor + n;
      raw := words[cursor..cursor + n] + raw[n..];
    }

    method LoadState(words: seq<int>, n: nat)
      requires |words| == Size(m, n)
      modifies this`rec, this`conv, this`ple
      ensures rec == words[2 * n] && conv == words[2 * n + 1..2 * n + 1 + m.hist]
      ensures ple == words[2 * n + 1 + m.hist..]
    {
      var cursor := n + n;
      rec := words[cursor];
      cursor := cursor + 1;
      conv := words[cursor..cursor + m.hist];
      cursor := cursor + m.hist;
      ple := words[cursor..cursor + m.pleHist];
    }
  }

  // ---------------------------------------------------------------- any calls at all

  /** A checkpoint with the tokens it is of, as a caller keeps it. */
  datatype Shelf = Shelf(cp: Checkpoint, toks: seq<nat>)

  ghost predicate Fitting(m: Model, g: Config, shelf: Shelf) {
    Complete(m, g, shelf.cp) && shelf.cp.nPast == |shelf.toks|
  }

  ghost function Shelved(m: Model, g: Config, shelves: seq<Shelf>): seq<Kept>
    requires forall i | 0 <= i < |shelves| :: Fitting(m, g, shelves[i])
  {
    seq(|shelves|, i requires 0 <= i < |shelves| && Fitting(m, g, shelves[i]) =>
      Kept(shelves[i].toks, Opened(m, g, shelves[i].cp)))
  }

  /** The decoder and the checkpoints taken. */
  ghost predicate Ready(d: Decoder, shelves: seq<Shelf>)
    reads d
  {
    d.Valid() && forall i | 0 <= i < |shelves| :: Fitting(d.m, d.g, shelves[i])
  }

  ghost function RunOf(d: Decoder, shelves: seq<Shelf>): Run
    requires Ready(d, shelves)
    reads d
  {
    Run(d.View(), Shelved(d.m, d.g, shelves))
  }

  /** Carries a call out. Where the position is below zero a caller must not step, prompt or save; everything else the
      engine is asked, a rollback however stale included. */
  method Do(d: Decoder, c: Call, shelves: seq<Shelf>) returns (now: seq<Shelf>)
    requires Ready(d, shelves)
    modifies d
    ensures Ready(d, now) && RunOf(d, now) == Next(d.m, d.g, old(RunOf(d, shelves)), c)
    ensures shelves <= now
  {
    now := shelves;
    if d.nPast < 0 && (c.Fed? || c.Prompt? || c.Saved?) { return; }
    match c
    case Fed(ts) => var ok, out := d.Decode(ts);
    case Prompt(ts, streamed) => var ok := d.Prefill(ts, streamed);
    case Back(n) => var ok := d.Rollback(n);
    case Cleared => d.Reset();
    case Saved =>
      var cp := d.Save();
      now := shelves + [Shelf(cp, d.toks)];
    case Put(i) => if i < |shelves| { var ok := d.Restore(shelves[i].cp, shelves[i].toks); }
  }

  method DoAll(d: Decoder, calls: seq<Call>, shelves: seq<Shelf>) returns (now: seq<Shelf>)
    requires Ready(d, shelves)
    modifies d
    ensures Ready(d, now) && RunOf(d, now) == Onward(d.m, d.g, old(RunOf(d, shelves)), calls)
    ensures shelves <= now
  {
    now := shelves;
    for i := 0 to |calls|
      invariant Ready(d, now) && RunOf(d, now) == Onward(d.m, d.g, old(RunOf(d, shelves)), calls[..i])
      invariant shelves <= now
    {
      assert calls[..i + 1][..i] == calls[..i];
      now := Do(d, calls[i], now);
    }
    assert calls[..|calls|] == calls;
  }

  /** What is derived is what a rebuild from the rows would give. */
  lemma DerivedIsRebuilt(d: Decoder, b: nat)
    requires d.Valid() && d.nPast >= 0 && !d.dirty && b < d.g.nb && b * d.g.r + d.g.r <= d.nPast
    ensures d.pool[b] == Rebuilt(d.m.net, d.g.r, d.g.nb, d.View().past).pool[b]
    ensures d.bias == Closed(d.at, d.g.nb, d.g.r) && d.at < d.nPast <= d.at + MAX_T
  {
    var c := Rebuilt(d.m.net, d.g.r, d.g.nb, d.View().past);
    forall x | 0 <= x < d.nPast ensures c.raw[x] == d.raw[x] {
      assert d.raw[..d.nPast][x] == d.raw[x];
    }
    SameRow(d.m.net, d.g.r, d.g.nb, d.raw, c.raw, b);
  }

  /** A decoder and any calls: everything derived is right, and the rest is what the calls make of it -- the tokens'
      where the notes say so. */
  method Session(m: Model, g: Config, calls: seq<Call>) returns (d: Decoder, shelves: seq<Shelf>)
    requires g.r >= 3 && g.nb > 0
    ensures fresh(d) && d.m == m && d.g == g && Ready(d, shelves)
    ensures RunOf(d, shelves) == AfterAll(m, g, calls)
    ensures Right(Noted(g, calls).now) ==> d.nPast >= 0 && Settled(m, d.View())
  {
    d := new Decoder(m, g);
    assert RunOf(d, []) == AfterAll(m, g, []);
    shelves := DoAll(d, calls, []);
    RightIff(g, calls, m.net);
  }

  /** Saving, any calls whatever -- steps, prompts, rollbacks however stale, resets, other checkpoints -- and restoring:
      the next step is the one that would have been, from a stale state as from any other. Only the budget may have been
      cut by then. */
  method LeaveAndReturn(d: Decoder, shelves: seq<Shelf>, calls: seq<Call>, ts: seq<nat>)
    returns (now: seq<Shelf>, ok: bool, out: seq<int>)
    requires Ready(d, shelves) && d.nPast >= 0 && 1 <= |ts| <= MAX_T && d.nPast + |ts| <= d.g.nb * d.g.r
    modifies d
    ensures Ready(d, now) && ok && d.nPast >= 0
    ensures d.View().past == Feed(d.m, d.g, old(d.View()), ts).past && d.toks == old(d.toks) + ts
    ensures out == Answers(d.m, d.g, d.budget, old(d.Carried()), old(d.toks), ts)
    ensures d.g.k0 <= MIN_BUCKET || d.g.nb <= MIN_BUCKET ==>
              out == Answers(d.m, d.g, d.g.k0, old(d.Carried()), old(d.toks), ts)
  {
    ghost var p, toks := d.Carried(), d.toks;
    var cp := d.Save();
    var mine := Shelf(cp, d.toks);
    now := DoAll(d, calls, shelves + [mine]);
    ok := d.Restore(cp, mine.toks);
    ok, out := d.Decode(ts);
    if d.g.k0 <= MIN_BUCKET || d.g.nb <= MIN_BUCKET { AnyBudget(d.m, d.g, d.budget, p, toks, ts); }
  }

  /** The input: the depth outlives a reset, and a rollback is let in although nothing is left to take back. Only a
      reset or a restore may follow. */
  method StaleRollback(d: Decoder, a: nat, b: nat) returns (ok: bool)
    requires d.Valid() && d.nPast >= 0 && d.g.nsnap >= 1 && |d.toks| + 2 <= d.g.nb * d.g.r
    modifies d
    ensures ok && d.nPast == -1 && d.Valid()
  {
    var fits, out := d.Decode([a, b]);
    d.Reset();
    ok := d.Rollback(1);
  }
}
