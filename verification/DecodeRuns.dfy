/** What a decode carries from step to step, as a value, what each call makes of it, and whether after any calls it is
    what the tokens kept would have made of it. A rollback is let in by its depth alone, so it need not be. */
module DecodeRuns {
  import opened DecodeBias
  import opened SparseDecode

  /** The recurrent state and the histories of the two short convolutions. */
  datatype Memory = Memory(rec: int, conv: seq<int>, ple: seq<int>)

  /** Everything the next position takes over: the memory, and one raw indexer key and one K/V row per token. */
  datatype Past = Past(mem: Memory, raw: seq<int>, kv: seq<int>)

  /** What the network computes at a position: functions of the past before it and of the tokens up to it. */
  datatype Model = Model(
    net: Net,
    hist: nat, pleHist: nat, zero: int,
    key: (Past, seq<nat>) -> int, kv: (Past, seq<nat>) -> int, query: (Past, seq<nat>) -> int,
    step: (Past, seq<nat>) -> int,                                      // the recurrent state
    chan: (Past, seq<nat>) -> int, emb: (Past, seq<nat>) -> int)        // the inputs of the two convolutions

  function Zeros(n: nat): (z: seq<int>)
    ensures |z| == n && forall i | 0 <= i < n :: z[i] == 0
  {
    seq(n, i => 0)
  }

  function Rolled(c: seq<int>, x: int): seq<int> { (c + [x])[1..] }

  function Fresh(m: Model): Past {
    Past(Memory(m.zero, Zeros(m.hist), Zeros(m.pleHist)), [], [])
  }

  /** The past after one more position, the last of toks. */
  function Grown(m: Model, p: Past, toks: seq<nat>): Past {
    Past(Memory(m.step(p, toks), Rolled(p.mem.conv, m.chan(p, toks)), Rolled(p.mem.ple, m.emb(p, toks))),
        p.raw + [m.key(p, toks)], p.kv + [m.kv(p, toks)])
  }

  /** The past after the tokens ts, which follow toks. */
  function Carry(m: Model, p: Past, toks: seq<nat>, ts: seq<nat>): (q: Past)
    ensures |q.raw| == |p.raw| + |ts| && |q.kv| == |p.kv| + |ts|
    ensures |q.mem.conv| == |p.mem.conv| && |q.mem.ple| == |p.mem.ple|
  {
    if ts == [] then p else Grown(m, Carry(m, p, toks, ts[..|ts| - 1]), toks + ts)
  }

  /** The past the tokens alone make. */
  function PastOf(m: Model, toks: seq<nat>): (p: Past)
    ensures |p.raw| == |p.kv| == |toks|
  {
    Carry(m, Fresh(m), [], toks)
  }

  lemma CarrySnoc(m: Model, p: Past, toks: seq<nat>, ts: seq<nat>, t: nat)
    ensures Carry(m, p, toks, ts + [t]) == Grown(m, Carry(m, p, toks, ts), toks + (ts + [t]))
  {
    assert (ts + [t])[..|ts + [t]| - 1] == ts;
  }

  lemma CarryAt(m: Model, p: Past, toks: seq<nat>, ts: seq<nat>, j: nat)
    requires j < |ts|
    ensures Carry(m, p, toks, ts[..j + 1]) == Grown(m, Carry(m, p, toks, ts[..j]), toks + ts[..j + 1])
  {
    assert ts[..j + 1] == ts[..j] + [ts[j]];
    CarrySnoc(m, p, toks, ts[..j], ts[j]);
  }

  lemma {:induction false} CarryMore(m: Model, p: Past, toks: seq<nat>, ts: seq<nat>, us: seq<nat>)
    ensures Carry(m, Carry(m, p, toks, ts), toks + ts, us) == Carry(m, p, toks, ts + us)
  {
    if us == [] {
      assert ts + us == ts;
    } else {
      var init, t := us[..|us| - 1], us[|us| - 1];
      CarryMore(m, p, toks, ts, init);
      CarrySnoc(m, p, toks, ts + init, t);
      assert ts + us == ts + init + [t] && toks + ts + us == toks + (ts + us);
    }
  }

  lemma PastMore(m: Model, toks: seq<nat>, ts: seq<nat>)
    ensures Carry(m, PastOf(m, toks), toks, ts) == PastOf(m, toks + ts)
  {
    CarryMore(m, Fresh(m), [], toks, ts);
    assert [] + toks == toks;
  }

  /** Rows once written stay. */
  lemma {:induction false} CarryRows(m: Model, p: Past, toks: seq<nat>, ts: seq<nat>, k: nat)
    requires k <= |ts|
    ensures Carry(m, p, toks, ts[..k]).raw <= Carry(m, p, toks, ts).raw
    ensures Carry(m, p, toks, ts[..k]).kv <= Carry(m, p, toks, ts).kv
  {
    if k == |ts| {
      assert ts[..k] == ts;
    } else {
      CarryRows(m, p, toks, ts[..|ts| - 1], k);
      assert ts[..|ts| - 1][..k] == ts[..k];
    }
  }

  lemma PastRows(m: Model, toks: seq<nat>, n: nat)
    requires n <= |toks|
    ensures PastOf(m, toks[..n]).raw == PastOf(m, toks).raw[..n] && PastOf(m, toks[..n]).kv == PastOf(m, toks).kv[..n]
  {
    CarryRows(m, Fresh(m), [], toks, n);
  }

  /** Entry i of a history after the tokens ts: the input of that position, or of the history before if it goes back
      that far. */
  lemma {:induction false} HistoryIs(m: Model, p: Past, toks: seq<nat>, ts: seq<nat>, i: nat)
    requires i < |p.mem.conv|
    ensures var h := |p.mem.conv|; var at := |ts| + i - h;
      Carry(m, p, toks, ts).mem.conv[i] ==
        if at < 0 then p.mem.conv[i + |ts|] else m.chan(Carry(m, p, toks, ts[..at]), toks + ts[..at + 1])
  {
    if ts != [] {
      var init := ts[..|ts| - 1];
      if i + 1 < |p.mem.conv| {
        HistoryIs(m, p, toks, init, i + 1);
        var at := |ts| + i - |p.mem.conv|;
        if at >= 0 { assert init[..at] == ts[..at] && init[..at + 1] == ts[..at + 1]; }
      } else {
        assert ts[..|ts|] == ts;
      }
    }
  }

  // ---------------------------------------------------------------- what a position should answer

  function PoolAt(net: Net, r: nat, nb: nat, raw: seq<int>, b: nat): int
    requires |raw| == nb * r && b < nb
  {
    BlockEnd(b, nb, r);
    net.pool(b, Members(raw, b, r))
  }

  /** The caches a rebuild from a past's rows would give. */
  function Rebuilt(net: Net, r: nat, nb: nat, p: Past): (c: Caches)
    requires r > 0 && |p.raw| == |p.kv| <= nb * r
    ensures Shaped(r, nb, c)
  {
    var raw, kv := p.raw + Zeros(nb * r - |p.raw|), p.kv + Zeros(nb * r - |p.kv|);
    Caches(raw, seq(nb, b requires 0 <= b < nb => PoolAt(net, r, nb, raw, b)), kv)
  }

  /** What the attention of a position gives, selecting k blocks: out of the past before it and the tokens up to it,
      everything derived made anew. */
  function Answer(m: Model, r: nat, nb: nat, k: nat, p: Past, toks: seq<nat>): int
    requires r > 0 && |p.raw| == |p.kv| == |toks| - 1 < nb * r
  {
    var q: nat := |toks| - 1;
    Attended(m.net, r, Rebuilt(m.net, r, nb, Grown(m, p, toks)), q, m.query(p, toks), Closed(q, nb, r), nb, k)
  }

  /** What the attention is given and how it chooses. Of the blocks it takes as many as the budget says, or all: of
      those that end by the position the ones whose r keys' pooled key scores highest, the lower index first where
      scores are equal, and the incomplete block of the position itself before any. It sees the K/V rows of the cells in
      them that are not after the position, and no others. */
  lemma AnswerSees(m: Model, r: nat, nb: nat, k: nat, p: Past, toks: seq<nat>)
    returns (sel: set<nat>, rows: set<(nat, int)>)
    requires r > 0 && |p.raw| == |p.kv| == |toks| - 1 < nb * r
    ensures Answer(m, r, nb, k, p, toks) == m.net.attend(m.query(p, toks), rows)
    ensures forall x: nat, v :: (x, v) in rows <==>
              && x < |toks| && v == (p.kv + [m.kv(p, toks)])[x]
              && exists b :: b in sel && b * r <= x < b * r + r
    ensures (forall b | b in sel :: b < nb) && |sel| == if k <= nb then k else nb
    ensures forall b: nat, e: nat | b in sel && e < nb && e !in sel :: Ahead(m, r, p, toks, b, e)
  {
    var q: nat, query, g := |toks| - 1, m.query(p, toks), Grown(m, p, toks);
    var c := Rebuilt(m.net, r, nb, g);
    sel := TopK(Ranks(m.net, query, c.pool, Closed(q, nb, r), nb), k);
    rows := AttendsTo(m.net, r, c, q, query, Closed(q, nb, r), nb, k);
    SelectionSize(Ranks(m.net, query, c.pool, Closed(q, nb, r), nb), k);
    forall b: nat, e: nat | b in sel && e < nb && e !in sel ensures Ahead(m, r, p, toks, b, e) {
      SelectsAt(m.net, query, c.pool, q, r, nb, k, b, e);
      if b * r + r <= |toks| { WholePooled(m.net, r, nb, g, b); }
      if e * r + r <= |toks| { WholePooled(m.net, r, nb, g, e); }
    }
  }

  /** Block b is chosen before e at the position of the last token. */
  ghost predicate Ahead(m: Model, r: nat, p: Past, toks: seq<nat>, b: nat, e: nat)
    requires |p.raw| == |toks| - 1
  {
    var raw := p.raw + [m.key(p, toks)];
    && (b * r + r <= |toks| && e * r + r <= |toks| ==>
        var v := m.net.score(m.query(p, toks), m.net.pool(b, raw[b * r..b * r + r]));
        var w := m.net.score(m.query(p, toks), m.net.pool(e, raw[e * r..e * r + r]));
        v > w || (v == w && b < e))
    && (e * r < |toks| ==> b * r < |toks| && e * r + r <= |toks|)
  }

  lemma WholePooled(net: Net, r: nat, nb: nat, p: Past, b: nat)
    requires r > 0 && |p.raw| == |p.kv| <= nb * r && b < nb && b * r + r <= |p.raw|
    ensures Rebuilt(net, r, nb, p).pool[b] == net.pool(b, p.raw[b * r..b * r + r])
  {
    var raw := p.raw + Zeros(nb * r - |p.raw|);
    BlockEnd(b, nb, r);
    assert raw[b * r..b * r + r] == p.raw[b * r..b * r + r];
  }

  /** The same out of the tokens alone. */
  function Reference(m: Model, r: nat, nb: nat, k: nat, toks: seq<nat>): int
    requires r > 0 && 0 < |toks| <= nb * r
  {
    Answer(m, r, nb, k, PastOf(m, toks[..|toks| - 1]), toks)
  }

  /** A past the tokens made answers as the tokens do. */
  lemma AnswersOf(m: Model, r: nat, nb: nat, k: nat, toks: seq<nat>, ts: seq<nat>, j: nat)
    requires r > 0 && j < |ts| && |toks| + |ts| <= nb * r
    ensures Answer(m, r, nb, k, Carry(m, PastOf(m, toks), toks, ts[..j]), toks + ts[..j + 1])
         == Reference(m, r, nb, k, toks + ts[..j + 1])
  {
    hide Answer;
    hide Carry;
    var all := toks + ts[..j + 1];
    assert all[..|all| - 1] == toks + ts[..j];
    PastMore(m, toks, ts[..j]);
  }

  // ---------------------------------------------------------------- calls and what they make of it

  /** Cells per block, blocks in the context, the largest prompt, snapshots kept for a rollback, blocks selected. */
  datatype Config = Config(r: nat, nb: nat, batch: nat, nsnap: nat, k0: nat)

  /** A decode step, a prompt, a rollback, a reset, taking a checkpoint and putting the i-th one taken back. */
  datatype Call =
    Fed(ts: seq<nat>) | Prompt(ts: seq<nat>, streamed: bool) | Back(n: int) | Cleared | Saved | Put(i: nat)

  /** The tokens kept, the past, the selection budget and the memories a rollback may go back to. Or a position below
      zero, where a rollback that takes back more tokens than there are leaves it. */
  datatype Track = Track(toks: seq<nat>, past: Past, budget: nat, back: seq<Memory>) | Sunk(budget: nat)

  datatype Kept = Kept(toks: seq<nat>, past: Past)

  datatype Run = Run(now: Track, kept: seq<Kept>)

  function Less<T>(s: seq<T>, n: nat): seq<T>
    requires n <= |s|
  {
    s[..|s| - n]
  }

  /** How far a step of n positions may be taken back. */
  function Depth(g: Config, n: nat): nat
    requires n > 0
  {
    Min(n - 1, g.nsnap)
  }

  /** The memories 1, 2, ... tokens before the end of a step. */
  function Snapshots(m: Model, g: Config, p: Past, toks: seq<nat>, ts: seq<nat>): seq<Memory>
    requires ts != []
  {
    seq(Depth(g, |ts|), s requires 0 <= s < Depth(g, |ts|) => Carry(m, p, toks, Less(ts, s + 1)).mem)
  }

  function Feed(m: Model, g: Config, t: Track, ts: seq<nat>): Track
    requires g.r > 0 && t.Track? && ts != []
  {
    Track(t.toks + ts, Carry(m, t.past, t.toks, ts), Min(t.budget, Bucket(|t.toks|, g.nb, g.r)),
        Snapshots(m, g, t.past, t.toks, ts))
  }

  /** A streamed prompt leaves the snapshots. */
  function Read(m: Model, t: Track, ts: seq<nat>, streamed: bool): Track
    requires t.Track?
  {
    Track(t.toks + ts, Carry(m, t.past, t.toks, ts), t.budget, if streamed then t.back else [])
  }

  predicate Fits(g: Config, k: Kept) {
    |k.past.raw| == |k.past.kv| == |k.toks| <= g.nb * g.r
  }

  predicate Sized(g: Config, x: Run) {
    && (x.now.Track? ==> Fits(g, Kept(x.now.toks, x.now.past)))
    && forall i | 0 <= i < |x.kept| :: Fits(g, x.kept[i])
  }

  /** The memory of n tokens before the end of the last step; the rows and the tokens without the last n. */
  function TakeBack(t: Track, n: nat): Track
    requires t.Track? && 1 <= n <= |t.back| && |t.past.raw| == |t.past.kv| == |t.toks|
  {
    if n > |t.toks| then Sunk(t.budget)
    else Track(Less(t.toks, n), Past(t.back[n - 1], Less(t.past.raw, n), Less(t.past.kv, n)), t.budget, [])
  }

  function Snaps(t: Track): seq<Memory> { if t.Track? then t.back else [] }

  function Start(t: Track, k: Kept): Track {
    Track(k.toks, k.past, t.budget, Snaps(t))
  }

  /** The calls that are carried out, by the number of tokens, how far a rollback may go and the checkpoints there are.
      The engine checks the numbers; that the position is not below zero it leaves to the caller. */
  predicate Lets(g: Config, live: bool, len: nat, depth: nat, kept: nat, c: Call) {
    match c
    case Fed(ts) => live && 1 <= |ts| <= MAX_T && len + |ts| <= g.nb * g.r
    case Prompt(ts, _) => live && 1 <= |ts| <= g.batch && len + |ts| <= g.nb * g.r
    case Back(n) => live && 1 <= n <= depth
    case Cleared => true
    case Saved => live
    case Put(i) => i < kept
  }

  predicate Accepts(g: Config, x: Run, c: Call) {
    if x.now.Track? then Lets(g, true, |x.now.toks|, |x.now.back|, |x.kept|, c) else Lets(g, false, 0, 0, |x.kept|, c)
  }

  function Next(m: Model, g: Config, x: Run, c: Call): (y: Run)
    requires g.r > 0 && Sized(g, x)
    ensures Sized(g, y)
  {
    if !Accepts(g, x, c) then x else
    match c
    case Fed(ts) => x.(now := Feed(m, g, x.now, ts))
    case Prompt(ts, streamed) => x.(now := Read(m, x.now, ts, streamed))
    case Back(n) => x.(now := TakeBack(x.now, n))
    case Cleared => x.(now := Start(x.now, Kept([], Fresh(m))))
    case Saved => x.(kept := x.kept + [Kept(x.now.toks, x.now.past)])
    case Put(i) => x.(now := Start(x.now, x.kept[i]))
  }

  /** Any calls, one after the other. */
  function Onward(m: Model, g: Config, x: Run, calls: seq<Call>): (y: Run)
    requires g.r > 0 && Sized(g, x)
    ensures Sized(g, y)
  {
    if calls == [] then x else Next(m, g, Onward(m, g, x, calls[..|calls| - 1]), calls[|calls| - 1])
  }

  /** From the start. */
  function AfterAll(m: Model, g: Config, calls: seq<Call>): (x: Run)
    requires g.r > 0
    ensures Sized(g, x)
  {
    Onward(m, g, Run(Track([], Fresh(m), g.k0, []), []), calls)
  }

  /** The positions of the steps carried out. */
  function Steps(m: Model, g: Config, calls: seq<Call>): seq<nat>
    requires g.r > 0
  {
    if calls == [] then [] else
    var init, c := Less(calls, 1), calls[|calls| - 1];
    var x := AfterAll(m, g, init);
    Steps(m, g, init) + if c.Fed? && Accepts(g, x, c) then [|x.now.toks|] else []
  }

  lemma NextBudget(m: Model, g: Config, x: Run, c: Call)
    requires g.r > 0 && Sized(g, x)
    ensures Next(m, g, x, c).now.budget
         == if c.Fed? && Accepts(g, x, c) then Min(x.now.budget, Bucket(|x.now.toks|, g.nb, g.r)) else x.now.budget
  {
  }

  /** The budget is cut by those alone: no reset, restore or rollback brings it back. */
  lemma {:induction false} RunBudget(m: Model, g: Config, calls: seq<Call>)
    requires g.r > 0
    ensures AfterAll(m, g, calls).now.budget == Budget(g.k0, g.nb, g.r, Steps(m, g, calls))
    ensures InContext(Steps(m, g, calls), g.nb * g.r)
  {
    if calls != [] {
      RunBudget(m, g, Less(calls, 1));
      StepBudget(m, g, calls);
    }
  }

  lemma StepBudget(m: Model, g: Config, calls: seq<Call>)
    requires g.r > 0 && calls != [] && InContext(Steps(m, g, Less(calls, 1)), g.nb * g.r)
    requires AfterAll(m, g, Less(calls, 1)).now.budget == Budget(g.k0, g.nb, g.r, Steps(m, g, Less(calls, 1)))
    ensures AfterAll(m, g, calls).now.budget == Budget(g.k0, g.nb, g.r, Steps(m, g, calls))
    ensures InContext(Steps(m, g, calls), g.nb * g.r)
  {
    hide Next;
    hide Budget;
    var c, x, qs := calls[|calls| - 1], AfterAll(m, g, Less(calls, 1)), Steps(m, g, Less(calls, 1));
    NextBudget(m, g, x, c);
    if c.Fed? && Accepts(g, x, c) {
      BudgetSnoc(g.k0, g.nb, g.r, qs, |x.now.toks|);
    } else {
      assert Steps(m, g, calls) == qs;
    }
  }

  /** A step taken back by fewer tokens than it has, as far as there are snapshots, leaves what the step without them
      would have: from any past, settled or not. */
  lemma RollbackUndoes(m: Model, g: Config, t: Track, ts: seq<nat>, n: nat)
    requires g.r > 0 && t.Track? && |t.past.raw| == |t.past.kv| == |t.toks| && 1 <= n < |ts| && n <= g.nsnap
    ensures var u := Feed(m, g, t, ts);
      && n <= |u.back|
      && TakeBack(u, n).Track? && TakeBack(u, n).toks == t.toks + ts[..|ts| - n]
      && TakeBack(u, n).past == Carry(m, t.past, t.toks, ts[..|ts| - n])
  {
    var less := Less(ts, n);
    CarryRows(m, t.past, t.toks, ts, |less|);
    assert Less(t.toks + ts, n) == t.toks + less;
    assert Feed(m, g, t, ts).back[n - 1] == Carry(m, t.past, t.toks, less).mem;
  }

  /** The past is what the tokens kept make. */
  predicate Settled(m: Model, t: Track) {
    t.Track? && t.past == PastOf(m, t.toks)
  }

  /** A settled past stays settled through a step or a prompt, and answers as the tokens do. */
  lemma FeedSettles(m: Model, g: Config, t: Track, ts: seq<nat>)
    requires g.r > 0 && Settled(m, t) && ts != []
    ensures Settled(m, Feed(m, g, t, ts))
  {
    PastMore(m, t.toks, ts);
  }

  // ---------------------------------------------------------------- what a caller can note

  /** From the tokens alone: those kept, how many of their rows are theirs, whether the memory is; the tokens kept right
      after the last step, whether that step began settled, and how far it may be taken back. */
  datatype Note = Note(toks: seq<nat>, rows: nat, mem: bool, snap: seq<nat>, good: bool, depth: nat) | Under

  datatype Notes = Notes(now: Note, kept: seq<Note>)

  predicate Right(n: Note) { n.Note? && n.mem && n.rows == |n.toks| }

  predicate Allows(g: Config, x: Notes, c: Call) {
    if x.now.Note? then Lets(g, true, |x.now.toks|, x.now.depth, |x.kept|, c) else Lets(g, false, 0, 0, |x.kept|, c)
  }

  /** Tokens that join: theirs only if all before was. */
  function Join(n: Note, ts: seq<nat>): Note
    requires n.Note?
  {
    n.(toks := n.toks + ts, rows := if Right(n) then n.rows + |ts| else n.rows, mem := Right(n))
  }

  /** The rollback brings the memory of the step's tokens without its last k. */
  function Cut(n: Note, k: nat): Note
    requires n.Note? && k <= |n.snap|
  {
    if k > |n.toks| then Under
    else n.(toks := Less(n.toks, k), rows := Min(n.rows, |n.toks| - k),
            mem := n.good && Less(n.toks, k) == Less(n.snap, k), depth := 0)
  }

  function Begin(n: Note, k: Note): Note
    requires k.Note?
  {
    if n.Under? then Note(k.toks, k.rows, k.mem, [], true, 0) else n.(toks := k.toks, rows := k.rows, mem := k.mem)
  }

  predicate Fair(x: Notes) {
    && (x.now.Note? ==> x.now.depth <= |x.now.snap| && x.now.rows <= |x.now.toks|)
    && forall i | 0 <= i < |x.kept| :: x.kept[i].Note? && x.kept[i].rows <= |x.kept[i].toks|
  }

  function Jot(g: Config, x: Notes, c: Call): (y: Notes)
    requires Fair(x)
    ensures Fair(y)
  {
    if !Allows(g, x, c) then x else
    match c
    case Fed(ts) =>
      x.(now := Join(x.now, ts).(snap := x.now.toks + ts, good := Right(x.now), depth := Depth(g, |ts|)))
    case Prompt(ts, streamed) => x.(now := Join(x.now, ts).(depth := if streamed then x.now.depth else 0))
    case Back(k) => x.(now := Cut(x.now, k))
    case Cleared => x.(now := Begin(x.now, Note([], 0, true, [], true, 0)))
    case Saved => x.(kept := x.kept + [x.now])
    case Put(i) => x.(now := Begin(x.now, x.kept[i]))
  }

  function Noted(g: Config, calls: seq<Call>): (x: Notes)
    ensures Fair(x)
  {
    if calls == [] then Notes(Note([], 0, true, [], true, 0), [])
    else Jot(g, Noted(g, calls[..|calls| - 1]), calls[|calls| - 1])
  }

  // ---------------------------------------------------------------- notes and states agree on the outside

  predicate Alike(t: Track, n: Note) {
    t.Track? == n.Note? && (t.Track? ==> t.toks == n.toks && |t.back| == n.depth)
  }

  predicate AlikeAll(x: Run, y: Notes) {
    && Alike(x.now, y.now) && |x.kept| == |y.kept|
    && forall i | 0 <= i < |x.kept| :: y.kept[i].Note? && x.kept[i].toks == y.kept[i].toks
  }

  lemma AlikeNext(m: Model, g: Config, x: Run, y: Notes, c: Call)
    requires g.r > 0 && Sized(g, x) && Fair(y) && AlikeAll(x, y)
    ensures Accepts(g, x, c) == Allows(g, y, c)
    ensures AlikeAll(Next(m, g, x, c), Jot(g, y, c))
  {
  }

  lemma {:induction false} AlikeAfter(m: Model, g: Config, calls: seq<Call>)
    requires g.r > 0
    ensures AlikeAll(AfterAll(m, g, calls), Noted(g, calls))
  {
    if calls != [] {
      var init := calls[..|calls| - 1];
      AlikeAfter(m, g, init);
      AlikeNext(m, g, AfterAll(m, g, init), Noted(g, init), calls[|calls| - 1]);
    }
  }

  // ---------------------------------------------------------------- what is noted right is right

  predicate RowsOf(m: Model, toks: seq<nat>, p: Past, rows: nat) {
    && |p.raw| == |p.kv| == |toks| && rows <= |toks|
    && p.raw[..rows] == PastOf(m, toks).raw[..rows] && p.kv[..rows] == PastOf(m, toks).kv[..rows]
  }

  /** The rows, the memory and the snapshots noted as the tokens' are. */
  predicate Holds(m: Model, k: Kept, n: Note)
    requires n.Note?
  {
    k.toks == n.toks && RowsOf(m, k.toks, k.past, n.rows) && (n.mem ==> k.past.mem == PastOf(m, k.toks).mem)
  }

  predicate HoldsBack(m: Model, back: seq<Memory>, n: Note)
    requires n.Note?
  {
    |back| == n.depth <= |n.snap|
    && (n.good ==> forall s: nat | s < |back| :: back[s] == PastOf(m, Less(n.snap, s + 1)).mem)
  }

  predicate HoldsNow(m: Model, t: Track, n: Note) {
    t.Track? == n.Note? && (t.Track? ==> Holds(m, Kept(t.toks, t.past), n) && HoldsBack(m, t.back, n))
  }

  predicate HoldsAll(m: Model, x: Run, y: Notes) {
    && HoldsNow(m, x.now, y.now) && |x.kept| == |y.kept|
    && forall i | 0 <= i < |x.kept| :: y.kept[i].Note? && Holds(m, x.kept[i], y.kept[i])
  }

  lemma RightSettles(m: Model, k: Kept, n: Note)
    requires n.Note? && Holds(m, k, n) && Right(n)
    ensures k.past == PastOf(m, k.toks)
  {
    var p := PastOf(m, k.toks);
    assert k.past.raw[..n.rows] == k.past.raw && p.raw[..n.rows] == p.raw;
    assert k.past.kv[..n.rows] == k.past.kv && p.kv[..n.rows] == p.kv;
  }

  lemma JoinHolds(m: Model, k: Kept, n: Note, ts: seq<nat>)
    requires n.Note? && Holds(m, k, n)
    ensures Holds(m, Kept(k.toks + ts, Carry(m, k.past, k.toks, ts)), Join(n, ts))
  {
    var all, p := k.toks + ts, Carry(m, k.past, k.toks, ts);
    PastRows(m, all, |k.toks|);
    assert all[..|k.toks|] == k.toks;
    CarryRows(m, k.past, k.toks, ts, 0);
    if Right(n) {
      RightSettles(m, k, n);
      PastMore(m, k.toks, ts);
    } else {
      SameStart(k.past.raw, p.raw, PastOf(m, k.toks).raw, PastOf(m, all).raw, n.rows);
      SameStart(k.past.kv, p.kv, PastOf(m, k.toks).kv, PastOf(m, all).kv, n.rows);
    }
  }

  lemma SameStart(a: seq<int>, b: seq<int>, c: seq<int>, d: seq<int>, n: nat)
    requires a <= b && c <= d && n <= |a| && n <= |c| && a[..n] == c[..n]
    ensures b[..n] == d[..n]
  {
    assert b[..n] == a[..n] && d[..n] == c[..n];
  }

  lemma StepHoldsBack(m: Model, g: Config, k: Kept, n: Note, ts: seq<nat>)
    requires n.Note? && Holds(m, k, n) && Right(n) && ts != []
    ensures forall s: nat | s < Depth(g, |ts|) ::
        Snapshots(m, g, k.past, k.toks, ts)[s] == PastOf(m, Less(k.toks + ts, s + 1)).mem
  {
    RightSettles(m, k, n);
    forall s: nat | s < Depth(g, |ts|)
      ensures Snapshots(m, g, k.past, k.toks, ts)[s] == PastOf(m, Less(k.toks + ts, s + 1)).mem
    {
      PastMore(m, k.toks, Less(ts, s + 1));
      assert Less(k.toks + ts, s + 1) == k.toks + Less(ts, s + 1);
    }
  }

  lemma CutHolds(m: Model, t: Track, n: Note, k: nat)
    requires t.Track? && n.Note? && HoldsNow(m, t, n) && 1 <= k <= n.depth && k <= |t.toks|
    ensures HoldsNow(m, TakeBack(t, k), Cut(n, k))
  {
    var u, less := TakeBack(t, k), Less(t.toks, k);
    var rows := Min(n.rows, |less|);
    PastRows(m, t.toks, |less|);
    assert u.past.raw[..rows] == t.past.raw[..n.rows][..rows];
    assert u.past.kv[..rows] == t.past.kv[..n.rows][..rows];
    assert PastOf(m, less).raw[..rows] == PastOf(m, t.toks).raw[..n.rows][..rows];
    assert PastOf(m, less).kv[..rows] == PastOf(m, t.toks).kv[..n.rows][..rows];
  }

  lemma HoldsNext(m: Model, g: Config, x: Run, y: Notes, c: Call)
    requires g.r > 0 && Sized(g, x) && Fair(y) && AlikeAll(x, y) && HoldsAll(m, x, y)
    ensures HoldsAll(m, Next(m, g, x, c), Jot(g, y, c))
  {
    AlikeNext(m, g, x, y, c);
    if Allows(g, y, c) {
      match c
      case Fed(ts) =>
        JoinHolds(m, Kept(x.now.toks, x.now.past), y.now, ts);
        if Right(y.now) { StepHoldsBack(m, g, Kept(x.now.toks, x.now.past), y.now, ts); }
      case Prompt(ts, _) => JoinHolds(m, Kept(x.now.toks, x.now.past), y.now, ts);
      case Back(n) => if n <= |x.now.toks| { CutHolds(m, x.now, y.now, n); }
      case _ =>
    }
  }

  lemma {:induction false} HoldsAfter(m: Model, g: Config, calls: seq<Call>)
    requires g.r > 0
    ensures HoldsAll(m, AfterAll(m, g, calls), Noted(g, calls))
  {
    if calls != [] {
      var init := calls[..|calls| - 1];
      HoldsAfter(m, g, init);
      AlikeAfter(m, g, init);
      HoldsNext(m, g, AfterAll(m, g, init), Noted(g, init), calls[|calls| - 1]);
    }
  }

  // ---------------------------------------------------------------- what is not noted right may be wrong

  function Odd(a: nat, x: nat): nat { if a == 0 then 2 * x + 1 else 2 * Odd(a - 1, x) }

  lemma {:induction false} OddTells(a: nat, x: nat, b: nat, y: nat)
    requires Odd(a, x) == Odd(b, y)
    ensures a == b && x == y
  {
    if a > 0 && b > 0 { OddTells(a - 1, x, b - 1, y); }
  }

  /** A number for every sequence of tokens. */
  function Code(toks: seq<nat>): nat {
    if toks == [] then 0 else Odd(toks[|toks| - 1], Code(toks[..|toks| - 1]))
  }

  lemma {:induction false} OddPositive(a: nat, x: nat)
    ensures Odd(a, x) > 0
  {
    if a > 0 { OddPositive(a - 1, x); }
  }

  lemma {:induction false} CodeTells(a: seq<nat>, b: seq<nat>)
    ensures Code(a) == Code(b) <==> a == b
  {
    if a != [] { OddPositive(a[|a| - 1], Code(a[..|a| - 1])); }
    if b != [] { OddPositive(b[|b| - 1], Code(b[..|b| - 1])); }
    if a != [] && b != [] && Code(a) == Code(b) {
      OddTells(a[|a| - 1], Code(a[..|a| - 1]), b[|b| - 1], Code(b[..|b| - 1]));
      CodeTells(a[..|a| - 1], b[..|b| - 1]);
      assert a == a[..|a| - 1] + [a[|a| - 1]] && b == b[..|b| - 1] + [b[|b| - 1]];
    }
  }

  predicate AllZero(s: seq<int>) { forall x | 0 <= x < |s| :: s[x] == 0 }

  /** The past is that of the tokens before the last, as the telling model has it. */
  predicate Fine(p: Past, toks: seq<nat>) {
    toks != [] && p.mem.rec == Code(Less(toks, 1)) && AllZero(p.raw)
  }

  /** The model whose memory tells its tokens, and forgets everything at the first thing wrong; the rows say so too. */
  function Telling(net: Net): Model {
    Model(net, 0, 0, 0,
        (p: Past, t: seq<nat>) => if Fine(p, t) then 0 else 1, (p: Past, t: seq<nat>) => 0,
        (p: Past, t: seq<nat>) => 0,
        (p: Past, t: seq<nat>) => if Fine(p, t) then Code(t) else -1,
        (p: Past, t: seq<nat>) => 0, (p: Past, t: seq<nat>) => 0)
  }

  predicate Tells(k: Kept, n: Note)
    requires n.Note?
  {
    && k.toks == n.toks && |k.past.raw| == |k.toks| && n.rows <= |k.toks| && (n.mem <==> k.past.mem.rec == Code(k.toks))
    && forall x | 0 <= x < |k.toks| :: k.past.raw[x] == if x < n.rows then 0 else 1
  }

  predicate TellsBack(back: seq<Memory>, n: Note)
    requires n.Note?
  {
    |back| == n.depth <= |n.snap|
    && forall s: nat | s < |back| :: back[s].rec == if n.good then Code(Less(n.snap, s + 1)) else -1
  }

  predicate TellsNow(t: Track, n: Note) {
    t.Track? == n.Note? && (t.Track? ==> Tells(Kept(t.toks, t.past), n) && TellsBack(t.back, n))
  }

  predicate TellsAll(x: Run, y: Notes) {
    && TellsNow(x.now, y.now) && |x.kept| == |y.kept|
    && forall i | 0 <= i < |x.kept| :: y.kept[i].Note? && Tells(x.kept[i], y.kept[i])
  }

  lemma FineIff(k: Kept, n: Note, t: nat)
    requires n.Note? && Tells(k, n)
    ensures Fine(k.past, k.toks + [t]) <==> Right(n)
  {
    assert Less(k.toks + [t], 1) == k.toks;
    if n.rows < |k.toks| { assert k.past.raw[n.rows] == 1; }
  }

  lemma OneTells(net: Net, k: Kept, n: Note, t: nat)
    requires n.Note? && Tells(k, n)
    ensures Tells(Kept(k.toks + [t], Grown(Telling(net), k.past, k.toks + [t])), Join(n, [t]))
    ensures Grown(Telling(net), k.past, k.toks + [t]).mem.rec == if Right(n) then Code(k.toks + [t]) else -1
  {
    FineIff(k, n, t);
    CodePositive(k.toks, t);
  }

  lemma CodePositive(toks: seq<nat>, t: nat)
    ensures Code(toks + [t]) > 0
  {
    OddPositive(t, Code(toks));
    assert (toks + [t])[..|toks|] == toks;
  }

  lemma {:induction false} JoinTells(net: Net, k: Kept, n: Note, ts: seq<nat>)
    requires n.Note? && Tells(k, n) && ts != []
    ensures Tells(Kept(k.toks + ts, Carry(Telling(net), k.past, k.toks, ts)), Join(n, ts))
    ensures Carry(Telling(net), k.past, k.toks, ts).mem.rec == if Right(n) then Code(k.toks + ts) else -1
  {
    hide Tells;
    var init, t := Less(ts, 1), ts[|ts| - 1];
    assert ts == init + [t] && k.toks + init + [t] == k.toks + ts;
    CarrySnoc(Telling(net), k.past, k.toks, init, t);
    if init == [] {
      assert k.toks + init == k.toks;
      OneTells(net, k, n, t);
    } else {
      JoinTells(net, k, n, init);
      OneTells(net, Kept(k.toks + init, Carry(Telling(net), k.past, k.toks, init)), Join(n, init), t);
      JoinJoin(n, init, t);
    }
  }

  lemma JoinJoin(n: Note, init: seq<nat>, t: nat)
    requires n.Note? && init != []
    ensures Join(Join(n, init), [t]) == Join(n, init + [t]) && Right(Join(n, init)) == Right(n)
  {
    assert n.toks + init + [t] == n.toks + (init + [t]);
  }

  lemma StepTellsBack(net: Net, g: Config, k: Kept, n: Note, ts: seq<nat>)
    requires n.Note? && Tells(k, n) && ts != []
    ensures forall s: nat | s < Depth(g, |ts|) ::
        Snapshots(Telling(net), g, k.past, k.toks, ts)[s].rec
            == if Right(n) then Code(Less(k.toks + ts, s + 1)) else -1
  {
    forall s: nat | s < Depth(g, |ts|)
      ensures Snapshots(Telling(net), g, k.past, k.toks, ts)[s].rec
          == if Right(n) then Code(Less(k.toks + ts, s + 1)) else -1
    {
      JoinTells(net, k, n, Less(ts, s + 1));
      assert Less(k.toks + ts, s + 1) == k.toks + Less(ts, s + 1);
    }
  }

  lemma CutTells(t: Track, n: Note, k: nat)
    requires t.Track? && n.Note? && TellsNow(t, n) && 1 <= k <= n.depth && k <= |t.toks| && |t.past.kv| == |t.toks|
    ensures TellsNow(TakeBack(t, k), Cut(n, k))
  {
    CodeTells(Less(t.toks, k), Less(n.snap, k));
  }

  lemma TellsNext(net: Net, g: Config, x: Run, y: Notes, c: Call)
    requires g.r > 0 && Sized(g, x) && Fair(y) && AlikeAll(x, y) && TellsAll(x, y)
    ensures TellsAll(Next(Telling(net), g, x, c), Jot(g, y, c))
  {
    AlikeNext(Telling(net), g, x, y, c);
    if Allows(g, y, c) {
      match c
      case Fed(ts) =>
        JoinTells(net, Kept(x.now.toks, x.now.past), y.now, ts);
        StepTellsBack(net, g, Kept(x.now.toks, x.now.past), y.now, ts);
      case Prompt(ts, _) => JoinTells(net, Kept(x.now.toks, x.now.past), y.now, ts);
      case Back(n) => if n <= |x.now.toks| { CutTells(x.now, y.now, n); }
      case _ =>
    }
  }

  lemma {:induction false} TellsAfter(net: Net, g: Config, calls: seq<Call>)
    requires g.r > 0
    ensures TellsAll(AfterAll(Telling(net), g, calls), Noted(g, calls))
  {
    if calls != [] {
      var init := calls[..|calls| - 1];
      TellsAfter(net, g, init);
      AlikeAfter(Telling(net), g, init);
      TellsNext(net, g, AfterAll(Telling(net), g, init), Noted(g, init), calls[|calls| - 1]);
    }
  }

  lemma OneNote(k: Kept, n: Note, o: Note)
    requires n.Note? && o.Note? && Tells(k, n) && Tells(k, o)
    ensures n.rows == o.rows && n.mem == o.mem
  {
    var x := Min(n.rows, o.rows);
    assert x < |k.toks| ==> k.past.raw[x] == if x < n.rows then 0 else 1;
  }

  lemma SettledTells(net: Net, k: Kept, n: Note)
    requires n.Note? && Tells(k, n) && k.past == PastOf(Telling(net), k.toks)
    ensures Right(n)
  {
    if k.toks != [] {
      JoinTells(net, Kept([], Fresh(Telling(net))), Note([], 0, true, [], true, 0), k.toks);
      assert [] + k.toks == k.toks;
      OneNote(k, n, Join(Note([], 0, true, [], true, 0), k.toks));
    }
  }

  // ---------------------------------------------------------------- the condition

  /** After any calls -- stale rollbacks that were let in, checkpoints taken in a wrong state and put back among them --
      the state is that of the tokens kept, whatever the model computes, exactly when the notes say so. */
  lemma RightIff(g: Config, calls: seq<Call>, net: Net)
    requires g.r > 0
    ensures (forall m: Model :: Settled(m, AfterAll(m, g, calls).now)) <==> Right(Noted(g, calls).now)
  {
    var n := Noted(g, calls).now;
    if Right(n) {
      forall m: Model ensures Settled(m, AfterAll(m, g, calls).now) {
        HoldsAfter(m, g, calls);
        var t := AfterAll(m, g, calls).now;
        RightSettles(m, Kept(t.toks, t.past), n);
      }
    } else {
      TellsAfter(net, g, calls);
      var t := AfterAll(Telling(net), g, calls).now;
      if Settled(Telling(net), t) { SettledTells(net, Kept(t.toks, t.past), n); }
      assert !Settled(Telling(net), AfterAll(Telling(net), g, calls).now);
    }
  }

  lemma Snoc(m: Model, g: Config, calls: seq<Call>, c: Call)
    requires g.r > 0
    ensures AfterAll(m, g, calls + [c]) == Next(m, g, AfterAll(m, g, calls), c)
    ensures Noted(g, calls + [c]) == Jot(g, Noted(g, calls), c)
  {
    assert (calls + [c])[..|calls|] == calls;
  }

  /** A rollback that is let in puts back the state of the other tokens, whatever the model, exactly when the last step
      began settled, the tokens kept now agree with those kept right after it but for the last n, and no row among the
      others is in doubt. */
  lemma RollbackIff(g: Config, calls: seq<Call>, n: nat, net: Net)
    requires g.r > 0 && Allows(g, Noted(g, calls), Back(n))
    ensures var t := Noted(g, calls).now;
      (forall m: Model :: Settled(m, AfterAll(m, g, calls + [Back(n)]).now))
      <==> n <= |t.toks| && t.good && Less(t.toks, n) == Less(t.snap, n) && |t.toks| - n <= t.rows
  {
    RightIff(g, calls + [Back(n)], net);
    Snoc(Telling(net), g, calls, Back(n));
  }

  /** The calls that leave the depth as it was. */
  predicate Leaves(c: Call) {
    c.Cleared? || c.Put? || c.Saved? || (c.Prompt? && c.streamed)
  }

  lemma {:induction false} LeftAlone(g: Config, calls: seq<Call>, since: seq<Call>)
    requires Noted(g, calls).now.Note? && forall i | 0 <= i < |since| :: Leaves(since[i])
    ensures var t, u := Noted(g, calls + since).now, Noted(g, calls).now;
      t.Note? && t.depth == u.depth && t.snap == u.snap && t.good == u.good
  {
    if since == [] {
      assert calls + since == calls;
    } else {
      LeftAlone(g, calls, Less(since, 1));
      assert Less(calls + since, 1) == calls + Less(since, 1);
    }
  }

  /** After a step that began settled and calls since that leave the depth: exactly when they left the tokens as they
      were but for the last n, with no row in doubt. Right after the step that is so for every n let in. */
  lemma StaleIff(g: Config, calls: seq<Call>, ts: seq<nat>, since: seq<Call>, n: nat, net: Net)
    requires g.r > 0 && Right(Noted(g, calls).now) && Allows(g, Noted(g, calls), Fed(ts)) && 1 <= n <= Depth(g, |ts|)
    requires forall i | 0 <= i < |since| :: Leaves(since[i])
    ensures var t, toks := Noted(g, calls + [Fed(ts)] + since).now, Noted(g, calls).now.toks + ts;
      && Allows(g, Noted(g, calls + [Fed(ts)] + since), Back(n))
      && ((forall m: Model :: Settled(m, AfterAll(m, g, calls + [Fed(ts)] + since + [Back(n)]).now))
          <==> n <= |t.toks| && Less(t.toks, n) == Less(toks, n) && |t.toks| - n <= t.rows)
      && (since == [] ==> forall m: Model :: Settled(m, AfterAll(m, g, calls + [Fed(ts)] + since + [Back(n)]).now))
  {
    Snoc(Telling(net), g, calls, Fed(ts));
    LeftAlone(g, calls + [Fed(ts)], since);
    RollbackIff(g, calls + [Fed(ts)] + since, n, net);
    if since == [] { assert calls + [Fed(ts)] + since == calls + [Fed(ts)]; }
  }

  /** A reset, or a streamed prompt of any length, before the rollback makes it wrong. */
  lemma StaleAfter(g: Config, calls: seq<Call>, ts: seq<nat>, c: Call, n: nat, net: Net)
    requires g.r > 0 && Right(Noted(g, calls).now) && Allows(g, Noted(g, calls), Fed(ts)) && 1 <= n <= Depth(g, |ts|)
    requires Allows(g, Noted(g, calls + [Fed(ts)]), c) && (c.Cleared? || (c.Prompt? && c.streamed))
    ensures Allows(g, Noted(g, calls + [Fed(ts)] + [c]), Back(n))
    ensures !forall m: Model :: Settled(m, AfterAll(m, g, calls + [Fed(ts)] + [c] + [Back(n)]).now)
  {
    Snoc(Telling(net), g, calls, Fed(ts));
    Snoc(Telling(net), g, calls + [Fed(ts)], c);
    StaleIff(g, calls, ts, [c], n, net);
  }
}
