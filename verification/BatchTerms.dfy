/** A short prompt's mixture through the cache: the experts its tokens share are fetched in chunks, and each chunk is
    computed as two terms, one over the VRAM tier's slots and one over scratch slots packed from the rest. A term is one
    rectangular id matrix, so short rows are padded with distinct slots at weight 0. */
module BatchTerms {
  import opened TierFetch
  import opened MoeSplit

  // ---------------------------------------------------------------- the experts of the batch

  /** The batch's experts, each once, ascending. */
  method Uniq(r: Routing, nExpert: nat) returns (ids: seq<nat>)
    requires r.Valid()
    ensures forall a, b | 0 <= a < b < |ids| :: ids[a] < ids[b]
    ensures forall e :: e in ids <==> e in r.sel && e < nExpert
  {
    var seen: set<nat> := {};
    for k := 0 to |r.sel|
      invariant forall e :: e in seen <==> e in r.sel[..k] && e < nExpert
    {
      assert r.sel[..k + 1] == r.sel[..k] + [r.sel[k]];
      if r.sel[k] < nExpert {
        seen := seen + {r.sel[k]};
      }
    }
    assert r.sel[..|r.sel|] == r.sel;
    ids := [];
    for e := 0 to nExpert
      invariant forall a | 0 <= a < |ids| :: ids[a] < e
      invariant forall a, b | 0 <= a < b < |ids| :: ids[a] < ids[b]
      invariant forall x :: x in ids <==> x in seen && x < e
    {
      if e in seen {
        ids := ids + [e];
      }
    }
  }

  // ---------------------------------------------------------------- one term

  /** Rows of slots and weights, one row for each token, all of the term's width. */
  datatype Term = Term(width: nat, ids: seq<seq<int>>, w: seq<seq<real>>)

  const NONE := -1

  /** `pos`: an expert's place in the chunk; `slots`: the slot a place has in this term. Either may be none. */
  predicate Chunked(pos: seq<int>, slots: seq<int>) {
    && (forall e | 0 <= e < |pos| :: NONE <= pos[e] < |slots|)
    && (forall e, f | 0 <= e < f < |pos| && pos[e] >= 0 :: pos[e] != pos[f])
    && (forall i, k | 0 <= i < k < |slots| && slots[i] >= 0 :: slots[i] != slots[k])
  }

  predicate InTerm(pos: seq<int>, slots: seq<int>, e: nat) {
    e < |pos| && 0 <= pos[e] < |slots| && slots[pos[e]] >= 0
  }

  /** The term's members are the places with a slot, each once. */
  ghost predicate Members(members: seq<nat>, slots: seq<int>) {
    && (forall a, b | 0 <= a < b < |members| :: members[a] != members[b])
    && (forall i :: i in members <==> 0 <= i < |slots| && slots[i] >= 0)
  }

  predicate InRange(r: Routing, pos: seq<int>) {
    forall k | 0 <= k < |r.sel| :: r.sel[k] < |pos|
  }

  /** The places a token's first K choices have in the term, in selection order. */
  function PerTok(r: Routing, t: nat, pos: seq<int>, slots: seq<int>, K: nat): seq<nat> {
    if K == 0 then []
    else
      var e := r.Sel(t, K - 1);
      PerTok(r, t, pos, slots, K - 1) + if InTerm(pos, slots, e) then [pos[e]] else []
  }

  lemma {:induction false} PerTokFrom(r: Routing, t: nat, pos: seq<int>, slots: seq<int>, K: nat, i: nat)
    requires forall j | 0 <= j < K :: !SitsAt(pos, slots, r.Sel(t, j), i)
    ensures i !in PerTok(r, t, pos, slots, K)
  {
    if K > 0 {
      PerTokFrom(r, t, pos, slots, K - 1, i);
      assert !SitsAt(pos, slots, r.Sel(t, K - 1), i);
    }
  }

  predicate SitsAt(pos: seq<int>, slots: seq<int>, e: nat, i: nat) {
    InTerm(pos, slots, e) && pos[e] == i
  }

  lemma {:induction false} PerTokOnce(r: Routing, t: nat, pos: seq<int>, slots: seq<int>, K: nat)
    requires r.Valid() && t < r.T && K <= r.U && Chunked(pos, slots)
    ensures Distinct(PerTok(r, t, pos, slots, K))
    ensures forall i | i in PerTok(r, t, pos, slots, K) :: i < |slots| && slots[i] >= 0
  {
    if K > 0 {
      PerTokOnce(r, t, pos, slots, K - 1);
      var e := r.Sel(t, K - 1);
      if InTerm(pos, slots, e) {
        forall j | 0 <= j < K - 1 ensures !SitsAt(pos, slots, r.Sel(t, j), pos[e]) {
          assert r.Sel(t, j) != e;
        }
        PerTokFrom(r, t, pos, slots, K - 1, pos[e]);
      }
    }
  }

  /** The gate weight of the first choice from j on that sits at place i. */
  function Gate(r: Routing, t: nat, pos: seq<int>, i: nat, j: nat): real
    requires j <= r.U
    decreases r.U - j
  {
    if j == r.U then 0.0
    else if r.Sel(t, j) < |pos| && pos[r.Sel(t, j)] == i then r.Wgt(t, j)
    else Gate(r, t, pos, i, j + 1)
  }

  /** It is the weight of the expert there: no other choice of the token sits at its place. */
  lemma {:induction false} GateIs(r: Routing, t: nat, pos: seq<int>, slots: seq<int>, k: nat, j: nat)
    requires r.Valid() && t < r.T && j <= k < r.U && Chunked(pos, slots) && InTerm(pos, slots, r.Sel(t, k))
    ensures Gate(r, t, pos, pos[r.Sel(t, k)], j) == r.Wgt(t, k)
    decreases k - j
  {
    if j < k {
      assert r.Sel(t, j) != r.Sel(t, k);
      GateIs(r, t, pos, slots, k, j + 1);
    }
  }

  /** What a kernel adds up along a row; `at` is the weighted output of whatever a slot holds. */
  ghost function Dot(ids: seq<int>, w: seq<real>, at: (int, real) -> real): real
    requires |ids| == |w|
  {
    if ids == [] then 0.0 else Dot(ids[..|ids| - 1], w[..|ids| - 1], at) + at(ids[|ids| - 1], w[|ids| - 1])
  }

  lemma DotSnoc(ids: seq<int>, w: seq<real>, s: int, v: real, at: (int, real) -> real)
    requires |ids| == |w|
    ensures Dot(ids + [s], w + [v], at) == Dot(ids, w, at) + at(s, v)
  {
    assert (ids + [s])[..|ids|] == ids && (w + [v])[..|ids|] == w;
  }

  /** A token's choices among the experts of a set; `y` is an expert's weighted output. */
  ghost function Among(r: Routing, t: nat, K: nat, experts: iset<nat>, y: (nat, real) -> real): real {
    if K == 0 then 0.0
    else Among(r, t, K - 1, experts, y) + if r.Sel(t, K - 1) in experts then y(r.Sel(t, K - 1), r.Wgt(t, K - 1))
        else 0.0
  }

  ghost function TermSet(pos: seq<int>, slots: seq<int>): iset<nat> {
    iset e: nat | InTerm(pos, slots, e)
  }

  function SlotAt(slots: seq<int>, i: nat): int {
    if i < |slots| then slots[i] else NONE
  }

  /** The slots and the weights of places. */
  function SlotsOf(xs: seq<nat>, slots: seq<int>): (ids: seq<int>)
    ensures |ids| == |xs| && forall k | 0 <= k < |xs| :: ids[k] == SlotAt(slots, xs[k])
  {
    seq(|xs|, k requires 0 <= k < |xs| => SlotAt(slots, xs[k]))
  }

  function GatesOf(r: Routing, t: nat, pos: seq<int>, xs: seq<nat>): (w: seq<real>)
    ensures |w| == |xs| && forall k | 0 <= k < |xs| :: w[k] == Gate(r, t, pos, xs[k], 0)
  {
    seq(|xs|, k requires 0 <= k < |xs| => Gate(r, t, pos, xs[k], 0))
  }

  ghost function ListDot(r: Routing, t: nat, pos: seq<int>, slots: seq<int>, xs: seq<nat>,
          at: (int, real) -> real): real {
    Dot(SlotsOf(xs, slots), GatesOf(r, t, pos, xs), at)
  }

  lemma ListDotSnoc(r: Routing, t: nat, pos: seq<int>, slots: seq<int>, xs: seq<nat>, i: nat, at: (int, real) -> real)
    ensures ListDot(r, t, pos, slots, xs + [i], at) ==
      ListDot(r, t, pos, slots, xs, at) + at(SlotAt(slots, i), Gate(r, t, pos, i, 0))
  {
    var ids, w, s, v := SlotsOf(xs, slots), GatesOf(r, t, pos, xs), SlotAt(slots, i), Gate(r, t, pos, i, 0);
    assert SlotsOf(xs + [i], slots) == ids + [s] && GatesOf(r, t, pos, xs + [i]) == w + [v];
    assert Dot(ids + [s], w + [v], at) == Dot(ids, w, at) + at(s, v) by {
      DotSnoc(ids, w, s, v, at);
    }
  }

  /** The term's slots hold its experts, by their outputs. */
  ghost predicate Outputs(pos: seq<int>, slots: seq<int>, at: (int, real) -> real, y: (nat, real) -> real) {
    forall e: nat, v: real | InTerm(pos, slots, e) :: at(slots[pos[e]], v) == y(e, v)
  }

  /** A token's list, as slots with their gate weights, is its choices among the term's experts. */
  lemma {:induction false} ListSum(r: Routing, t: nat, pos: seq<int>, slots: seq<int>, K: nat, at: (int, real) -> real,
          y: (nat, real) -> real)
    requires r.Valid() && t < r.T && K <= r.U && Chunked(pos, slots) && Outputs(pos, slots, at, y)
    ensures ListDot(r, t, pos, slots, PerTok(r, t, pos, slots, K), at) == Among(r, t, K, TermSet(pos, slots), y)
  {
    if K > 0 {
      ListSum(r, t, pos, slots, K - 1, at, y);
      var e := r.Sel(t, K - 1);
      if InTerm(pos, slots, e) {
        GateIs(r, t, pos, slots, K - 1, 0);
        ListDotSnoc(r, t, pos, slots, PerTok(r, t, pos, slots, K - 1), pos[e], at);
        assert at(SlotAt(slots, pos[e]), r.Wgt(t, K - 1)) == y(e, r.Wgt(t, K - 1));
      } else {
        assert PerTok(r, t, pos, slots, K) == PerTok(r, t, pos, slots, K - 1);
      }
    }
  }

  // ---------------------------------------------------------------- rows

  lemma {:induction false} Fits(a: seq<nat>, b: seq<nat>)
    requires Distinct(a) && forall x | x in a :: x in b
    ensures |a| <= |b|
  {
    if a != [] {
      var n := |a| - 1;
      assert a[n] in b;
      var k :| 0 <= k < |b| && b[k] == a[n];
      var rest := b[..k] + b[k + 1..];
      forall x | x in a[..n] ensures x in rest {
        var i :| 0 <= i < n && a[i] == x;
        assert a[i] != a[n] && a[i] in b;
        var m :| 0 <= m < |b| && b[m] == x;
        assert m < k || b[k + 1..][m - k - 1] == x;
      }
      Fits(a[..n], rest);
    }
  }

  /** A full row: every entry is a member's slot, and no slot stands there twice. */
  ghost predicate RowOk(ids: seq<int>, w: seq<real>, width: nat, members: seq<nat>, slots: seq<int>) {
    && |ids| == |w| == width
    && (forall a, b | 0 <= a < b < width :: ids[a] != ids[b])
    && (forall k | 0 <= k < width :: MemberSlot(ids[k], members, slots))
  }

  ghost predicate MemberSlot(s: int, members: seq<nat>, slots: seq<int>) {
    exists k | 0 <= k < |members| :: SlotAt(slots, members[k]) == s
  }

  /** The row of a list: its slots with their gate weights, then other slots at weight 0. */
  ghost predicate RowOf(ids: seq<int>, w: seq<real>, r: Routing, t: nat, pos: seq<int>, slots: seq<int>,
          lst: seq<nat>) {
    && |lst| <= |ids| == |w|
    && ids[..|lst|] == SlotsOf(lst, slots) && w[..|lst|] == GatesOf(r, t, pos, lst)
    && forall k | |lst| <= k < |w| :: w[k] == 0.0
  }

  /** Nothing is added at weight 0. */
  ghost predicate ZeroAtZero(at: (int, real) -> real) {
    forall s: int :: at(s, 0.0) == 0.0
  }

  lemma {:induction false} PaddedDot(ids: seq<int>, w: seq<real>, n: nat, at: (int, real) -> real)
    requires n <= |ids| == |w| && ZeroAtZero(at) && forall k | n <= k < |w| :: w[k] == 0.0
    ensures Dot(ids, w, at) == Dot(ids[..n], w[..n], at)
  {
    if n == |ids| {
      assert ids[..n] == ids && w[..n] == w;
    } else {
      var m := |ids| - 1;
      PaddedDot(ids[..m], w[..m], n, at);
      assert ids[..m][..n] == ids[..n] && w[..m][..n] == w[..n];
      var s, zero := ids[m], 0.0;
      assert w[m] == zero && at(s, zero) == 0.0;
    }
  }

  /** One token's row. */
  method BuildRow(r: Routing, t: nat, pos: seq<int>, slots: seq<int>, members: seq<nat>, lst: seq<nat>, width: nat)
    returns (ids: seq<int>, w: seq<real>)
    requires r.Valid() && t < r.T && Chunked(pos, slots) && Members(members, slots)
    requires Distinct(lst) && (forall i | i in lst :: i in members) && |lst| <= width <= |members|
    ensures RowOk(ids, w, width, members, slots) && RowOf(ids, w, r, t, pos, slots, lst)
  {
    ids, w := [], [];
    for k := 0 to |lst|
      invariant ids == SlotsOf(lst[..k], slots) && w == GatesOf(r, t, pos, lst[..k])
    {
      assert lst[..k + 1] == lst[..k] + [lst[k]];
      assert lst[k] in members;
      ids := ids + [slots[lst[k]]];
      var gate := FindGate(r, t, pos, lst[k]);
      w := w + [gate];
    }
    assert lst[..|lst|] == lst;
    ids, w := Pad(pos, slots, members, lst, width, ids, w);
  }

  /** A row filled up with members it does not have yet, at weight 0. They never run out. */
  method Pad(ghost pos: seq<int>, slots: seq<int>, members: seq<nat>, lst: seq<nat>, width: nat, ids0: seq<int>,
          w0: seq<real>)
    returns (ids: seq<int>, w: seq<real>)
    requires Chunked(pos, slots) && Members(members, slots) && ids0 == SlotsOf(lst, slots) && |w0| == |lst|
    requires Distinct(lst) && (forall i | i in lst :: i in members) && |lst| <= width <= |members|
    ensures RowOk(ids, w, width, members, slots)
    ensures ids[..|lst|] == ids0 && w[..|lst|] == w0 && forall k | |lst| <= k < |w| :: w[k] == 0.0
  {
    ids, w := ids0, w0;
    ghost var xs := lst;
    var m := 0;
    while m < |members| && |ids| < width
      invariant m <= |members| && |ids| == |w| <= width && lst <= xs && ids == SlotsOf(xs, slots)
      invariant Distinct(xs) && (forall i | i in xs :: i in members)
      invariant forall i | i in xs :: i in lst || i in members[..m]
      invariant forall k | 0 <= k < m :: members[k] in xs
      invariant |lst| <= |w| && w[..|lst|] == w0 && forall k | |lst| <= k < |w| :: w[k] == 0.0
    {
      var i := members[m];
      assert i in members && members[..m + 1] == members[..m] + [i];
      NotYet(members, m);
      m := m + 1;
      if i in lst {
        continue;
      }
      assert SlotsOf(xs + [i], slots) == SlotsOf(xs, slots) + [slots[i]];
      xs := xs + [i];
      ids := ids + [slots[i]];
      w := w + [0.0];
    }
    if |ids| < width {
      Fits(members, xs);
    }
    DistinctSlots(ids, xs, pos, slots, members);
    assert ids[..|lst|] == SlotsOf(lst, slots);
  }

  lemma NotYet(members: seq<nat>, m: nat)
    requires m < |members| && forall a, b | 0 <= a < b < |members| :: members[a] != members[b]
    ensures members[m] !in members[..m]
  {
  }

  lemma DistinctSlots(ids: seq<int>, xs: seq<nat>, pos: seq<int>, slots: seq<int>, members: seq<nat>)
    requires Chunked(pos, slots) && Members(members, slots) && Distinct(xs) && forall i | i in xs :: i in members
    requires ids == SlotsOf(xs, slots)
    ensures forall a, b | 0 <= a < b < |ids| :: ids[a] != ids[b]
    ensures forall k | 0 <= k < |ids| :: MemberSlot(ids[k], members, slots)
  {
    forall a, b | 0 <= a < b < |ids| ensures ids[a] != ids[b] {
      assert xs[a] in members && xs[b] in members && xs[a] != xs[b];
    }
    forall k | 0 <= k < |ids| ensures MemberSlot(ids[k], members, slots) {
      assert xs[k] in members;
      var m :| 0 <= m < |members| && members[m] == xs[k];
      assert SlotAt(slots, members[m]) == ids[k];
    }
  }

  method FindGate(r: Routing, t: nat, pos: seq<int>, i: nat) returns (wv: real)
    requires r.Valid() && t < r.T
    ensures wv == Gate(r, t, pos, i, 0)
  {
    wv := 0.0;
    for j := 0 to r.U
      invariant wv == 0.0 && Gate(r, t, pos, i, 0) == Gate(r, t, pos, i, j)
    {
      Index(t, j, r.U, r.T);
      var e := r.sel[t * r.U + j];
      if e < |pos| && pos[e] == i {
        return r.wgt[t * r.U + j];
      }
    }
  }

  // ---------------------------------------------------------------- terms

  /** A term's matrices: a full row for each token, or nothing where no token needs anything. */
  ghost predicate TermOk(tm: Term, r: Routing, pos: seq<int>, slots: seq<int>, members: seq<nat>) {
    if tm.width == 0 then forall t | 0 <= t < r.T :: PerTok(r, t, pos, slots, r.U) == []
    else |tm.ids| == |tm.w| == r.T && forall t | 0 <= t < r.T :: TermRow(tm, r, t, pos, slots, members)
  }

  ghost predicate TermRow(tm: Term, r: Routing, t: nat, pos: seq<int>, slots: seq<int>, members: seq<nat>)
    requires t < |tm.ids| == |tm.w|
  {
    && RowOk(tm.ids[t], tm.w[t], tm.width, members, slots)
    && RowOf(tm.ids[t], tm.w[t], r, t, pos, slots, PerTok(r, t, pos, slots, r.U))
  }

  ghost function TermSum(tm: Term, t: nat, at: (int, real) -> real): real {
    if tm.width == 0 || t >= |tm.ids| || t >= |tm.w| || |tm.ids[t]| != |tm.w[t]| then 0.0
        else Dot(tm.ids[t], tm.w[t], at)
  }

  method Choices(r: Routing, t: nat, pos: seq<int>, slots: seq<int>) returns (xs: seq<nat>)
    requires r.Valid() && t < r.T && Chunked(pos, slots) && InRange(r, pos)
    ensures xs == PerTok(r, t, pos, slots, r.U)
  {
    xs := [];
    for j := 0 to r.U
      invariant xs == PerTok(r, t, pos, slots, j)
    {
      Index(t, j, r.U, r.T);
      var i := pos[r.sel[t * r.U + j]];
      if i >= 0 && slots[i] >= 0 {
        xs := xs + [i];
      }
    }
  }

  /** Every token's list, and the width of the longest. */
  method Lists(r: Routing, pos: seq<int>, slots: seq<int>, ghost members: seq<nat>)
    returns (perTok: seq<seq<nat>>, width: nat)
    requires r.Valid() && Chunked(pos, slots) && InRange(r, pos) && Members(members, slots)
    ensures |perTok| == r.T && width <= |members|
    ensures forall k | 0 <= k < r.T :: perTok[k] == PerTok(r, k, pos, slots, r.U) && |perTok[k]| <= width
  {
    perTok, width := [], 0;
    for t := 0 to r.T
      invariant |perTok| == t && width <= |members|
      invariant forall k | 0 <= k < t :: perTok[k] == PerTok(r, k, pos, slots, r.U) && |perTok[k]| <= width
    {
      var xs := Choices(r, t, pos, slots);
      PerTokOnce(r, t, pos, slots, r.U);
      ListFits(xs, members, slots);
      perTok := perTok + [xs];
      width := if |xs| > width then |xs| else width;
    }
  }

  lemma ListFits(xs: seq<nat>, members: seq<nat>, slots: seq<int>)
    requires Members(members, slots) && Distinct(xs) && forall i | i in xs :: i < |slots| && slots[i] >= 0
    ensures |xs| <= |members| && forall i | i in xs :: i in members
  {
    Fits(xs, members);
  }

  method BuildTerm(r: Routing, pos: seq<int>, slots: seq<int>, members: seq<nat>) returns (tm: Term)
    requires r.Valid() && Chunked(pos, slots) && InRange(r, pos) && Members(members, slots)
    ensures TermOk(tm, r, pos, slots, members)
  {
    var perTok, width := Lists(r, pos, slots, members);
    var ids: seq<seq<int>>, w: seq<seq<real>> := [], [];
    if width == 0 {
      return Term(0, ids, w);
    }
    for t := 0 to r.T
      invariant |ids| == |w| == t
      invariant forall k | 0 <= k < t :: TermRow(Term(width, ids, w), r, k, pos, slots, members)
    {
      PerTokOnce(r, t, pos, slots, r.U);
      ListFits(perTok[t], members, slots);
      var row, gates := BuildRow(r, t, pos, slots, members, perTok[t], width);
      ghost var before := Term(width, ids, w);
      ids, w := ids + [row], w + [gates];
      forall k | 0 <= k < t ensures TermRow(Term(width, ids, w), r, k, pos, slots, members) {
        assert TermRow(before, r, k, pos, slots, members);
      }
    }
    tm := Term(width, ids, w);
  }

  /** What a term's kernel adds up for a token: its choices among the term's experts. */
  lemma TermIs(tm: Term, r: Routing, t: nat, pos: seq<int>, slots: seq<int>, members: seq<nat>,
          at: (int, real) -> real, y: (nat, real) -> real)
    requires ZeroAtZero(at) && r.Valid() && t < r.T && Chunked(pos, slots) && Outputs(pos, slots, at, y)
        && TermOk(tm, r, pos, slots, members)
    ensures TermSum(tm, t, at) == Among(r, t, r.U, TermSet(pos, slots), y)
  {
    var lst := PerTok(r, t, pos, slots, r.U);
    ListSum(r, t, pos, slots, r.U, at, y);
    if tm.width > 0 {
      assert TermRow(tm, r, t, pos, slots, members);
      PaddedDot(tm.ids[t], tm.w[t], |lst|, at);
    }
  }

  // ---------------------------------------------------------------- chunks

  /** One chunk as it was computed: where it starts in the batch's experts, its two terms, and the experts packed into
      the scratch, in slot order. */
  datatype Chunk = Chunk(from: nat, tier: Term, packed: Term, scratch: seq<nat>)

  /** What a chunk's places mean: each of its experts sits at one place, and has a slot in exactly one of the terms,
      whose content is that expert. */
  ghost predicate Placed(ids: seq<nat>, pos: seq<int>, ts: seq<int>, ss: seq<int>, tier: nat -> nat,
          scratch: seq<nat>) {
    && Chunked(pos, ts) && Chunked(pos, ss) && |ts| == |ss| == |ids|
    && (forall i | 0 <= i < |ids| :: ids[i] < |pos| && pos[ids[i]] == i)
    && (forall e | 0 <= e < |pos| && pos[e] >= 0 :: ids[pos[e]] == e)
    && (forall i | 0 <= i < |ids| :: (ts[i] >= 0) != (ss[i] >= 0))
    && (forall i | 0 <= i < |ids| && ts[i] >= 0 :: tier(ts[i]) == ids[i])
    && (forall i | 0 <= i < |ids| && ss[i] >= 0 :: ss[i] < |scratch| && scratch[ss[i]] == ids[i])
  }

  /** What a fetch hands out for a chunk: slots of the tier that hold its experts. */
  ghost predicate Fetched(ids: seq<nat>, out: seq<Source>, tier: nat -> nat) {
    |out| == |ids| && forall i | 0 <= i < |ids| && out[i].FromVram? :: tier(out[i].slot) == ids[i]
  }

  /** The experts in VRAM keep their slots; the others are packed into the scratch from 0. */
  method PlaceChunk(ids: seq<nat>, out: seq<Source>, nExpert: nat, ghost tier: nat -> nat)
    returns (pos: seq<int>, ts: seq<int>, ss: seq<int>, memT: seq<nat>, memS: seq<nat>, scratch: seq<nat>)
    requires Distinct(ids) && AllBelow(ids, nExpert) && Fetched(ids, out, tier)
    ensures |pos| == nExpert && Placed(ids, pos, ts, ss, tier, scratch) && Members(memT, ts) && Members(memS, ss)
    ensures |scratch| <= |ids|
  {
    pos := seq(nExpert, i => NONE);
    ts, ss, memT, memS, scratch := [], [], [], [], [];
    for i := 0 to |ids|
      invariant |pos| == nExpert && Placed(ids[..i], pos, ts, ss, tier, scratch)
      invariant Members(memT, ts) && Members(memS, ss) && |scratch| <= i
    {
      Prefix(ids, i);
      NotPlaced(ids, i, pos, ts, ss, tier, scratch);
      if out[i].FromVram? {
        PlacedInTier(ids[..i], ids[i], pos, ts, ss, tier, scratch, out[i].slot);
        ts, ss, memT := ToTier(ts, ss, memT, memS, out[i].slot);
      } else {
        PlacedInScratch(ids[..i], ids[i], pos, ts, ss, tier, scratch);
        ts, ss, memS := ToScratch(ts, ss, memT, memS, |scratch|);
        scratch := scratch + [ids[i]];
      }
      pos := pos[ids[i] := i];
    }
    assert ids[..|ids|] == ids;
  }

  lemma Prefix(ids: seq<nat>, i: nat)
    requires i < |ids|
    ensures ids[..i + 1] == ids[..i] + [ids[i]]
  {
  }

  method ToTier(ts: seq<int>, ss: seq<int>, memT: seq<nat>, ghost memS: seq<nat>, slot: nat)
    returns (ts': seq<int>, ss': seq<int>, mem': seq<nat>)
    requires |ts| == |ss| && Members(memT, ts) && Members(memS, ss)
    ensures ts' == ts + [slot] && ss' == ss + [NONE] && Members(mem', ts') && Members(memS, ss')
  {
    MembersMore(memT, ts, slot);
    MembersMore(memS, ss, NONE);
    ts', ss', mem' := ts + [slot], ss + [NONE], memT + [|ts|];
  }

  method ToScratch(ts: seq<int>, ss: seq<int>, ghost memT: seq<nat>, memS: seq<nat>, slot: nat)
    returns (ts': seq<int>, ss': seq<int>, mem': seq<nat>)
    requires |ts| == |ss| && Members(memT, ts) && Members(memS, ss)
    ensures ts' == ts + [NONE] && ss' == ss + [slot] && Members(memT, ts') && Members(mem', ss')
  {
    MembersMore(memT, ts, NONE);
    MembersMore(memS, ss, slot);
    ts', ss', mem' := ts + [NONE], ss + [slot], memS + [|ss|];
  }

  lemma MembersMore(mem: seq<nat>, slots: seq<int>, s: int)
    requires Members(mem, slots)
    ensures Members(if s >= 0 then mem + [|slots|] else mem, slots + [s])
  {
    var more := if s >= 0 then mem + [|slots|] else mem;
    forall a, b | 0 <= a < b < |more| ensures more[a] != more[b] {
      assert mem[a] in mem;
    }
    forall i ensures i in more <==> 0 <= i < |slots + [s]| && (slots + [s])[i] >= 0 {
      assert i in mem <==> 0 <= i < |slots| && slots[i] >= 0;
    }
  }

  lemma NotPlaced(ids: seq<nat>, i: nat, pos: seq<int>, ts: seq<int>, ss: seq<int>, tier: nat -> nat, scratch: seq<nat>)
    requires i < |ids| && Distinct(ids) && ids[i] < |pos| && Placed(ids[..i], pos, ts, ss, tier, scratch)
    ensures pos[ids[i]] < 0 && ids[i] !in ids[..i]
  {
  }

  /** One more expert, at the next place. */
  lemma ChunkedMore(pos: seq<int>, slots: seq<int>, e: nat, s: int)
    requires Chunked(pos, slots) && e < |pos| && pos[e] < 0
    requires s >= 0 ==> forall i | 0 <= i < |slots| :: slots[i] != s
    ensures Chunked(pos[e := |slots|], slots + [s])
  {
    var q, t := pos[e := |slots|], slots + [s];
    forall a, b | 0 <= a < b < |q| && q[a] >= 0 ensures q[a] != q[b] {
      assert pos[a] < |slots| && pos[b] < |slots|;
    }
    forall a, b | 0 <= a < b < |t| && t[a] >= 0 ensures t[a] != t[b] {
      assert b < |slots| ==> slots[a] != slots[b];
    }
  }

  lemma PlacedInTier(ids: seq<nat>, e: nat, pos: seq<int>, ts: seq<int>, ss: seq<int>, tier: nat -> nat,
          scratch: seq<nat>, g: nat)
    requires Placed(ids, pos, ts, ss, tier, scratch) && e < |pos| && pos[e] < 0 && e !in ids && tier(g) == e
    ensures Placed(ids + [e], pos[e := |ids|], ts + [g], ss + [NONE], tier, scratch)
  {
    forall i | 0 <= i < |ts| ensures ts[i] != g {
      assert ts[i] >= 0 ==> tier(ts[i]) == ids[i];
    }
    ChunkedMore(pos, ts, e, g);
    ChunkedMore(pos, ss, e, NONE);
    AtPlaces(ids, e, pos, pos[e := |ids|]);
  }

  lemma PlacedInScratch(ids: seq<nat>, e: nat, pos: seq<int>, ts: seq<int>, ss: seq<int>, tier: nat -> nat,
          scratch: seq<nat>)
    requires Placed(ids, pos, ts, ss, tier, scratch) && e < |pos| && pos[e] < 0 && e !in ids
    ensures Placed(ids + [e], pos[e := |ids|], ts + [NONE], ss + [|scratch|], tier, scratch + [e])
  {
    forall i | 0 <= i < |ss| ensures ss[i] != |scratch| {
      assert ss[i] >= 0 ==> ss[i] < |scratch|;
    }
    ChunkedMore(pos, ts, e, NONE);
    ChunkedMore(pos, ss, e, |scratch|);
    AtPlaces(ids, e, pos, pos[e := |ids|]);
  }

  lemma AtPlaces(ids: seq<nat>, e: nat, pos: seq<int>, now: seq<int>)
    requires (forall i | 0 <= i < |ids| :: ids[i] < |pos| && pos[ids[i]] == i) && e < |pos| && pos[e] < 0 && e !in ids
    requires forall x | 0 <= x < |pos| && pos[x] >= 0 :: pos[x] < |ids| && ids[pos[x]] == x
    requires now == pos[e := |ids|]
    ensures forall i | 0 <= i <= |ids| :: (ids + [e])[i] < |pos| && now[(ids + [e])[i]] == i
    ensures forall x | 0 <= x < |now| && now[x] >= 0 :: now[x] <= |ids| && (ids + [e])[now[x]] == x
  {
    forall i | 0 <= i < |ids| ensures ids[i] != e {
      assert ids[i] in ids;
    }
  }

  ghost function Scaled(v: real, x: real): real {
    v * x
  }

  ghost function Weighted(y: nat -> real): (nat, real) -> real {
    (e: nat, v: real) => Scaled(v, y(e))
  }

  ghost function TierOut(tier: nat -> nat, y: nat -> real): (int, real) -> real {
    (s: int, v: real) => if s >= 0 then Scaled(v, y(tier(s))) else 0.0
  }

  ghost function ScratchOut(scratch: seq<nat>, y: nat -> real): (int, real) -> real {
    (s: int, v: real) => if 0 <= s < |scratch| then Scaled(v, y(scratch[s])) else 0.0
  }

  /** What a chunk's graph adds for a token. */
  ghost function ChunkSum(c: Chunk, t: nat, tier: (nat, nat) -> nat, y: nat -> real): real {
    TermSum(c.tier, t, TierOut(TierAt(tier, c.from), y)) + TermSum(c.packed, t, ScratchOut(c.scratch, y))
  }

  ghost function TierAt(tier: (nat, nat) -> nat, from: nat): nat -> nat {
    (s: nat) => tier(from, s)
  }

  ghost function Total(cs: seq<Chunk>, t: nat, tier: (nat, nat) -> nat, y: nat -> real): real {
    if cs == [] then 0.0 else Total(cs[..|cs| - 1], t, tier, y) + ChunkSum(cs[|cs| - 1], t, tier, y)
  }

  // ---------------------------------------------------------------- sums over sets of experts

  lemma {:induction false} AmongApart(r: Routing, t: nat, K: nat, a: iset<nat>, b: iset<nat>, y: (nat, real) -> real)
    requires a !! b
    ensures Among(r, t, K, a + b, y) == Among(r, t, K, a, y) + Among(r, t, K, b, y)
  {
    if K > 0 {
      AmongApart(r, t, K - 1, a, b, y);
    }
  }

  lemma {:induction false} AmongSame(r: Routing, t: nat, K: nat, a: iset<nat>, b: iset<nat>, y: (nat, real) -> real)
    requires forall j | 0 <= j < K :: r.Sel(t, j) in a <==> r.Sel(t, j) in b
    ensures Among(r, t, K, a, y) == Among(r, t, K, b, y)
  {
    if K > 0 {
      AmongSame(r, t, K - 1, a, b, y);
    }
  }

  lemma {:induction false} AmongAll(r: Routing, t: nat, K: nat, a: iset<nat>, y: nat -> real)
    requires forall j | 0 <= j < K :: r.Sel(t, j) in a
    ensures Among(r, t, K, a, Weighted(y)) == Sum(K, Choice(r, t, y))
  {
    if K > 0 {
      AmongAll(r, t, K - 1, a, y);
    }
  }

  lemma {:induction false} AmongNone(r: Routing, t: nat, K: nat, a: iset<nat>, y: (nat, real) -> real)
    requires forall j | 0 <= j < K :: r.Sel(t, j) !in a
    ensures Among(r, t, K, a, y) == 0.0
  {
    if K > 0 {
      AmongNone(r, t, K - 1, a, y);
    }
  }

  ghost function Set(ids: seq<nat>): iset<nat> {
    iset e | e in ids
  }

  /** A chunk's two terms together are the choices among its experts. */
  lemma ChunkIs(c: Chunk, r: Routing, t: nat, ids: seq<nat>, pos: seq<int>, ts: seq<int>, ss: seq<int>,
                memT: seq<nat>, memS: seq<nat>, tier: (nat, nat) -> nat, y: nat -> real)
    requires r.Valid() && t < r.T && Placed(ids, pos, ts, ss, TierAt(tier, c.from), c.scratch)
    requires TermOk(c.tier, r, pos, ts, memT) && TermOk(c.packed, r, pos, ss, memS)
    ensures ChunkSum(c, t, tier, y) == Among(r, t, r.U, Set(ids), Weighted(y))
  {
    var a, b := TermSet(pos, ts), TermSet(pos, ss);
    TermsOutput(ids, pos, ts, ss, TierAt(tier, c.from), c.scratch, y);
    TermIs(c.tier, r, t, pos, ts, memT, TierOut(TierAt(tier, c.from), y), Weighted(y));
    TermIs(c.packed, r, t, pos, ss, memS, ScratchOut(c.scratch, y), Weighted(y));
    TermsSplit(ids, pos, ts, ss, TierAt(tier, c.from), c.scratch);
    AmongApart(r, t, r.U, a, b, Weighted(y));
    AmongSame(r, t, r.U, a + b, Set(ids), Weighted(y));
  }

  lemma TermsOutput(ids: seq<nat>, pos: seq<int>, ts: seq<int>, ss: seq<int>, tier: nat -> nat, scratch: seq<nat>,
          y: nat -> real)
    requires Placed(ids, pos, ts, ss, tier, scratch)
    ensures Outputs(pos, ts, TierOut(tier, y), Weighted(y)) && Outputs(pos, ss, ScratchOut(scratch, y), Weighted(y))
    ensures ZeroAtZero(TierOut(tier, y)) && ZeroAtZero(ScratchOut(scratch, y))
  {
  }

  lemma TermsSplit(ids: seq<nat>, pos: seq<int>, ts: seq<int>, ss: seq<int>, tier: nat -> nat, scratch: seq<nat>)
    requires Placed(ids, pos, ts, ss, tier, scratch)
    ensures TermSet(pos, ts) !! TermSet(pos, ss)
    ensures forall e :: e in TermSet(pos, ts) + TermSet(pos, ss) <==> e in Set(ids)
  {
    forall e: nat ensures InTerm(pos, ts, e) || InTerm(pos, ss, e) <==> e in ids {
      if e in ids {
        var i :| 0 <= i < |ids| && ids[i] == e;
        assert pos[e] == i;
      }
    }
    forall e: nat ensures !(InTerm(pos, ts, e) && InTerm(pos, ss, e)) {
    }
  }

  // ---------------------------------------------------------------- the whole batch

  predicate AllBelow(xs: seq<nat>, n: nat) {
    forall k | 0 <= k < |xs| :: xs[k] < n
  }

  /** Rectangular, and no slot twice in a row. */
  ghost predicate FullRows(tm: Term, T: nat) {
    tm.width > 0 ==> |tm.ids| == |tm.w| == T && forall t | 0 <= t < T :: FullRow(tm.ids[t], tm.w[t], tm.width)
  }

  ghost predicate FullRow(ids: seq<int>, w: seq<real>, width: nat) {
    |ids| == |w| == width && forall a, b | 0 <= a < b < width :: ids[a] != ids[b]
  }

  lemma RowsAreFull(tm: Term, r: Routing, pos: seq<int>, slots: seq<int>, members: seq<nat>)
    requires TermOk(tm, r, pos, slots, members)
    ensures FullRows(tm, r.T)
  {
    forall t | 0 <= t < r.T && tm.width > 0 ensures FullRow(tm.ids[t], tm.w[t], tm.width) {
      assert TermRow(tm, r, t, pos, slots, members);
    }
  }

  /** What every chunk keeps: its scratch fits, and its matrices can be given to the kernels. */
  ghost predicate Computable(c: Chunk, chunk: nat, T: nat) {
    |c.scratch| <= chunk && FullRows(c.tier, T) && FullRows(c.packed, T)
  }

  ghost predicate AllComputable(cs: seq<Chunk>, chunk: nat, T: nat) {
    forall k | 0 <= k < |cs| :: Computable(cs[k], chunk, T)
  }

  /** One chunk: `out` is what its fetch handed out, `tier` what the VRAM tier's slots hold meanwhile. */
  method OneChunk(r: Routing, nExpert: nat, ids: seq<nat>, c0: nat, out: seq<Source>, ghost tier: (nat, nat) -> nat)
    returns (c: Chunk)
    requires r.Valid() && AllBelow(r.sel, nExpert) && Distinct(ids) && AllBelow(ids, nExpert)
    requires Fetched(ids, out, TierAt(tier, c0))
    ensures c.from == c0 && Computable(c, |ids|, r.T)
    ensures forall t: nat, y: nat -> real | t < r.T ::
        ChunkSum(c, t, tier, y) == Among(r, t, r.U, Set(ids), Weighted(y))
  {
    var pos, ts, ss, memT, memS, scratch := PlaceChunk(ids, out, nExpert, TierAt(tier, c0));
    var tt := BuildTerm(r, pos, ts, memT);
    var sc := BuildTerm(r, pos, ss, memS);
    c := Chunk(c0, tt, sc, scratch);
    RowsAreFull(tt, r, pos, ts, memT);
    RowsAreFull(sc, r, pos, ss, memS);
    forall t: nat, y: nat -> real | t < r.T ensures ChunkSum(c, t, tier, y) == Among(r, t, r.U, Set(ids), Weighted(y)) {
      ChunkIs(c, r, t, ids, pos, ts, ss, memT, memS, tier, y);
    }
  }

  /** The chunks so far add up the choices among the experts so far. */
  ghost predicate Computed(cs: seq<Chunk>, r: Routing, ids: seq<nat>, tier: (nat, nat) -> nat) {
    forall t: nat, y: nat -> real | t < r.T :: Total(cs, t, tier, y) == Among(r, t, r.U, Set(ids), Weighted(y))
  }

  lemma ComputedMore(cs: seq<Chunk>, one: Chunk, r: Routing, uniq: seq<nat>, c0: nat, n: nat, tier: (nat, nat) -> nat)
    requires c0 + n <= |uniq| && Distinct(uniq) && Computed(cs, r, uniq[..c0], tier)
    requires forall t: nat, y: nat -> real | t < r.T ::
        ChunkSum(one, t, tier, y) == Among(r, t, r.U, Set(uniq[c0..c0 + n]), Weighted(y))
    ensures Computed(cs + [one], r, uniq[..c0 + n], tier)
    ensures one.tier.width == 0 && one.packed.width == 0 ==> Computed(cs, r, uniq[..c0 + n], tier)
  {
    forall t: nat, y: nat -> real | t < r.T
      ensures Total(cs, t, tier, y) + ChunkSum(one, t, tier, y) == Among(r, t, r.U, Set(uniq[..c0 + n]), Weighted(y))
      ensures Total(cs + [one], t, tier, y) == Total(cs, t, tier, y) + ChunkSum(one, t, tier, y)
    {
      AmongMore(r, t, uniq, c0, n, Weighted(y));
      TotalSnoc(cs, one, t, tier, y);
    }
    forall t: nat, y: nat -> real | t < r.T && one.tier.width == 0 && one.packed.width == 0
      ensures ChunkSum(one, t, tier, y) == 0.0
    {
    }
  }

  lemma TotalSnoc(cs: seq<Chunk>, one: Chunk, t: nat, tier: (nat, nat) -> nat, y: nat -> real)
    ensures Total(cs + [one], t, tier, y) == Total(cs, t, tier, y) + ChunkSum(one, t, tier, y)
  {
    assert (cs + [one])[..|cs|] == cs;
  }

  lemma AmongMore(r: Routing, t: nat, uniq: seq<nat>, c0: nat, n: nat, y: (nat, real) -> real)
    requires c0 + n <= |uniq| && Distinct(uniq)
    ensures Among(r, t, r.U, Set(uniq[..c0 + n]), y)
         == Among(r, t, r.U, Set(uniq[..c0]), y) + Among(r, t, r.U, Set(uniq[c0..c0 + n]), y)
  {
    var a, b := Set(uniq[..c0]), Set(uniq[c0..c0 + n]);
    assert uniq[..c0 + n] == uniq[..c0] + uniq[c0..c0 + n];
    SetsApart(uniq, c0, n);
    AmongApart(r, t, r.U, a, b, y);
    AmongSame(r, t, r.U, a + b, Set(uniq[..c0 + n]), y);
  }

  lemma NoneComputed(r: Routing, tier: (nat, nat) -> nat)
    ensures Computed([], r, [], tier)
  {
    forall t: nat, y: nat -> real | t < r.T ensures Total([], t, tier, y) == Among(r, t, r.U, Set([]), Weighted(y)) {
      AmongNone(r, t, r.U, Set([]), Weighted(y));
    }
  }

  lemma SliceDistinct(uniq: seq<nat>, a: nat, b: nat, n: nat)
    requires a <= b <= |uniq| && (forall i, k | 0 <= i < k < |uniq| :: uniq[i] < uniq[k]) && forall e | e in uniq ::
        e < n
    ensures Distinct(uniq[a..b]) && Distinct(uniq) && AllBelow(uniq[a..b], n)
  {
    forall i | 0 <= i < b - a ensures uniq[a..b][i] < n {
      assert uniq[a + i] in uniq;
    }
  }

  lemma SetsApart(uniq: seq<nat>, c0: nat, n: nat)
    requires c0 + n <= |uniq| && Distinct(uniq)
    ensures Set(uniq[..c0]) !! Set(uniq[c0..c0 + n])
  {
    forall e | e in uniq[..c0] ensures e !in uniq[c0..c0 + n] {
      var i :| 0 <= i < c0 && uniq[i] == e;
      var later := uniq[c0..c0 + n];
      forall k | 0 <= k < |later| ensures later[k] != e {
        assert later[k] == uniq[c0 + k];
      }
    }
  }

  lemma AllComputed(cs: seq<Chunk>, r: Routing, uniq: seq<nat>, nExpert: nat, tier: (nat, nat) -> nat)
    requires r.Valid() && Computed(cs, r, uniq, tier) && (forall e :: e in uniq <==> e in r.sel && e < nExpert)
    requires AllBelow(r.sel, nExpert)
    ensures forall t: nat, y: nat -> real | t < r.T :: Total(cs, t, tier, y) == r.Routed(t, y)
  {
    forall t: nat, y: nat -> real | t < r.T ensures Total(cs, t, tier, y) == r.Routed(t, y) {
      forall j | 0 <= j < r.U ensures r.Sel(t, j) in Set(uniq) {
        Index(t, j, r.U, r.T);
        assert r.sel[t * r.U + j] in r.sel;
      }
      AmongAll(r, t, r.U, Set(uniq), y);
    }
  }
}
