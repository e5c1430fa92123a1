/** One layer's routed experts over three places: the layer's own graph by a residency table, the next graph's fold of
    what this fetch promoted, and the CPU. Every (position, expert) pair counts once, with its gate weight. */
module MoeSplit {
  import opened TierState
  import opened TierFetch

  // ---------------------------------------------------------------- sums

  /** The sum of f over the indices below n. */
  ghost function Sum(n: nat, f: int -> real): real {
    if n == 0 then 0.0 else Sum(n - 1, f) + f(n - 1)
  }

  lemma {:induction false} SumSame(n: nat, f: int -> real, g: int -> real)
    requires forall i | 0 <= i < n :: f(i) == g(i)
    ensures Sum(n, f) == Sum(n, g)
  {
    if n > 0 { SumSame(n - 1, f, g); }
  }

  lemma {:induction false} SumAdd(n: nat, f: int -> real, g: int -> real, h: int -> real)
    requires forall i | 0 <= i < n :: h(i) == f(i) + g(i)
    ensures Sum(n, h) == Sum(n, f) + Sum(n, g)
  {
    if n > 0 { SumAdd(n - 1, f, g, h); }
  }

  /** Two sums that differ at one index. */
  lemma {:induction false} SumBump(n: nat, f: int -> real, g: int -> real, at: nat, d: real)
    requires at < n && g(at) == f(at) + d
    requires forall i | 0 <= i < n && i != at :: g(i) == f(i)
    ensures Sum(n, g) == Sum(n, f) + d
  {
    if at == n - 1 { SumSame(n - 1, f, g); } else { SumBump(n - 1, f, g, at, d); }
  }

  // ---------------------------------------------------------------- routing

  /** A step's routing: U experts for each of T positions, position-major, each position's all different. */
  datatype Routing = Routing(U: nat, T: nat, sel: seq<nat>, wgt: seq<real>) {
    ghost predicate Valid() {
      && |sel| == |wgt| == U * T
      && forall j, a, b | 0 <= j < T && 0 <= a < b < U :: Sel(j, a) != Sel(j, b)
    }

    function Sel(j: int, k: int): nat {
      if 0 <= j * U + k < |sel| then sel[j * U + k] else 0
    }

    function Wgt(j: int, k: int): real {
      if 0 <= j * U + k < |wgt| then wgt[j * U + k] else 0.0
    }

    /** What position j's mixture is: every routed expert once, with its gate weight (y: an expert's output there). */
    ghost function Routed(j: nat, y: nat -> real): real {
      Sum(U, Choice(this, j, y))
    }
  }

  /** The step's experts, each once, in the order they are first met. */
  method UniqueIds(r: Routing) returns (ids: seq<nat>)
    requires r.Valid()
    ensures Distinct(ids)
    ensures forall e :: e in ids <==> e in r.sel
  {
    ids := [];
    for k := 0 to |r.sel|
      invariant Distinct(ids)
      invariant forall e :: e in ids <==> e in r.sel[..k]
    {
      assert r.sel[..k + 1] == r.sel[..k] + [r.sel[k]];
      var dup := false;
      for q := 0 to |ids|
        invariant !dup ==> r.sel[k] !in ids[..q]
        invariant dup ==> r.sel[k] in ids
      {
        if ids[q] == r.sel[k] { dup := true; break; }
        assert ids[..q + 1] == ids[..q] + [ids[q]];
      }
      if !dup {
        assert ids[..|ids|] == ids;
        ids := ids + [r.sel[k]];
      }
    }
    assert r.sel[..|r.sel|] == r.sel;
  }

  /** The weight of expert e at position j: its gate weight if it is routed there, else 0. */
  method WeightOf(r: Routing, e: nat, j: nat) returns (w: real)
    requires r.Valid() && j < r.T
    ensures w == Weight(r, j, e, r.U)
  {
    for k := 0 to r.U
      invariant Weight(r, j, e, k) == 0.0 && forall a | 0 <= a < k :: r.Sel(j, a) != e
    {
      Index(j, k, r.U, r.T);
      if r.sel[j * r.U + k] == e {
        WeightOnce(r, j, e, k, r.U);
        return r.wgt[j * r.U + k];
      }
    }
    return 0.0;
  }

  lemma Index(j: nat, k: nat, U: nat, T: nat)
    requires j < T && k < U
    ensures j * U + k < U * T
  {
    assert (j + 1) * U <= T * U;
  }

  /** The gate weight the first K choices of position j give expert e. */
  ghost function Weight(r: Routing, j: nat, e: nat, K: nat): real {
    if K == 0 then 0.0 else Weight(r, j, e, K - 1) + if r.Sel(j, K - 1) == e then r.Wgt(j, K - 1) else 0.0
  }

  lemma {:induction false} WeightOnce(r: Routing, j: nat, e: nat, k: nat, K: nat)
    requires r.Valid() && j < r.T && k < K <= r.U && r.Sel(j, k) == e && Weight(r, j, e, k) == 0.0
    ensures Weight(r, j, e, K) == r.Wgt(j, k)
  {
    if K > k + 1 { WeightOnce(r, j, e, k, K - 1); }
  }

  /** The i-th distinct expert's share of position j, after the first K choices. */
  ghost function Share(r: Routing, j: nat, ids: seq<nat>, y: nat -> real, K: nat): int -> real {
    i => if 0 <= i < |ids| then Weight(r, j, ids[i], K) * y(ids[i]) else 0.0
  }

  ghost function Choice(r: Routing, j: nat, y: nat -> real): int -> real {
    k => r.Wgt(j, k) * y(r.Sel(j, k))
  }

  /** One more choice gives its expert its share and nobody else anything. */
  lemma ShareStep(r: Routing, j: nat, ids: seq<nat>, y: nat -> real, K: nat, i: nat)
    requires K > 0 && i < |ids|
    ensures Share(r, j, ids, y, K)(i) ==
      Share(r, j, ids, y, K - 1)(i) + if ids[i] == r.Sel(j, K - 1) then Choice(r, j, y)(K - 1) else 0.0
  {
    var a, b, c := Weight(r, j, ids[i], K - 1), r.Wgt(j, K - 1), y(ids[i]);
    assert (a + b) * c == a * c + b * c;
  }

  /** Summing over the distinct experts with their weights is summing over the choices. */
  lemma {:induction false} Regroup(r: Routing, j: nat, ids: seq<nat>, y: nat -> real, K: nat)
    requires Distinct(ids) && forall k | 0 <= k < K :: r.Sel(j, k) in ids
    ensures Sum(|ids|, Share(r, j, ids, y, K)) == Sum(K, Choice(r, j, y))
  {
    var f, h := Share(r, j, ids, y, K), Choice(r, j, y);
    if K == 0 {
      SumZero(|ids|, f);
    } else {
      var g := Share(r, j, ids, y, K - 1);
      Regroup(r, j, ids, y, K - 1);
      var at: nat :| at < |ids| && ids[at] == r.Sel(j, K - 1);
      forall i | 0 <= i < |ids| ensures f(i) == g(i) + if i == at then h(K - 1) else 0.0 {
        ShareStep(r, j, ids, y, K, i);
      }
      SumBump(|ids|, g, f, at, h(K - 1));
    }
  }

  lemma {:induction false} SumZero(n: nat, f: int -> real)
    requires forall i | 0 <= i < n :: f(i) == 0.0
    ensures Sum(n, f) == 0.0
  {
    if n > 0 { SumZero(n - 1, f); }
  }

  // ---------------------------------------------------------------- the three places

  datatype Place = InGraph | InFold | OnCpu

  /** Where an expert is computed, by what the fetch handed out for it. */
  function PlaceOf(h: Handle): Place {
    if h.onGpu then (if h.late then InFold else InGraph) else OnCpu
  }

  /** The indices below n with a property, ascending. */
  function Pick(hs: seq<Handle>, place: Place, n: nat): seq<nat>
    requires n <= |hs|
  {
    if n == 0 then [] else Pick(hs, place, n - 1) + if PlaceOf(hs[n - 1]) == place then [n - 1] else []
  }

  /** The fetched experts dealt to their places, in selection order; the CPU's split by whether their block is there. */
  method Deal(hs: seq<Handle>, ready: seq<bool>)
    returns (onGpu: seq<nat>, late: seq<nat>, readyCpu: seq<nat>, lateCpu: seq<nat>, allCpu: seq<nat>)
    requires |ready| == |hs|
    ensures Dealt(hs, ready, |hs|, onGpu, late, readyCpu, lateCpu, allCpu)
  {
    hide Dealt;
    DealtNone(hs, ready);
    onGpu, late, readyCpu, lateCpu, allCpu := [], [], [], [], [];
    for e := 0 to |hs|
      invariant Dealt(hs, ready, e, onGpu, late, readyCpu, lateCpu, allCpu)
    {
      DealtNext(hs, ready, e, onGpu, late, readyCpu, lateCpu, allCpu);
      if hs[e].onGpu {
        if hs[e].late { late := late + [e]; } else { onGpu := onGpu + [e]; }
        continue;
      }
      allCpu := allCpu + [e];
      if ready[e] { readyCpu := readyCpu + [e]; } else { lateCpu := lateCpu + [e]; }
    }
  }

  /** The first e experts at their places. */
  ghost predicate Dealt(hs: seq<Handle>, ready: seq<bool>, e: nat, onGpu: seq<nat>, late: seq<nat>, a: seq<nat>,
          b: seq<nat>, all: seq<nat>)
    requires e <= |hs| == |ready|
  {
    && onGpu == Pick(hs, InGraph, e) && late == Pick(hs, InFold, e) && all == Pick(hs, OnCpu, e)
    && SplitBy(ready, e, a, b, all)
  }

  lemma DealtNone(hs: seq<Handle>, ready: seq<bool>)
    requires |ready| == |hs|
    ensures Dealt(hs, ready, 0, [], [], [], [], [])
  {
  }

  lemma DealtNext(hs: seq<Handle>, ready: seq<bool>, e: nat, onGpu: seq<nat>, late: seq<nat>, a: seq<nat>, b: seq<nat>,
          all: seq<nat>)
    requires e < |hs| == |ready| && Dealt(hs, ready, e, onGpu, late, a, b, all)
    ensures hs[e].onGpu && hs[e].late ==> Dealt(hs, ready, e + 1, onGpu, late + [e], a, b, all)
    ensures hs[e].onGpu && !hs[e].late ==> Dealt(hs, ready, e + 1, onGpu + [e], late, a, b, all)
    ensures !hs[e].onGpu && ready[e] ==> Dealt(hs, ready, e + 1, onGpu, late, a + [e], b, all + [e])
    ensures !hs[e].onGpu && !ready[e] ==> Dealt(hs, ready, e + 1, onGpu, late, a, b + [e], all + [e])
  {
    PickNext(hs, e);
    SplitMore(ready, e, a, b, all);
    SplitSkip(ready, e, a, b, all);
  }

  lemma {:induction false} PickPlaces(hs: seq<Handle>, place: Place, n: nat)
    requires n <= |hs|
    ensures forall i | i in Pick(hs, place, n) :: i < n && PlaceOf(hs[i]) == place
  {
    if n > 0 { PickPlaces(hs, place, n - 1); }
  }

  lemma PickNext(hs: seq<Handle>, e: nat)
    requires e < |hs|
    ensures Pick(hs, InGraph, e + 1) == Pick(hs, InGraph, e) + if hs[e].onGpu && !hs[e].late then [e] else []
    ensures Pick(hs, InFold, e + 1) == Pick(hs, InFold, e) + if hs[e].onGpu && hs[e].late then [e] else []
    ensures Pick(hs, OnCpu, e + 1) == Pick(hs, OnCpu, e) + if !hs[e].onGpu then [e] else []
  {
  }

  lemma SplitSkip(ready: seq<bool>, e: nat, a: seq<nat>, b: seq<nat>, all: seq<nat>)
    requires e < |ready| && SplitBy(ready, e, a, b, all)
    ensures SplitBy(ready, e + 1, a, b, all)
  {
  }

  /** The CPU's experts below e, split by whether their block is there. */
  ghost predicate SplitBy(ready: seq<bool>, e: nat, a: seq<nat>, b: seq<nat>, all: seq<nat>)
    requires e <= |ready|
  {
    && multiset(a + b) == multiset(all)
    && (forall i | i in a :: i < e && ready[i]) && (forall i | i in b :: i < e && !ready[i])
  }

  lemma SplitMore(ready: seq<bool>, e: nat, a: seq<nat>, b: seq<nat>, all: seq<nat>)
    requires e < |ready| && SplitBy(ready, e, a, b, all)
    ensures if ready[e] then SplitBy(ready, e + 1, a + [e], b, all + [e])
        else SplitBy(ready, e + 1, a, b + [e], all + [e])
  {
    assert a + (b + [e]) == (a + b) + [e];
    assert (a + [e]) + b == a + ([e] + b);
  }

  ghost function Over(xs: seq<nat>, f: int -> real): int -> real {
    k => if 0 <= k < |xs| then f(xs[k]) else 0.0
  }

  ghost function At(hs: seq<Handle>, place: Place, f: int -> real): int -> real {
    i => if 0 <= i < |hs| && PlaceOf(hs[i]) == place then f(i) else 0.0
  }

  /** Summing along one place's list is summing what that place has of every expert. */
  lemma {:induction false} PickSum(hs: seq<Handle>, place: Place, n: nat, f: int -> real)
    requires n <= |hs|
    ensures Sum(|Pick(hs, place, n)|, Over(Pick(hs, place, n), f)) == Sum(n, At(hs, place, f))
  {
    if n > 0 {
      PickSum(hs, place, n - 1, f);
      var a, g := Pick(hs, place, n - 1), At(hs, place, f);
      assert Sum(n, g) == Sum(n - 1, g) + g(n - 1);
      if PlaceOf(hs[n - 1]) == place {
        assert Pick(hs, place, n) == a + [n - 1];
        OverSnoc(a, n - 1, f);
      } else {
        assert Pick(hs, place, n) == a;
      }
    }
  }

  lemma OverSnoc(xs: seq<nat>, x: nat, f: int -> real)
    ensures Sum(|xs + [x]|, Over(xs + [x], f)) == Sum(|xs|, Over(xs, f)) + f(x)
  {
    SumSame(|xs|, Over(xs, f), Over(xs + [x], f));
  }

  /** x added up n times; nothing is computed more than twice. */
  ghost function Repeated(n: nat, x: real): real
    requires n <= 2
  {
    if n == 0 then 0.0 else if n == 1 then x else x + x
  }

  /** What a layer's step computes with: the residency table its graph read, the fetch's handles, and which expert's
      bytes each slot of the two tiers holds. */
  datatype Step = Step(r: Routing, ids: seq<nat>, mask: seq<bool>, slot: seq<nat>, hs: seq<Handle>, vram: nat -> nat,
      ram: nat -> nat) {
    ghost predicate Valid() {
      && r.Valid() && Distinct(ids) && |hs| == |ids| && |mask| == |slot|
      && (forall j, k | 0 <= j < r.T && 0 <= k < r.U :: r.Sel(j, k) in ids)
      && (forall i | 0 <= i < |ids| :: ids[i] < |mask|)
      // the slots hold what the table and the handles say
      && (forall i | 0 <= i < |ids| && mask[ids[i]] :: vram(slot[ids[i]]) == ids[i])
      && (forall i | 0 <= i < |ids| :: (if hs[i].onGpu then vram(hs[i].slot) else ram(hs[i].slot)) == ids[i])
    }

    /** The graph's sum over a position's own choices, by the table; a masked-out choice has weight 0. */
    ghost function Graph(j: nat, y: nat -> real): real {
      r.Routed(j, Seen(y))
    }

    /** An expert's output as the table reaches it. */
    ghost function Seen(y: nat -> real): nat -> real {
      (e: nat) => if e < |mask| && e < |slot| && mask[e] then y(vram(slot[e])) else 0.0
    }

    /** One row of the fold or of the CPU rows: expert ids[i] as its handle's slot has it, with position j's weight. */
    ghost function Row(j: nat, y: nat -> real): int -> real {
      i => if 0 <= i < |ids| && i < |hs|
          then Weight(r, j, ids[i], r.U) * y(if hs[i].onGpu then vram(hs[i].slot) else ram(hs[i].slot)) else 0.0
    }

    ghost function Fold(j: nat, y: nat -> real): real {
      Sum(|Pick(hs, InFold, |hs|)|, Over(Pick(hs, InFold, |hs|), Row(j, y)))
    }

    ghost function Cpu(j: nat, y: nat -> real): real {
      Sum(|Pick(hs, OnCpu, |hs|)|, Over(Pick(hs, OnCpu, |hs|), Row(j, y)))
    }

    /** How many times the step computes its i-th expert. */
    ghost function Times(i: nat): nat
      requires i < |ids| && i < |hs| && ids[i] < |mask|
    {
      (if mask[ids[i]] then 1 else 0) + (if PlaceOf(hs[i]) != InGraph then 1 else 0)
    }

    ghost function CountedAt(j: nat, y: nat -> real, i: int): real {
      if 0 <= i < |ids| && i < |hs| && ids[i] < |mask| then Repeated(Times(i), Weight(r, j, ids[i], r.U) * y(ids[i]))
          else 0.0
    }

    ghost function Counted(j: nat, y: nat -> real): int -> real {
      i => CountedAt(j, y, i)
    }
  }

  /** Exactly what a step adds up at position j: every expert's weighted output, as often as it was computed. */
  lemma SplitSum(s: Step, j: nat, y: nat -> real)
    requires s.Valid() && j < s.r.T
    ensures s.Graph(j, y) + s.Fold(j, y) + s.Cpu(j, y) == Sum(|s.ids|, s.Counted(j, y))
  {
    var n, row := |s.ids|, s.Row(j, y);
    var z := s.Seen(y);
    Regroup(s.r, j, s.ids, z, s.r.U);
    PickSum(s.hs, InFold, n, row);
    PickSum(s.hs, OnCpu, n, row);
    var f, g, h := Share(s.r, j, s.ids, z, s.r.U), At(s.hs, InFold, row), At(s.hs, OnCpu, row);
    var fg := (i: int) => f(i) + g(i);
    SumAdd(n, f, g, fg);
    forall i | 0 <= i < n ensures s.Counted(j, y)(i) == fg(i) + h(i) { CountedRow(s, j, y, i); }
    SumAdd(n, fg, h, s.Counted(j, y));
  }

  lemma CountedRow(s: Step, j: nat, y: nat -> real, i: nat)
    requires s.Valid() && j < s.r.T && i < |s.ids|
    ensures s.Counted(j, y)(i) == Share(s.r, j, s.ids, s.Seen(y), s.r.U)(i) + At(s.hs, InFold,
        s.Row(j, y))(i) + At(s.hs, OnCpu, s.Row(j, y))(i)
  {
    var w, e := Weight(s.r, j, s.ids[i], s.r.U), s.ids[i];
    var place := PlaceOf(s.hs[i]);
    Zero(w);
    assert Share(s.r, j, s.ids, s.Seen(y), s.r.U)(i) == if s.mask[e] then w * y(e) else 0.0;
    assert s.Row(j, y)(i) == w * y(e);
    assert At(s.hs, InFold, s.Row(j, y))(i) == if place == InFold then w * y(e) else 0.0;
    assert At(s.hs, OnCpu, s.Row(j, y))(i) == if place == OnCpu then w * y(e) else 0.0;
    assert s.Counted(j, y)(i) == Repeated(s.Times(i), w * y(e));
  }

  lemma Zero(x: real)
    ensures x * 0.0 == 0.0 && 0.0 * x == 0.0
  {
  }

  ghost function Only(e: nat): nat -> real {
    (x: nat) => if x == e then 1.0 else 0.0
  }

  lemma {:induction false} SumOnly(n: nat, f: int -> real, at: nat)
    requires at < n && forall i | 0 <= i < n && i != at :: f(i) == 0.0
    ensures Sum(n, f) == f(at)
  {
    if at == n - 1 { SumZero(n - 1, f); } else { SumOnly(n - 1, f, at); }
  }

  ghost predicate Exact(s: Step, j: nat, y: nat -> real) {
    s.Graph(j, y) + s.Fold(j, y) + s.Cpu(j, y) == s.r.Routed(j, y)
  }

  lemma CountedOnce(s: Step, j: nat, y: nat -> real, i: nat)
    requires s.Valid() && i < |s.ids| && (Weight(s.r, j, s.ids[i], s.r.U) != 0.0 ==> s.Times(i) == 1)
    ensures s.Counted(j, y)(i) == Share(s.r, j, s.ids, y, s.r.U)(i)
  {
    var w, v := Weight(s.r, j, s.ids[i], s.r.U), y(s.ids[i]);
    Zero(v);
    assert s.Counted(j, y)(i) == s.CountedAt(j, y, i) == Repeated(s.Times(i), w * v);
    assert Share(s.r, j, s.ids, y, s.r.U)(i) == w * v;
  }

  lemma OnceSuffices(s: Step, j: nat, y: nat -> real)
    requires s.Valid() && j < s.r.T
    requires forall i | 0 <= i < |s.ids| :: Weight(s.r, j, s.ids[i], s.r.U) != 0.0 ==> s.Times(i) == 1
    ensures Exact(s, j, y)
  {
    SplitSum(s, j, y);
    Regroup(s.r, j, s.ids, y, s.r.U);
    forall i | 0 <= i < |s.ids|
        ensures s.Counted(j, y)(i) == Share(s.r, j, s.ids, y, s.r.U)(i) { CountedOnce(s, j, y, i); }
    SumSame(|s.ids|, s.Counted(j, y), Share(s.r, j, s.ids, y, s.r.U));
  }

  /** An expert that puts out 1 while the others put out 0 shows how often it was computed. */
  lemma OnceNeeded(s: Step, j: nat, i: nat)
    requires s.Valid() && j < s.r.T && i < |s.ids| && Weight(s.r, j, s.ids[i], s.r.U) != 0.0
    requires Exact(s, j, Only(s.ids[i]))
    ensures s.Times(i) == 1
  {
    var n, y := |s.ids|, Only(s.ids[i]);
    var f, g := s.Counted(j, y), Share(s.r, j, s.ids, y, s.r.U);
    SplitSum(s, j, y);
    Regroup(s.r, j, s.ids, y, s.r.U);
    forall m | 0 <= m < n ensures m != i ==> f(m) == 0.0 && g(m) == 0.0 { OnlyRow(s, j, i, m); }
    SumOnly(n, f, i);
    SumOnly(n, g, i);
    OnlyRow(s, j, i, i);
  }

  lemma OnlyRow(s: Step, j: nat, i: nat, m: nat)
    requires s.Valid() && i < |s.ids| && m < |s.ids|
    ensures var y := Only(s.ids[i]); var w := Weight(s.r, j, s.ids[i], s.r.U);
      && (m != i ==> s.Counted(j, y)(m) == 0.0 && Share(s.r, j, s.ids, y, s.r.U)(m) == 0.0)
      && (m == i ==> s.Counted(j, y)(m) == Repeated(s.Times(i), w) && Share(s.r, j, s.ids, y, s.r.U)(m) == w)
  {
    if m != i { assert s.ids[m] != s.ids[i]; }
  }

  /** The step is the routed mixture, whatever the experts put out, exactly when every expert the position weighs is
      computed once. */
  lemma SplitExactIff(s: Step, j: nat)
    requires s.Valid() && j < s.r.T
    ensures (forall y: nat -> real :: Exact(s, j, y))
       <==> (forall i | 0 <= i < |s.ids| :: Weight(s.r, j, s.ids[i], s.r.U) != 0.0 ==> s.Times(i) == 1)
  {
    if forall y: nat -> real :: Exact(s, j, y) {
      forall i | 0 <= i < |s.ids| && Weight(s.r, j, s.ids[i], s.r.U) != 0.0
          ensures s.Times(i) == 1 { OnceNeeded(s, j, i); }
    } else if forall i | 0 <= i < |s.ids| :: Weight(s.r, j, s.ids[i], s.r.U) != 0.0 ==> s.Times(i) == 1 {
      forall y: nat -> real ensures Exact(s, j, y) { OnceSuffices(s, j, y); }
    }
  }

  // ---------------------------------------------------------------- the CPU's sum

  /** Left to right over a list, addition left as it is: this arithmetic is not associative. */
  function Reduce<V>(add: (V, V) -> V, zero: V, rows: seq<V>): V {
    if |rows| == 0 then zero
    else if |rows| == 1 then rows[0]
    else add(Reduce(add, zero, rows[..|rows| - 1]), rows[|rows| - 1])
  }

  /** The rows of one group of experts, each at its place in the selection order. */
  method PartRows<V>(which: seq<nat>, pos: seq<int>, row: nat -> V, rows: array<V>)
    requires forall i | i in which :: i < |pos| && 0 <= pos[i] < rows.Length
    requires forall a, b | a in which && b in which && pos[a] == pos[b] :: a == b
    modifies rows
    ensures forall i | i in which :: rows[pos[i]] == row(i)
    ensures forall k | 0 <= k < rows.Length && (forall i | i in which :: pos[i] != k) :: rows[k] == old(rows[k])
  {
    for k := 0 to |which|
      invariant forall i | i in which[..k] :: i in which && rows[pos[i]] == row(i)
      invariant forall m | 0 <= m < rows.Length && (forall i | i in which :: pos[i] != m) :: rows[m] == old(rows[m])
    {
      assert which[..k + 1] == which[..k] + [which[k]];
      assert which[k] in which;
      rows[pos[which[k]]] := row(which[k]);
    }
    assert which[..|which|] == which;
  }

  function InOrder<V>(all: seq<nat>, row: nat -> V): (rows: seq<V>)
    ensures |rows| == |all| && forall k | 0 <= k < |all| :: rows[k] == row(all[k])
  {
    seq(|all|, k requires 0 <= k < |all| => row(all[k]))
  }

  /** The CPU experts' sum: whichever rows were ready first, one left-to-right sum over the selection order. */
  method CpuSum<V>(nU: nat, ready: seq<nat>, late: seq<nat>, all: seq<nat>, row: nat -> V, add: (V, V) -> V, zero: V)
    returns (acc: V)
    requires Distinct(all) && (forall i | i in all :: i < nU) && multiset(ready + late) == multiset(all)
    ensures acc == Reduce(add, zero, InOrder(all, row))
  {
    var pos := seq(nU, i => -1);
    for k := 0 to |all|
      invariant |pos| == nU && forall m | 0 <= m < k :: all[m] < nU && pos[all[m]] == m
    {
      assert all[k] in all;
      pos := pos[all[k] := k];
    }
    forall i | i in ready || i in late ensures i in all {
      assert i in multiset(ready + late);
    }
    var rows := new V[|all|](_ => zero);
    PartRows(ready, pos, row, rows);
    PartRows(late, pos, row, rows);
    forall k | 0 <= k < |all| ensures rows[k] == row(all[k]) {
      assert all[k] in multiset(all);
      assert all[k] in ready || all[k] in late;
    }
    if |all| == 0 { return zero; }
    acc := rows[0];
    for k := 1 to |all|
      invariant acc == Reduce(add, zero, rows[..k])
    {
      assert rows[..k + 1][..k] == rows[..k];
      acc := add(acc, rows[k]);
    }
    assert rows[..|all|] == InOrder(all, row);
  }

  lemma {:induction false} PickDistinct(hs: seq<Handle>, place: Place, n: nat)
    requires n <= |hs|
    ensures Distinct(Pick(hs, place, n)) && |Pick(hs, place, n)| <= n
  {
    if n > 0 {
      PickDistinct(hs, place, n - 1);
      PickPlaces(hs, place, n - 1);
    }
  }

  // ---------------------------------------------------------------- the fold's rows

  /** The fold reads this many rows: never fewer than a step's fetch may promote. */
  lemma LateFits(drafts: nat, perLayer: nat, T: nat, narrow: bool)
    requires 1 <= T <= 1 + drafts
    ensures perLayer * T <= LateRows(drafts, perLayer, T, narrow)
    ensures LateRows(drafts, perLayer, T, narrow) <= (1 + drafts) * Max(1, perLayer)
  {
    var m, d := Max(1, perLayer), 1 + drafts;
    Grows(perLayer, m, T);
    Grows(T, d, m);
    if !narrow { Grows(1, T, d * m); }
  }

  lemma Grows(a: nat, b: nat, c: nat)
    requires a <= b
    ensures a * c <= b * c
  {
  }

  function Max(a: nat, b: nat): nat { if a < b then b else a }

  function LateRows(drafts: nat, perLayer: nat, T: nat, narrow: bool): nat {
    var n := (1 + drafts) * Max(1, perLayer);
    var perPos := if narrow then Max(1, perLayer) else n;
    if n <= perPos * T then n else perPos * T
  }

  /** The sum along a position's fold rows: each row's weight times what its slot's expert puts out. */
  ghost function RowSum(rows: seq<(int, real)>, vram: nat -> nat, y: nat -> real): real {
    Sum(|rows|, RowTerm(rows, vram, y))
  }

  ghost function RowTerm(rows: seq<(int, real)>, vram: nat -> nat, y: nat -> real): int -> real {
    k => if 0 <= k < |rows| && rows[k].0 >= 0 then rows[k].1 * y(vram(rows[k].0)) else 0.0
  }

  lemma {:induction false} SumTail(n: nat, m: nat, f: int -> real)
    requires n <= m && forall k | n <= k < m :: f(k) == 0.0
    ensures Sum(m, f) == Sum(n, f)
  {
    if n < m { SumTail(n, m - 1, f); }
  }

  /** Rows that are the late experts' slots and weights, then slot 0 with weight 0, add up to the fold. */
  lemma FoldRows(s: Step, j: nat, y: nat -> real, late: seq<nat>, rows: seq<(int, real)>)
    requires s.Valid() && j < s.r.T && late == Pick(s.hs, InFold, |s.hs|) && |late| <= |rows|
    requires forall k | 0 <= k < |late| && late[k] < |s.ids| ::
        rows[k] == (s.hs[late[k]].slot, Weight(s.r, j, s.ids[late[k]], s.r.U))
    requires forall k | |late| <= k < |rows| :: rows[k] == (0, 0.0)
    ensures RowSum(rows, s.vram, y) == s.Fold(j, y)
  {
    var f, g := RowTerm(rows, s.vram, y), Over(late, s.Row(j, y));
    forall k | |late| <= k < |rows| ensures f(k) == 0.0 { Zero(y(s.vram(0))); }
    SumTail(|late|, |rows|, f);
    forall k | 0 <= k < |late| ensures f(k) == g(k) { FoldRow(s, j, y, late, rows, k); }
    SumSame(|late|, f, g);
  }

  lemma FoldRow(s: Step, j: nat, y: nat -> real, late: seq<nat>, rows: seq<(int, real)>, k: nat)
    requires s.Valid() && late == Pick(s.hs, InFold, |s.hs|) && k < |late| <= |rows|
    requires late[k] < |s.ids| ==> rows[k] == (s.hs[late[k]].slot, Weight(s.r, j, s.ids[late[k]], s.r.U))
    ensures RowTerm(rows, s.vram, y)(k) == Over(late, s.Row(j, y))(k)
  {
    PickPlaces(s.hs, InFold, |s.hs|);
    assert late[k] in late;
  }

  function Plus(a: real, b: real): real { a + b }

  /** Over the reals the CPU's left-to-right sum is the sum. */
  lemma {:induction false} ReduceSum(rows: seq<real>, f: int -> real)
    requires forall k | 0 <= k < |rows| :: f(k) == rows[k]
    ensures Reduce(Plus, 0.0, rows) == Sum(|rows|, f)
  {
    if |rows| == 1 {
      assert Sum(1, f) == Sum(0, f) + f(0);
    } else if |rows| > 1 {
      ReduceSum(rows[..|rows| - 1], f);
    }
  }

  lemma {:induction false} PickLate(hs: seq<Handle>, n: nat)
    requires n <= |hs|
    ensures |Pick(hs, InFold, n)| == LateCount(hs[..n])
  {
    if n > 0 {
      PickLate(hs, n - 1);
      assert hs[..n] == hs[..n - 1] + [hs[n - 1]];
      LateMore(hs[..n - 1], hs[n - 1]);
    }
  }

  /** The device's fold rows, one list of U entries per position, and how many leading positions are known to be zero.
      */
  class LateFold {
    const ids: array2<int>
    const w: array2<real>
    var zeroRows: nat

    ghost predicate Valid()
      reads this, ids, w
    {
      && ids.Length0 == w.Length0 && ids.Length1 == w.Length1
      && forall j, k | 0 <= j < zeroRows && j < ids.Length0 && 0 <= k < ids.Length1 :: ids[j, k] == 0 && w[j, k] == 0.0
    }

    constructor (u: nat, positions: nat)
      ensures Valid() && ids.Length0 == positions && ids.Length1 == u && fresh(ids) && fresh(w)
    {
      zeroRows := 0;
      ids := new int[positions, u]((j, k) => 0);
      w := new real[positions, u]((j, k) => 0.0);
    }

    /** Row k of position j as the fold is to read it: a late expert's slot and weight, or slot 0 with weight 0. */
    ghost function Wanted(r: Routing, es: seq<nat>, late: seq<nat>, hs: seq<Handle>, j: nat, k: nat): (int, real) {
      if k < |late| && late[k] < |hs| && late[k] < |es| then (hs[late[k]].slot, Weight(r, j, es[late[k]], r.U))
      else (0, 0.0)
    }

    /** Position j's rows as the device has them. */
    ghost function RowsOf(j: nat): seq<(int, real)>
      requires j < ids.Length0 == w.Length0 && ids.Length1 == w.Length1
      reads ids, w
    {
      seq(ids.Length1, k requires 0 <= k < ids.Length1 reads ids, w => (ids[j, k], w[j, k]))
    }

    /** The fold's rows for the first T positions; skipped when nothing is late and they are known to be zero. */
    method Upload(r: Routing, es: seq<nat>, late: seq<nat>, hs: seq<Handle>, maySkip: bool)
      requires Valid() && r.Valid() && r.T <= ids.Length0 && |late| <= ids.Length1 && |es| == |hs|
      modifies this, ids, w
      ensures Valid()
      ensures forall j, k | 0 <= j < r.T && 0 <= k < ids.Length1 ::
          (ids[j, k], w[j, k]) == Wanted(r, es, late, hs, j, k)
    {
      var T := r.T;
      if maySkip && late == [] && zeroRows >= T { return; }
      for j := 0 to T
        invariant ids.Length0 == w.Length0 && ids.Length1 == w.Length1 && zeroRows == old(zeroRows)
        invariant forall a, k | 0 <= a < j && 0 <= k < ids.Length1 ::
            (ids[a, k], w[a, k]) == Wanted(r, es, late, hs, a, k)
        invariant forall a, k | j <= a < ids.Length0 && 0 <= k < ids.Length1 ::
            ids[a, k] == old(ids[a, k]) && w[a, k] == old(w[a, k])
      {
        for k := 0 to ids.Length1
          invariant ids.Length0 == w.Length0 && ids.Length1 == w.Length1 && zeroRows == old(zeroRows)
          invariant forall a, b | 0 <= a < j && 0 <= b < ids.Length1 ::
              (ids[a, b], w[a, b]) == Wanted(r, es, late, hs, a, b)
          invariant forall b | 0 <= b < k :: (ids[j, b], w[j, b]) == Wanted(r, es, late, hs, j, b)
          invariant forall a, b | j < a < ids.Length0 && 0 <= b < ids.Length1 ::
              ids[a, b] == old(ids[a, b]) && w[a, b] == old(w[a, b])
        {
          var slot, x := 0, 0.0;
          if k < |late| && late[k] < |hs| {
            slot := hs[late[k]].slot;
            x := WeightOf(r, es[late[k]], j);
          }
          ids[j, k], w[j, k] := slot, x;
        }
      }
      zeroRows := if late == [] then Max(zeroRows, T) else 0;
    }
  }
}
