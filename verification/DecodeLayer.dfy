/** A decode layer's experts end to end: the residency table, the fetch, the reads ahead beside it, and the split of the
    layer's mixture over the graph, the fold and the CPU. */
module DecodeLayer {
  import opened Hardware
  import opened TierState
  import opened TierFetch
  import TierSteps
  import opened TierReads
  import opened TierRoom
  import opened TierAhead
  import opened ExpertCache
  import opened MoeSplit

  /** An expert the step may route to: nothing queued still reads its RAM copy, and no stray VRAM slot names it. */
  ghost predicate Prepared(s: State, l: nat, e: nat) {
    IsExpert(s, l, e) && Unread(s, l, e) && NoStray(s.pools[l], e)
  }

  function VramHolds(p: Pool): nat -> nat {
    (g: nat) => if g < |p.gpu| && p.gpu[g].expert >= 0 then p.gpu[g].expert else 0
  }

  function RamHolds(p: Pool): nat -> nat {
    (k: nat) => if k < |p.ram| && p.ram[k].expert >= 0 then p.ram[k].expert else 0
  }

  /** What the layer's kernels and the CPU read, once the fetch has ended. */
  function StepOf(r: Routing, p: Pool, ids: seq<nat>, mask: seq<bool>, slot: seq<nat>, hs: seq<Handle>): Step {
    Step(r, ids, mask, slot, hs, VramHolds(p), RamHolds(p))
  }

  /** A fetch served in full, against the table of the pool it began with: each expert is computed once, from a slot
      that names it. */
  lemma ServedOnce(r: Routing, p: Pool, s: State, pending: seq<Awaited>, l: nat, ids: seq<nat>, mask: seq<bool>,
          slot: seq<nat>, hs: seq<Handle>)
    requires r.Valid() && l < |s.pools| && Distinct(ids) && |hs| == |ids| && (forall e :: e in ids <==> e in r.sel)
    requires forall i | 0 <= i < |ids| ::
        Serves(s, pending, l, ids[i], hs[i]) && Faithful(p, ids[i], hs[i]) && NoStray(p, ids[i])
    requires |mask| == |slot| == |p.gExpertSlot|
    requires forall e | 0 <= e < |mask| ::
        (mask[e] <==> p.gExpertSlot[e] >= 0) && (mask[e] ==> slot[e] == p.gExpertSlot[e])
    ensures var st := StepOf(r, s.pools[l], ids, mask, slot, hs); st.Valid() && forall i | 0 <= i < |ids| ::
        st.Times(i) == 1
  {
    forall j, k | 0 <= j < r.T && 0 <= k < r.U ensures r.Sel(j, k) in ids {
      Index(j, k, r.U, r.T);
      assert r.sel[j * r.U + k] in r.sel;
    }
  }

  /** Expert id has been handed over: its slot names it and holds it, and the handle is faithful to the pool before. */
  ghost predicate Delivered(p: Pool, s: State, pending: seq<Awaited>, l: nat, id: nat, h: Handle) {
    Serves(s, pending, l, id, h) && Faithful(p, id, h) && Arrived(s, l, id, h)
  }

  ghost predicate AllDelivered(p: Pool, s: State, pending: seq<Awaited>, l: nat, ids: seq<nat>, out: seq<Handle>) {
    |out| == |ids| && forall i | 0 <= i < |ids| :: Delivered(p, s, pending, l, ids[i], out[i])
  }

  /** What was predicted for other layers and was nowhere, in s, has come in t or is on its way, unless no slot of its
      layer could be refilled, in mid. */
  ghost predicate AllAhead(s: State, mid: State, t: State, l: nat, ahead: seq<(nat, seq<nat>)>) {
    forall m: nat, e: nat | Cache.Predicted(ahead, m, e) && m != l && OutOfVram(s, m, e) && Unnamed(s, m, e) ::
      Underway(t, Speculative, m, e) || forall k :: !TierSteps.Evictable(mid, m, k)
  }

  /** A fetch with reads ahead beside it. */
  method Fetch(c: Cache, l: nat, ids: seq<nat>, ahead: seq<(nat, seq<nat>)>)
    returns (ok: bool, out: seq<Handle>, ghost pending: seq<Awaited>, ghost mid: State)
    requires c.Valid() && FetchReady(c.State(), l, ids)
    modifies c`pools, c`live, c`pendingRelease, c`pendingSwaps, c`landing, c`ringBusy, c`tick, c`fetchEpoch, c`claims,
             c`abandoned, c`fetchLayer, c`pending, c`mem, c`compute, c`side
    ensures c.Valid() && (ok ==> LateCount(out) <= c.maxPromotions)
    ensures ok ==> l < |c.pools| && AllDelivered(old(c.pools[l]), c.State(), pending, l, ids, out)
    ensures |Spare(old(c.State()), l, ids)| >= Needs(old(c.pools[l]), ids) ==> ok
    ensures !ok ==> c.NoVictim(l)
    ensures ok ==> AllAhead(old(c.State()), mid, c.State(), l, ahead)
    ensures NoNewStrays(old(c.pools), c.pools) && c.OnlyAhead()
  {
    hide Inv, Accounted, AllDelivered, AllAhead;
    ghost var p, before := c.pools[l], c.State();
    mid := before;
    var ready;
    ok, out, ready := c.FetchBegin(l, ids);
    pending := c.pending;
    ghost var q, begun := c.pools, c.State();
    if ok {
      mid := FetchRest(c, p, l, ids, out, ready, ahead);
      AheadSince(before, begun, mid, c.State(), l, ahead);
      StraysTrans(old(c.pools), q, c.pools);
    }
  }

  lemma AheadSince(s: State, begun: State, mid: State, t: State, l: nat, ahead: seq<(nat, seq<nat>)>)
    requires Cache.OnlyLayer(s.pools, begun.pools, l) && begun.nExpert == s.nExpert && AllAhead(begun, mid, t, l, ahead)
    ensures AllAhead(s, mid, t, l, ahead)
  {
  }

  method FetchRest(c: Cache, ghost p: Pool, l: nat, ids: seq<nat>, ghost out: seq<Handle>, ghost ready: seq<bool>,
          ahead: seq<(nat, seq<nat>)>)
    returns (ghost mid: State)
    requires c.Valid() && c.fetchLayer == l && c.Serving(p, l, ids, |ids|, out, ready)
    modifies c`pools, c`claims, c`abandoned, c`tick, c`mem, c`compute, c`side, c`landing, c`ringBusy, c`pending
    ensures c.Valid() && l < |c.pools| && AllDelivered(p, c.State(), old(c.pending), l, ids, out)
    ensures NoNewStrays(old(c.pools), c.pools) && c.OnlyAhead()
    ensures AllAhead(old(c.State()), mid, c.State(), l, ahead)
  {
    ghost var s, pending := c.State(), c.pending;
    c.PrefetchBegin(ahead);
    ghost var t := c.State();
    mid := t;
    StillPending(p, s, t, pending, l, ids, out, ready);
    FetchLast(c, l);
    DeliveredAll(p, t, c.State(), pending, l, ids, out);
    Cache.SameVramTrans(s.pools, t.pools, c.pools);
    SameVramStrays(s.pools, c.pools);
  }

  method FetchLast(c: Cache, l: nat)
    requires c.Valid() && c.fetchLayer == l < |c.pools| && TierSteps.NoLanding(c.State(), l)
        && PendingServed(c.State(), c.pending, l)
    requires forall x | x in c.claims :: x.kind in {Speculative, Demand}
    modifies c`pools, c`claims, c`abandoned, c`mem, c`pending
    ensures c.Valid() && SameVram(old(c.pools), c.pools) && c.OnlyAhead()
    ensures forall m: nat, x: nat | x < c.nExpert && Flying(old(c.State()), Speculative, m, x) ::
      Underway(c.State(), Speculative, m, x)
    ensures StillServes(old(c.State()), c.State(), old(c.pending))
        && Delivers(old(c.State()), c.State(), old(c.pending), l)
  {
    ghost var q := c.pools;
    var ok, again := c.FetchEnd();
    SameMapsVram(q, c.pools);
  }

  lemma DeliveredAll(p: Pool, t: State, u: State, pending: seq<Awaited>, l: nat, ids: seq<nat>, out: seq<Handle>)
    requires StillServes(t, u, pending) && |out| == |ids|
    requires forall i | 0 <= i < |ids| :: Serves(t, pending, l, ids[i], out[i]) && Faithful(p, ids[i], out[i])
    requires Delivers(t, u, pending, l)
    ensures AllDelivered(p, u, pending, l, ids, out)
  {
  }

  /** As many slots to spare as routed experts without a safe place in VRAM. */
  ghost predicate Room(s: State, l: nat, r: Routing)
    requires l < |s.pools|
  {
    forall ids :: Distinct(ids) && (forall e :: e in ids <==> e in r.sel) ==>
        |Spare(s, l, ids)| >= Needs(s.pools[l], ids)
  }

  /** One layer of a decode step. `ahead` is what it predicts for the layers to come. It is served while it has room; if
      not, no slot of the layer may be refilled. What is predicted and nowhere is on its way afterwards. */
  method Decode(c: Cache, l: nat, r: Routing, ahead: seq<(nat, seq<nat>)>)
    returns (ok: bool, ghost st: Step, ghost mid: State)
    requires c.Valid() && r.Valid() && l < |c.pools| && forall e | e in r.sel :: Prepared(c.State(), l, e)
    requires c.OnlyAhead()
    modifies c`pools, c`live, c`pendingRelease, c`pendingSwaps, c`landing, c`ringBusy, c`tick, c`fetchEpoch, c`claims,
             c`abandoned, c`fetchLayer, c`pending, c`mem, c`compute, c`side
    ensures c.Valid() && NoNewStrays(old(c.pools), c.pools) && c.OnlyAhead()
    ensures (old(Room(c.State(), l, r)) ==> ok) && (!ok ==> c.NoVictim(l))
    ensures ok ==> st.Valid() && st.r == r && LateCount(st.hs) <= c.maxPromotions
    ensures ok ==> forall e :: e in st.ids <==> e in r.sel
    ensures ok ==> forall i | 0 <= i < |st.ids| :: Arrived(c.State(), l, st.ids[i], st.hs[i])
    ensures ok ==> forall j: nat, y: nat -> real | j < r.T :: Exact(st, j, y)
    ensures ok ==> AllAhead(old(c.State()), mid, c.State(), l, ahead)
  {
    ghost var p := c.pools[l];
    var slot, mask := c.VramTable(l);
    var ids := UniqueIds(r);
    Ready(c.State(), l, r, ids);
    var out;
    ghost var pending;
    ok, out, pending, mid := Fetch(c, l, ids, ahead);
    st := StepOf(r, p, ids, mask, slot, out);
    if ok {
      ServedOnce(r, p, c.State(), pending, l, ids, mask, slot, out);
      st := StepOf(r, c.pools[l], ids, mask, slot, out);
      AllExact(st);
    }
  }

  // ---------------------------------------------------------------- what the layer adds up

  /** The handles dealt to their places, the late ones uploaded to the fold's rows, the rest added up on the CPU: with
      what the graph has, position j's sum is its routed mixture, whichever blocks the CPU found there at once. `es`:
      the step's experts; `row(i)`: the i-th one's weighted output at position j. */
  method AddUp(ghost st: Step, r: Routing, es: seq<nat>, hs: seq<Handle>, ready: seq<bool>, fold: LateFold,
               maySkip: bool, ghost j: nat, row: nat -> real, ghost y: nat -> real) returns (cpu: real)
    requires st.Valid() && st.hs == hs && st.r == r && st.ids == es && |ready| == |hs| && j < r.T && LayerExact(st)
    requires fold.Valid() && r.T <= fold.ids.Length0 && LateCount(hs) <= fold.ids.Length1
    requires forall i | 0 <= i < |hs| :: row(i) == st.Row(j, y)(i)
    modifies fold, fold.ids, fold.w
    ensures fold.Valid() && st.Graph(j, y) + RowSum(fold.RowsOf(j), st.vram, y) + cpu == r.Routed(j, y)
  {
    var onGpu, late, readyCpu, lateCpu, allCpu := Deal(hs, ready);
    FoldPart(st, r, es, hs, late, fold, maySkip, j, y);
    cpu := CpuPart(st, hs, readyCpu, lateCpu, allCpu, j, row, y);
    assert Exact(st, j, y);
  }

  method FoldPart(ghost st: Step, r: Routing, es: seq<nat>, hs: seq<Handle>, late: seq<nat>, fold: LateFold,
                  maySkip: bool, ghost j: nat, ghost y: nat -> real)
    requires st.Valid() && st.hs == hs && st.r == r && st.ids == es && j < r.T && late == Pick(hs, InFold, |hs|)
    requires fold.Valid() && r.T <= fold.ids.Length0 && LateCount(hs) <= fold.ids.Length1
    modifies fold, fold.ids, fold.w
    ensures fold.Valid() && RowSum(fold.RowsOf(j), st.vram, y) == st.Fold(j, y)
  {
    PickLate(hs, |hs|);
    assert hs[..|hs|] == hs;
    fold.Upload(r, es, late, hs, maySkip);
    ghost var rows := fold.RowsOf(j);
    forall k | 0 <= k < |rows| ensures rows[k] == fold.Wanted(r, es, late, hs, j, k) { }
    FoldRows(st, j, y, late, rows);
  }

  method CpuPart(ghost st: Step, hs: seq<Handle>, readyCpu: seq<nat>, lateCpu: seq<nat>, allCpu: seq<nat>, ghost j: nat,
                 row: nat -> real, ghost y: nat -> real) returns (cpu: real)
    requires st.Valid() && st.hs == hs && allCpu == Pick(hs, OnCpu, |hs|)
        && multiset(readyCpu + lateCpu) == multiset(allCpu)
    requires forall i | 0 <= i < |hs| :: row(i) == st.Row(j, y)(i)
    ensures cpu == st.Cpu(j, y)
  {
    PickDistinct(hs, OnCpu, |hs|);
    PickPlaces(hs, OnCpu, |hs|);
    cpu := CpuSum(|hs|, readyCpu, lateCpu, allCpu, row, Plus, 0.0);
    ghost var f := Over(allCpu, st.Row(j, y));
    forall k | 0 <= k < |allCpu| ensures f(k) == row(allCpu[k]) { assert allCpu[k] in allCpu; }
    ReduceSum(InOrder(allCpu, row), f);
  }

  // ---------------------------------------------------------------- a whole token

  ghost predicate NoStrays(pools: seq<Pool>, nExpert: nat) {
    forall l, e | 0 <= l < |pools| && 0 <= e < nExpert :: NoStray(pools[l], e)
  }

  /** What a token's layers need of the cache and leave behind: nothing but reads ahead under way, no swap pending, and
      no VRAM slot its expert's map does not point to. */
  ghost predicate BetweenLayers(c: Cache)
    reads c
  {
    && c.Valid() && c.pendingRelease == [] && c.pendingSwaps == [] && NoStrays(c.pools, c.nExpert)
    && c.OnlyAhead()
  }

  /** A layer of a token: its mixture, then the settle that lets its promotions land. */
  method DecodeSettled(c: Cache, l: nat, r: Routing, ahead: seq<(nat, seq<nat>)>) returns (ok: bool, ghost st: Step)
    requires BetweenLayers(c) && r.Valid() && l < |c.pools| && forall e | e in r.sel :: e < c.nExpert
    modifies c`pools, c`live, c`pendingRelease, c`pendingSwaps, c`landing, c`ringBusy, c`tick, c`fetchEpoch, c`claims,
             c`abandoned, c`fetchLayer, c`pending, c`mem, c`compute, c`side
    ensures |c.pools| == |old(c.pools)| && c.Valid() && (ok ==> BetweenLayers(c))
    ensures (old(Room(c.State(), l, r)) ==> ok) && (!ok ==> c.NoVictim(l))
    ensures ok ==> st.r == r && LayerExact(st) && LateCount(st.hs) <= c.maxPromotions
  {
    hide Inv, Accounted, AllAhead, Room;
    ghost var n := c.nExpert;
    AllPrepared(c, l, r);
    ghost var mid;
    ok, st, mid := Decode(c, l, r, ahead);
    StraysStay(old(c.pools), c.pools, n);
    if ok {
      ghost var q := c.pools;
      c.SettlePromotionsLayer();
      SameVramStrays(q, c.pools);
      StraysStay(q, c.pools, n);
    }
  }

  /** The step's sum is the routed mixture, at every position and whatever the experts put out. */
  ghost predicate LayerExact(st: Step) {
    forall j: nat, y: nat -> real | j < st.r.T :: Exact(st, j, y)
  }

  lemma StraysStay(p: seq<Pool>, q: seq<Pool>, nExpert: nat)
    requires NoStrays(p, nExpert) && NoNewStrays(p, q)
    ensures NoStrays(q, nExpert)
  {
    forall l, e | 0 <= l < |q| && 0 <= e < nExpert ensures NoStray(q[l], e) {
      assert NoNewStray(p[l], q[l]) && NoStray(p[l], e);
    }
  }

  lemma AllPrepared(c: Cache, l: nat, r: Routing)
    requires BetweenLayers(c) && l < |c.pools| && forall e | e in r.sel :: e < c.nExpert
    ensures forall e | e in r.sel :: Prepared(c.State(), l, e)
  {
    c.MapsHere(l);
    forall e | e in r.sel ensures Prepared(c.State(), l, e) { assert NoStray(c.pools[l], e); }
  }

  /** The layers begun, from state s on: those done and, if there are more, one without room. */
  ghost predicate HadTurns(s: State, turns: seq<State>, routings: seq<Routing>, done: nat) {
    && (if done < |routings| then |turns| == done + 1 else |turns| == done == |routings|)
    && (turns != [] ==> turns[0] == s) && (forall l | 0 <= l < |turns| :: l < |turns[l].pools|)
    && (done < |routings| ==> !Room(turns[done], done, routings[done]))
  }

  /** A token through the layers: each mixture is exact, and each layer leaves the cache fit for the next -- no layer's
      promotions, reads ahead or settle make a stray. All layers are computed, but where a fetch finds no slot to
      refill: never while each layer has room when its turn comes. `turns`: the cache before each layer begun. */
  method DecodeToken(c: Cache, routings: seq<Routing>, ahead: seq<seq<(nat, seq<nat>)>>)
    returns (done: nat, ghost steps: seq<Step>, ghost turns: seq<State>)
    requires BetweenLayers(c) && |routings| == |ahead| <= |c.pools|
    requires forall l | 0 <= l < |routings| :: routings[l].Valid() && forall e | e in routings[l].sel :: e < c.nExpert
    modifies c`pools, c`live, c`pendingRelease, c`pendingSwaps, c`landing, c`ringBusy, c`tick, c`fetchEpoch, c`claims,
             c`abandoned, c`fetchLayer, c`pending, c`mem, c`compute, c`side
    ensures c.Valid() && |steps| == done <= |routings| && (done == |routings| ==> BetweenLayers(c))
    ensures done < |routings| ==> c.NoVictim(done)
    ensures HadTurns(old(c.State()), turns, routings, done)
    ensures forall l | 0 <= l < done :: steps[l].r == routings[l] && LayerExact(steps[l])
    ensures forall l | 0 <= l < done :: LateCount(steps[l].hs) <= c.maxPromotions
  {
    hide Cache.Valid, LayerExact, NoStrays;
    done, steps, turns := 0, [], [];
    while done < |routings|
      invariant |turns| == done
      invariant if done > 0 then turns[0] == old(c.State()) else c.State() == old(c.State())
      invariant forall l | 0 <= l < done :: l < |turns[l].pools|
      invariant BetweenLayers(c) && |c.pools| == |old(c.pools)| && |steps| == done <= |routings|
      invariant forall l | 0 <= l < done :: steps[l].r == routings[l] && LayerExact(steps[l])
      invariant forall l | 0 <= l < done :: LateCount(steps[l].hs) <= c.maxPromotions
    {
      ghost var st;
      var ok;
      turns := turns + [c.State()];
      ok, st := DecodeSettled(c, done, routings[done], ahead[done]);
      if !ok { return; }
      steps := steps + [st];
      done := done + 1;
    }
  }

  /** A decode step of T positions: the promotions a layer's fetch may make grow with T, and the fold has a row for each
      of them -- the engine's check for more late experts than rows never ends a run. `drafts`, `narrow`: how the fold
      is dimensioned. */
  method EvalDecode(c: Cache, routings: seq<Routing>, ahead: seq<seq<(nat, seq<nat>)>>, T: nat, perLayer: nat,
                    drafts: nat, narrow: bool)
    returns (done: nat, ghost steps: seq<Step>, ghost turns: seq<State>)
    requires BetweenLayers(c) && |routings| == |ahead| <= |c.pools| && 1 <= T <= 1 + drafts
    requires forall l | 0 <= l < |routings| ::
        routings[l].Valid() && routings[l].T == T && forall e | e in routings[l].sel :: e < c.nExpert
    modifies c
    ensures c.Valid() && |steps| == done <= |routings| && (done == |routings| ==> BetweenLayers(c))
    ensures done < |routings| ==> c.NoVictim(done)
    ensures HadTurns(old(c.State()), turns, routings, done)
    ensures forall l | 0 <= l < done :: steps[l].r == routings[l] && LayerExact(steps[l])
    ensures forall l | 0 <= l < done :: LateCount(steps[l].hs) <= LateRows(drafts, perLayer, T, narrow)
    ensures LateRows(drafts, perLayer, T, narrow) <= (1 + drafts) * Max(1, perLayer) && c.maxPromotions == perLayer
  {
    c.SetMaxPromotions(perLayer * T);
    done, steps, turns := DecodeToken(c, routings, ahead);
    LateFits(drafts, perLayer, T, narrow);
    c.SetMaxPromotions(perLayer);
  }

  lemma AllExact(st: Step)
    requires st.Valid() && forall i | 0 <= i < |st.ids| :: st.Times(i) == 1
    ensures forall j: nat, y: nat -> real | j < st.r.T :: Exact(st, j, y)
  {
    forall j: nat, y: nat -> real | j < st.r.T ensures Exact(st, j, y) { OnceSuffices(st, j, y); }
  }

  /** The reads ahead leave the fetch its layer, its handles and what it waits for. */
  lemma StillPending(p: Pool, s: State, t: State, pending: seq<Awaited>, l: nat, ids: seq<nat>, out: seq<Handle>,
          ready: seq<bool>)
    requires ServingAt(p, s, pending, l, ids, |ids|, out, ready) && Cache.Undisturbed(s, t, pending)
    ensures TierSteps.NoLanding(t, l) && PendingServed(t, pending, l) && forall c | c in t.claims ::
        c.kind in {Speculative, Demand}
    ensures forall i | 0 <= i < |ids| :: Serves(t, pending, l, ids[i], out[i]) && Faithful(p, ids[i], out[i])
  {
    forall i | 0 <= i < |ids| ensures Serves(t, pending, l, ids[i], out[i]) && Faithful(p, ids[i], out[i]) {
      assert Given(p, s, pending, l, ids[i], out[i], ready[i]);
    }
    forall c | c in s.claims ensures c.kind in {Speculative, Demand} {
      var i :| 0 <= i < |s.claims| && s.claims[i] == c;
    }
  }

  lemma Ready(s: State, l: nat, r: Routing, ids: seq<nat>)
    requires l < |s.pools| && Distinct(ids) && (forall e :: e in ids <==> e in r.sel) && forall e | e in r.sel ::
        Prepared(s, l, e)
    requires forall i | 0 <= i < |s.claims| :: s.claims[i].kind == Speculative
    ensures FetchReady(s, l, ids) && forall i | 0 <= i < |ids| :: NoStray(s.pools[l], ids[i])
  {
    forall i | 0 <= i < |ids| ensures Prepared(s, l, ids[i]) { assert ids[i] in ids; }
  }
}
