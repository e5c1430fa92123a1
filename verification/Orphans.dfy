/** A RAM slot that names an expert whose map points elsewhere: refilling it unmaps an expert that is there. How such
    slots come about over whole runs. */
module Orphans {
  import opened Hardware
  import opened TierState
  import opened TierSteps
  import opened TierProofs
  import opened TierReads
  import opened TierRuns

  /** The slot holds nobody, or the expert whose map points to it, or a victim a pending swap will map to it. */
  ghost predicate Housed(p: Pool, swaps: seq<Swap>, l: nat, k: nat)
    requires k < |p.ram|
  {
    var x := p.ram[k].expert;
    x >= 0 ==> x < |p.expertSlot| && (p.expertSlot[x] == k || SwapInto(swaps, l, k))
  }

  ghost predicate PoolHoused(p: Pool, swaps: seq<Swap>, l: nat) {
    forall k | 0 <= k < |p.ram| :: Housed(p, swaps, l, k)
  }

  ghost predicate OrphanFree(s: State) {
    forall l | 0 <= l < |s.pools| :: PoolHoused(s.pools[l], s.swaps, l)
  }

  /** The slot is taken for an expert RAM does not know, or for the one it names already. */
  ghost predicate Unknown(s: State, ev: Event) {
    ev.Take? && ev.l < |s.pools| && ev.e < |s.pools[ev.l].expertSlot| ==>
      s.pools[ev.l].expertSlot[ev.e] in {EMPTY, ev.v}
  }

  // ---------------------------------------------------------------- a slot is taken

  /** A valid slot is no pending swap's destination. */
  lemma ValidIsFree(s: State, l: nat, v: nat)
    requires Inv(s) && IsRam(s, l, v) && s.pools[l].ram[v].valid
    ensures !SwapInto(s.swaps, l, v)
  {
    forall i | 0 <= i < |s.swaps| ensures !(s.swaps[i].layer == l && s.swaps[i].to == v) {
      assert SwapOk(s.pools, s.nExpert, s.ringBusy, Settled(s), s.n, s.swaps[i]);
    }
  }

  lemma TakeOrphans(s: State, kind: Kind, l: nat, v: nat, e: nat)
    requires Inv(s) && Shape(s) && MayClaim(s, l, v, e) && OrphanFree(s)
    ensures OrphanFree(ClaimSlot(s, kind, l, v, e)) <==> s.pools[l].expertSlot[e] in {EMPTY, v}
  {
    var t := ClaimSlot(s, kind, l, v, e);
    var p, q := s.pools[l], t.pools[l];
    assert LayerOk(Settled(s), s.n, s.nExpert, s.landing, s.swaps, l, p);
    assert PoolHoused(p, s.swaps, l);
    if p.ram[v].expert >= 0 { ValidIsFree(s, l, v); assert Housed(p, s.swaps, l, v); }
    if p.expertSlot[e] in {EMPTY, v} {
      forall m | 0 <= m < |t.pools| ensures PoolHoused(t.pools[m], t.swaps, m) {
        assert PoolHoused(s.pools[m], s.swaps, m);
        if m == l { TakeHouses(p, s.swaps, l, v, e); }
      }
    } else {
      var k: nat := p.expertSlot[e];
      KnownStays(s, l, k, e);
      assert q.ram[k].expert == e && q.expertSlot[e] == v;
      assert !Housed(q, t.swaps, l, k);
      assert !PoolHoused(q, t.swaps, l);
    }
  }

  /** A mapped slot is no pending swap's destination. */
  lemma KnownStays(s: State, l: nat, k: nat, e: nat)
    requires Inv(s) && l < |s.pools| && e < s.nExpert && k < |s.pools[l].ram| && e < |s.pools[l].expertSlot|
    requires s.pools[l].expertSlot[e] == k && s.pools[l].ram[k].expert == e
    ensures !SwapInto(s.swaps, l, k)
  {
    forall i | 0 <= i < |s.swaps| ensures !(s.swaps[i].layer == l && s.swaps[i].to == k) {
      assert SwapOk(s.pools, s.nExpert, s.ringBusy, Settled(s), s.n, s.swaps[i]);
    }
  }

  lemma TakeHouses(p: Pool, swaps: seq<Swap>, l: nat, v: nat, e: nat)
    requires v < |p.ram| && p.ram[v].expert < |p.expertSlot| && e < |p.expertSlot| && PoolHoused(p, swaps, l)
    requires p.ram[v].expert >= 0 ==> p.expertSlot[p.ram[v].expert] == v
    requires p.expertSlot[e] in {EMPTY, v}
    ensures PoolHoused(Refilled(p, v, e), swaps, l)
  {
    var q := Refilled(p, v, e);
    forall k | 0 <= k < |q.ram| ensures Housed(q, swaps, l, k) {
      assert Housed(p, swaps, l, k);
    }
  }

  // ---------------------------------------------------------------- a promotion

  lemma SwapKept(swaps: seq<Swap>, w: Swap, l: nat, k: int)
    ensures SwapInto(swaps, l, k) ==> SwapInto(swaps + [w], l, k)
    ensures w.layer == l && w.to == k ==> SwapInto(swaps + [w], l, k)
  {
    if SwapInto(swaps, l, k) {
      var i :| 0 <= i < |swaps| && swaps[i].layer == l && swaps[i].to == k;
      assert (swaps + [w])[i] == swaps[i];
    }
    assert (swaps + [w])[|swaps|] == w;
  }

  lemma UpOrphans(s: State, l: nat, e: nat, slot: nat, c: Choice)
    requires Good(s) && MayPromote(s, l, e, slot, c) && OrphanFree(s)
    requires SelfVictim(s.pools[l], slot, c) ==> !s.pools[l].ram[slot].soa
    ensures OrphanFree(Promote(s, l, e, slot, c))
  {
    var t := Promote(s, l, e, slot, c);
    assert LayerOk(Settled(s), s.n, s.nExpert, s.landing, s.swaps, l, s.pools[l]);
    var to := PromoteFacts(s, l, e, slot, c);
    forall m | 0 <= m < |t.pools| ensures PoolHoused(t.pools[m], t.swaps, m) {
      assert PoolHoused(s.pools[m], s.swaps, m);
      if to >= 0 && s.pools[l].ram[to].expert >= 0 { ValidIsFree(s, l, to); }
      if m == l { PromotedHouses(s, t, l, e, slot, c, to); } else { OthersHoused(s, t, m); }
    }
  }

  lemma OthersHoused(s: State, t: State, m: nat)
    requires m < |s.pools| == |t.pools| && t.pools[m] == s.pools[m] && PoolHoused(s.pools[m], s.swaps, m)
    requires s.swaps <= t.swaps && |t.swaps| == |s.swaps| + 1
    ensures PoolHoused(t.pools[m], t.swaps, m)
  {
    var w := t.swaps[|s.swaps|];
    assert t.swaps == s.swaps + [w];
    forall k | 0 <= k < |t.pools[m].ram| ensures Housed(t.pools[m], t.swaps, m, k) {
      assert Housed(s.pools[m], s.swaps, m, k);
      SwapKept(s.swaps, w, m, k);
    }
  }

  lemma PromotedHouses(s: State, t: State, l: nat, e: nat, slot: nat, c: Choice, to: int)
    requires Shape(s) && IsPromotion(s, t, l, e, slot, c, to) && PoolHoused(s.pools[l], s.swaps, l)
    requires MapsOk(s.pools[l], s.nExpert)
    requires to >= 0 && s.pools[l].ram[to].expert >= 0 ==> !SwapInto(s.swaps, l, to)
    ensures PoolHoused(t.pools[l], t.swaps, l)
  {
    var p, q, w := s.pools[l], t.pools[l], t.swaps[|s.swaps|];
    assert t.swaps == s.swaps + [w] && w.layer == l && w.to == to;
    forall k | 0 <= k < |q.ram| ensures Housed(q, t.swaps, l, k) {
      assert Housed(p, s.swaps, l, k);
      SwapKept(s.swaps, w, l, k);
      if k != to && q.ram[k].expert >= 0 && p.expertSlot[q.ram[k].expert] == k {
        StillMapped(s, t, l, e, slot, c, to, k);
      }
    }
  }

  /** Only the expert of the victim's new slot loses its map entry. */
  lemma StillMapped(s: State, t: State, l: nat, e: nat, slot: nat, c: Choice, to: int, k: nat)
    requires Shape(s) && IsPromotion(s, t, l, e, slot, c, to) && MapsOk(s.pools[l], s.nExpert)
        && PoolHoused(s.pools[l], s.swaps, l)
    requires k < |s.pools[l].ram| && k != to && s.pools[l].ram[k].expert >= 0
    requires s.pools[l].expertSlot[s.pools[l].ram[k].expert] == k
    requires to >= 0 && s.pools[l].ram[to].expert >= 0 ==> !SwapInto(s.swaps, l, to)
    ensures t.pools[l].expertSlot[s.pools[l].ram[k].expert] == k
  {
    var p, x := s.pools[l], s.pools[l].ram[k].expert;
    assert to >= 0 ==> Housed(p, s.swaps, l, to);
  }

  // ---------------------------------------------------------------- a swap is finished

  lemma FinishOrphans(s: State)
    requires Good(s) && s.swaps != [] && s.compute == [] && s.release == [] && OrphanFree(s)
    ensures HeadInRange(s) && OrphanFree(FinishHead(s))
  {
    var d, w := Settled(s), s.swaps[0];
    FinishFacts(s, d);
    JudgeFacts(s, d);
    assert SwapOk(s.pools, s.nExpert, s.ringBusy, d, s.n, w);
    var t := FinishHead(s);
    forall m | 0 <= m < |t.pools| ensures PoolHoused(t.pools[m], t.swaps, m) {
      assert PoolHoused(s.pools[m], s.swaps, m);
      assert LayerOk(d, s.n, s.nExpert, s.landing, s.swaps, m, s.pools[m]);
      if m == w.layer {
        FinishedHouses(s.pools[m], s.swaps, m, s.nExpert);
      } else {
        forall k | 0 <= k < |t.pools[m].ram| ensures Housed(t.pools[m], t.swaps, m, k) {
          assert Housed(s.pools[m], s.swaps, m, k);
          SwapLeft(s.swaps, m, k);
        }
      }
    }
  }

  lemma SwapLeft(swaps: seq<Swap>, l: nat, k: int)
    requires swaps != [] && !(swaps[0].layer == l && swaps[0].to == k)
    ensures SwapInto(swaps, l, k) ==> SwapInto(swaps[1..], l, k)
  {
    if SwapInto(swaps, l, k) {
      var i :| 0 <= i < |swaps| && swaps[i].layer == l && swaps[i].to == k;
      assert swaps[1..][i - 1] == swaps[i];
    }
  }

  lemma FinishedHouses(p: Pool, swaps: seq<Swap>, l: nat, nExpert: nat)
    requires PoolShape(p, nExpert) && MapsOk(p, nExpert) && PoolHoused(p, swaps, l) && swaps != []
    requires swaps[0].layer == l && swaps[0].from < |p.ram| && EMPTY <= swaps[0].to < |p.ram|
        && swaps[0].promoted < nExpert
    requires swaps[0].to >= 0 ==> 0 <= swaps[0].victim < nExpert && swaps[0].to != swaps[0].from
    requires swaps[0].to >= 0 ==> p.ram[swaps[0].to].expert == swaps[0].victim
    requires Judge(Freed(p, swaps[0]), swaps[0]) != CannotHappen
    ensures PoolHoused(Finished(Freed(p, swaps[0]), swaps[0]), swaps[1..], l)
  {
    var w := swaps[0];
    var p1 := Freed(p, w);
    var q := Finished(p1, w);
    forall k | 0 <= k < |q.ram| ensures Housed(q, swaps[1..], l, k) {
      assert Housed(p, swaps, l, k);
      if k != w.to { SwapLeft(swaps, l, k); }
    }
  }

  // ---------------------------------------------------------------- everything else

  lemma SameOrphans(s: State, t: State)
    requires SameClaims(s, t) && OrphanFree(s)
    ensures OrphanFree(t)
  {
    forall m | 0 <= m < |t.pools| ensures PoolHoused(t.pools[m], t.swaps, m) {
      assert PoolHoused(s.pools[m], s.swaps, m);
      forall k | 0 <= k < |t.pools[m].ram| ensures Housed(t.pools[m], t.swaps, m, k) {
        assert Housed(s.pools[m], s.swaps, m, k) && SameSlot(s.pools[m].ram[k], t.pools[m].ram[k]);
      }
    }
  }

  lemma DoneOrphans(s: State, i: nat)
    requires Inv(s) && i < |s.claims| && OrphanFree(s)
    ensures s.claims[i].layer < |s.pools| && s.claims[i].slot < |s.pools[s.claims[i].layer].ram|
    ensures OrphanFree(Complete(s, i))
  {
    ClaimInRange(s, i);
    var t := Complete(s, i);
    forall m | 0 <= m < |t.pools| ensures PoolHoused(t.pools[m], t.swaps, m) {
      assert PoolHoused(s.pools[m], s.swaps, m);
      forall k | 0 <= k < |t.pools[m].ram| ensures Housed(t.pools[m], t.swaps, m, k) {
        assert Housed(s.pools[m], s.swaps, m, k);
      }
    }
  }

  lemma {:induction false} OrphanStep(s: State, ev: Event)
    requires Good(s) && Enabled(s, ev) && !Unsafe(s, ev) && OrphanFree(s)
    ensures OrphanFree(Next(s, ev)) <==> Unknown(s, ev)
  {
    hide OrphanFree, Inv, Accounted;
    match ev
    case Take(kind, l, v, e) => TakeOrphans(s, kind, l, v, e);
    case Up(l, e, slot, c) => UpOrphans(s, l, e, slot, c);
    case Finish => FinishOrphans(s);
    case Done(i) => DoneOrphans(s, i);
    case Fail(i) => SamePools(s, GiveUp(s, i));
    case Again(b) => SamePools(s, ReadAgain(s, b));
    case _ =>
      NextSame(s, ev);
      SameOrphans(s, Next(s, ev));
  }

  lemma SamePools(s: State, t: State)
    requires t.pools == s.pools && t.swaps == s.swaps && OrphanFree(s)
    ensures OrphanFree(t)
  {
  }

  // ---------------------------------------------------------------- over whole runs

  /** A run that starts without orphans stays without them exactly when no slot is ever taken for an expert that RAM
      maps already -- one whose read has not landed, say. */
  lemma RunOrphanIff(states: seq<State>, events: seq<Event>)
    requires Run(states, events) && Sheltering(states, events) && OrphanFree(states[0])
    ensures (forall i | 0 <= i < |states| :: OrphanFree(states[i]))
        <==> (forall i | 0 <= i < |events| :: Unknown(states[i], events[i]))
  {
    if forall i | 0 <= i < |states| :: OrphanFree(states[i]) {
      forall i | 0 <= i < |events| ensures Unknown(states[i], events[i]) {
        assert OrphanFree(states[i]) && OrphanFree(states[i + 1]);
        RunOrphanStep(states, events, i);
      }
    }
    if forall i | 0 <= i < |events| :: Unknown(states[i], events[i]) {
      forall i | 0 <= i < |states| ensures OrphanFree(states[i]) { RunOrphanFree(states, events, i); }
    }
  }

  lemma {:induction false} RunOrphanFree(states: seq<State>, events: seq<Event>, i: nat)
    requires Run(states, events) && Sheltering(states, events) && OrphanFree(states[0]) && i < |states|
    requires forall j | 0 <= j < |events| :: Unknown(states[j], events[j])
    ensures OrphanFree(states[i])
  {
    hide OrphanFree, Good, Enabled, Unsafe, Unknown;
    if i > 0 {
      RunOrphanFree(states, events, i - 1);
      RunOrphanStep(states, events, i - 1);
    }
  }

  lemma RunOrphanStep(states: seq<State>, events: seq<Event>, i: nat)
    requires Run(states, events) && Sheltering(states, events) && i < |events| && OrphanFree(states[i])
    ensures OrphanFree(states[i + 1]) <==> Unknown(states[i], events[i])
  {
    hide OrphanFree, Unknown;
    RunGood(states, events, i);
    OrphanStep(states[i], events[i]);
  }

  /** Whose map entry a refill drops: in a run without orphans only that of the expert whose block it overwrites. */
  lemma RunTakesOwn(states: seq<State>, events: seq<Event>, i: nat, y: nat)
    requires Run(states, events) && Sheltering(states, events) && i < |events| && OrphanFree(states[i])
    requires events[i].Take? && events[i].l < |states[i].pools| && y != events[i].e && y < states[i].nExpert
    requires |states[i].pools[events[i].l].expertSlot| == states[i].nExpert
        && states[i].pools[events[i].l].expertSlot[y] >= 0
    ensures var l, p := events[i].l, states[i].pools[events[i].l];
      |states[i + 1].pools| == |states[i].pools| && |states[i + 1].pools[l].expertSlot| == |p.expertSlot|
      && (states[i + 1].pools[l].expertSlot[y] == p.expertSlot[y] <==> p.expertSlot[y] != events[i].v)
  {
    RunGood(states, events, i);
    var s, l, v, e := states[i], events[i].l, events[i].v, events[i].e;
    var p := s.pools[l];
    assert LayerOk(Settled(s), s.n, s.nExpert, s.landing, s.swaps, l, p);
    EvictionUnmaps(p, s.nExpert, v, e, y);
    assert PoolHoused(p, s.swaps, l) && Housed(p, s.swaps, l, v);
    if p.ram[v].expert >= 0 { ValidIsFree(s, l, v); }
  }
}
