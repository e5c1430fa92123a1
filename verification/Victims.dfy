/** What becomes of the expert a promotion displaces from VRAM: it goes to a listed empty RAM slot if there is one, else
    to one that may be refilled, and its bytes leave VRAM before the promoted block's arrive. */
module Victims {
  import opened Hardware
  import opened TierState
  import opened TierSteps
  import opened TierProofs
  import opened TierReads

  /** An empty, unpinned slot on the free list. */
  predicate FreeSlot(p: Pool, k: int) {
    k in p.free && 0 <= k < |p.ram| && p.ram[k].expert == EMPTY && !p.ram[k].pinned
  }

  /** The last swap of t, started in s, of the block in `slot` over VRAM slot `victim`. A victim has a free slot if
      there is one; its slot names it; every other free slot stays listed; its way out is queued before the upload. */
  ghost predicate Housed(s: State, t: State, l: nat, e: nat, slot: nat, victim: nat) {
    && l < |s.pools| == |t.pools| && victim < |s.pools[l].gpu| && slot < |t.pools[l].ram| == |s.pools[l].ram|
    && |t.swaps| == |s.swaps| + 1
    && var p, q, w := s.pools[l], t.pools[l], t.swaps[|s.swaps|];
    && w.layer == l && w.promoted == e && w.from == slot && w.victim == p.gpu[victim].expert
    && t.swaps == s.swaps + [w] && EMPTY <= w.to < |q.ram|
    && (w.victim >= 0 && (exists k :: FreeSlot(p, k)) ==> FreeSlot(p, w.to))
    && (forall k :: FreeSlot(p, k) && k != w.to ==> FreeSlot(q, k))
    && (w.to >= 0 ==> w.victim >= 0 && q.ram[w.to].expert == w.victim && !q.ram[w.to].valid)
    && var upload := Copy(Ram(l, slot), Vram(l, victim), !q.ram[slot].soa);
    && t.compute == s.compute
         + (if w.to < 0 then [] else [Copy(Vram(l, victim), if w.ring >= 0 then Ring(w.ring) else Ram(l, w.to), false)])
         + [upload]
  }

  lemma {:induction false} PopsFree(p: Pool)
    requires forall i | 0 <= i < |p.free| :: p.free[i] < |p.ram|
    ensures var (f, rest) := PopFree(p.ram, p.free);
      && (f == EMPTY ==> forall k :: !FreeSlot(p, k))
      && (f != EMPTY ==> FreeSlot(p, f))
      && (forall k :: FreeSlot(p, k) && k != f ==> FreeSlot(p.(free := rest), k))
    decreases |p.free|
  {
    if p.free != [] {
      var f, rest := p.free[|p.free| - 1], p.free[..|p.free| - 1];
      assert p.free == rest + [f];
      if p.ram[f].expert == EMPTY && !p.ram[f].pinned {
        assert FreeSlot(p, f);
      } else {
        PopsFree(p.(free := rest));
        assert forall k :: FreeSlot(p, k) ==> FreeSlot(p.(free := rest), k);
      }
    }
  }

  lemma DisplacedTo(s: State, l: nat, e: nat, slot: nat, c: Choice)
    requires MayPromote(s, l, e, slot, c)
    ensures var p := s.pools[l]; var (to, q) := Displaced(p, slot, c);
      && (p.gpu[c.victim].expert >= 0 && (exists k :: FreeSlot(p, k)) ==> FreeSlot(p, to))
      && (forall k :: FreeSlot(p, k) && k != to ==> FreeSlot(q, k))
      && (p.gpu[c.victim].expert >= 0 && to != c.dest ==> FreeSlot(p, to) || (to == EMPTY && c.dest == slot))
  {
    var p := s.pools[l];
    var v := p.gpu[c.victim].expert;
    PopsFree(p);
    if v >= 0 {
      PopsFree(p.(gExpertSlot := p.gExpertSlot[v := EMPTY]));
    }
  }

  /** Where a promotion's victim goes, and when its bytes leave. */
  lemma PromotionHouses(s: State, l: nat, e: nat, slot: nat, c: Choice)
    requires MayPromote(s, l, e, slot, c) && MapsOk(s.pools[l], s.nExpert)
    requires SelfVictim(s.pools[l], slot, c) ==> !s.pools[l].ram[slot].soa
    ensures Housed(s, Promote(s, l, e, slot, c), l, e, slot, c.victim)
    ensures var w := Promote(s, l, e, slot, c).swaps[|s.swaps|];
      w.victim >= 0 && w.to != c.dest ==> FreeSlot(s.pools[l], w.to) || (w.to == EMPTY && c.dest == slot)
  {
    var to := PromoteFacts(s, l, e, slot, c);
    DisplacedTo(s, l, e, slot, c);
    hide Displaced;
    var p, t := s.pools[l], Promote(s, l, e, slot, c);
    assert t.swaps == s.swaps + [t.swaps[|s.swaps|]];
    forall k | FreeSlot(p, k) && k != to ensures FreeSlot(t.pools[l], k) {
    }
  }

  /** The residents a promotion may cost: its victim, whose slot the settle maps if it has one, and the owner of that
      slot, if it was not empty. */
  lemma PromotionCosts(s: State, t: State, l: nat, e: nat, slot: nat, c: Choice, to: int, m: nat, x: nat)
    requires IsPromotion(s, t, l, e, slot, c, to) && PoolShape(s.pools[l], s.nExpert) && m < |s.pools|
    requires Resident(s.pools[m], x) && !Resident(t.pools[m], x)
    ensures m == l && (x == s.pools[l].gpu[c.victim].expert || (to >= 0 && x == s.pools[l].ram[to].expert))
  {
  }

  /** The only expert a promotion noted as w may cost its residence: none while a listed slot is empty, else the owner
      of the slot refilled for the victim, or the victim without a slot. */
  ghost predicate MayLose(s: State, l: nat, w: Swap, x: nat) {
    && l < |s.pools| && (forall k :: !FreeSlot(s.pools[l], k))
    && if w.to < 0 then x == w.victim else Evictable(s, l, w.to) && x == s.pools[l].ram[w.to].expert
  }

  /** Whoever was resident in s and is not in q is the one the promotion may lose. */
  ghost predicate LosesOnly(s: State, q: seq<Pool>, l: nat, w: Swap) {
    |q| == |s.pools| && forall m: nat, x: nat | m < |q| && Resident(s.pools[m], x) && !Resident(q[m], x) ::
      m == l && MayLose(s, l, w, x)
  }

  lemma SettledCosts(s: State, t: State, l: nat, e: nat, slot: nat, c: Choice, w: Swap, q: seq<Pool>)
    requires IsPromotion(s, t, l, e, slot, c, w.to) && PoolShape(s.pools[l], s.nExpert)
    requires Housed(s, t, l, e, slot, c.victim) && w == t.swaps[|s.swaps|]
    requires Conserves(t.pools, q) && Placed(q, w)
    ensures LosesOnly(s, q, l, w)
  {
    forall m: nat, x: nat | m < |q| && Resident(s.pools[m], x) && !Resident(q[m], x)
      ensures m == l && MayLose(s, l, w, x)
    {
      PromotionCosts(s, t, l, e, slot, c, w.to, m, x);
    }
  }

  /** Finishing a swap frees the slot its block came from and lists it for the next victim, if the list has room. */
  lemma FinishFrees(s: State)
    requires Inv(s) && s.swaps != [] && s.compute == [] && s.release == []
    requires var w := s.swaps[0]; w.layer < |s.pools| && Came(s.pools[w.layer], w)
    ensures HeadInRange(s)
    ensures var w, t := s.swaps[0], FinishHead(s); var p, q := s.pools[w.layer], t.pools[w.layer];
      && w.promoted < |q.expertSlot| && q.expertSlot[w.promoted] < 0
      && (|p.free| < |p.ram| ==> FreeSlot(q, w.from))
  {
    var w, p := s.swaps[0], s.pools[s.swaps[0].layer];
    FinishFacts(s, Settled(s));
    CameInVram(s, w);
    hide Inv;
    FreedSlot(p, w);
    FinishReady(p, w);
    FinishedFree(Freed(p, w), w);
  }

  lemma CameInVram(s: State, w: Swap)
    requires Inv(s) && w in s.swaps && w.layer < |s.pools| && Came(s.pools[w.layer], w)
    ensures s.pools[w.layer].gExpertSlot[w.promoted] < |s.pools[w.layer].gpu| && InVram(s.pools[w.layer], w.promoted)
    ensures w.to != w.from
  {
    var d, p := Settled(s), s.pools[w.layer];
    assert LayerOk(d, s.n, s.nExpert, s.landing, s.swaps, w.layer, p);
    assert GpuOk(d, s.n, w.layer, p.gExpertSlot[w.promoted], p.gpu[p.gExpertSlot[w.promoted]], p.lent);
    assert SwapOk(s.pools, s.nExpert, s.ringBusy, d, s.n, w);
  }

  lemma FinishReady(p: Pool, w: Swap)
    requires w.from < |p.ram| && p.ram[w.from].expert < |p.expertSlot|
    requires w.promoted < |p.expertSlot| && w.promoted < |p.gExpertSlot| && p.gExpertSlot[w.promoted] < |p.gpu|
    requires w.to >= 0 ==> w.to < |p.ram| && 0 <= w.victim < |p.expertSlot| && p.ram[w.to].expert < |p.expertSlot|
    requires w.to >= 0 ==> w.victim < |p.gExpertSlot| && p.gExpertSlot[w.victim] < |p.gpu|
    ensures var q := Freed(p, w);
      && (w.to >= 0 ==> w.to < |q.ram| && 0 <= w.victim < |q.expertSlot| && q.ram[w.to].expert < |q.expertSlot|)
      && (w.to >= 0 ==> w.victim < |q.gExpertSlot| && q.gExpertSlot[w.victim] < |q.gpu|)
      && q.gExpertSlot == p.gExpertSlot && q.gpu == p.gpu
  {
  }

  /** The block is in VRAM and still mapped to the RAM slot it came from. */
  ghost predicate Came(p: Pool, w: Swap) {
    && w.promoted < |p.gExpertSlot| && w.promoted < |p.expertSlot| && w.from < |p.ram|
    && p.gExpertSlot[w.promoted] >= 0 && p.expertSlot[w.promoted] == w.from && p.ram[w.from].expert == w.promoted
  }

  lemma FreedSlot(p: Pool, w: Swap)
    requires Came(p, w) && p.gExpertSlot[w.promoted] < |p.gpu| && InVram(p, w.promoted)
    ensures var q := Freed(p, w);
      && |q.ram| == |p.ram| && |q.expertSlot| == |p.expertSlot| && q.expertSlot[w.promoted] < 0
      && (|p.free| < |p.ram| ==> FreeSlot(q, w.from))
  {
  }

  lemma FinishedFree(p: Pool, w: Swap)
    requires w.to >= 0 ==> w.to < |p.ram| && 0 <= w.victim < |p.expertSlot| && p.ram[w.to].expert < |p.expertSlot|
    requires w.to >= 0 ==> w.victim < |p.gExpertSlot| && p.gExpertSlot[w.victim] < |p.gpu|
    requires w.promoted < |p.expertSlot| && p.expertSlot[w.promoted] < 0 && w.to != w.from
    requires w.promoted < |p.gExpertSlot| && p.gExpertSlot[w.promoted] < |p.gpu| && InVram(p, w.promoted)
    ensures var q := Finished(p, w);
      && |q.expertSlot| == |p.expertSlot| && q.expertSlot[w.promoted] < 0
      && (FreeSlot(p, w.from) ==> FreeSlot(q, w.from))
  {
  }
}
