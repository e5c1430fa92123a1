/** When a fetch can fail: each of its experts takes at most one slot that could be refilled, and what a failed fetch
    abandons is exactly the slots its earlier misses took. */
module TierRoom {
  import opened TierState
  import opened TierSteps
  import opened TierProofs
  import opened TierFetch

  // ---------------------------------------------------------------- slots to refill

  ghost predicate Kept(s: State, t: State, l: nat) {
    forall k: nat | Evictable(s, l, k) :: Evictable(t, l, k)
  }

  /** All but at most one of the slots that could be refilled still can. */
  ghost predicate KeptBut(s: State, t: State, l: nat, x: nat) {
    forall k: nat | Evictable(s, l, k) && k != x :: Evictable(t, l, k)
  }

  ghost predicate Roomy(s: State, t: State, l: nat) {
    exists x: nat :: KeptBut(s, t, l, x)
  }

  lemma KeptIsRoomy(s: State, t: State, l: nat)
    requires Kept(s, t, l)
    ensures Roomy(s, t, l)
  {
    assert KeptBut(s, t, l, 0);
  }

  lemma KeptFirst(s: State, t: State, u: State, l: nat)
    requires Kept(s, t, l) && Roomy(t, u, l)
    ensures Roomy(s, u, l)
  {
    var x: nat :| KeptBut(t, u, l, x);
    assert KeptBut(s, u, l, x);
  }

  /** Listing a slot that holds its block in vain, or is listed already, costs nothing. */
  lemma ListKeeps(s: State, t: State, l: nat, k: nat)
    requires t == s.(live := s.live + [k], tick := t.tick) && !Evictable(s, l, k)
    ensures Kept(s, t, l)
  {
  }

  lemma ClaimRoom(s: State, t: State, kind: Kind, l: nat, v: nat, e: nat)
    requires MayClaim(s, l, v, e)
    requires t == ClaimSlot(s, kind, l, v, e).(live := s.live + [v], tick := t.tick)
    ensures Roomy(s, t, l)
  {
    assert KeptBut(s, t, l, v);
  }

  lemma PromotionRoom(s: State, t: State, l: nat, e: nat, slot: nat, c: Choice, to: int)
    requires IsPromotion(s, t, l, e, slot, c, to) && slot in s.live && MayPromote(s, l, e, slot, c)
    ensures Roomy(s, t, l)
  {
    var x: nat := if to >= 0 then to else 0;
    forall k: nat | Evictable(s, l, k) && k != x ensures Evictable(t, l, k) {
      forall i | 0 <= i < |t.release| ensures !(t.release[i].layer == l && t.release[i].slot == k) {
        if i < |s.release| { assert t.release[i] == s.release[i]; }
      }
    }
    assert KeptBut(s, t, l, x);
  }

  lemma ConvertRoom(s: State, l: nat, k: nat)
    requires l < |s.pools| && k < |s.pools[l].ram|
    ensures Kept(s, Convert(s, l, k), l)
  {
  }

  ghost function Free(s: State, l: nat): set<nat>
    requires l < |s.pools|
  {
    set k: nat | k < |s.pools[l].ram| && Evictable(s, l, k)
  }

  lemma {:induction false} Smaller(a: set<nat>, b: set<nat>)
    requires a <= b
    ensures |a| <= |b|
  {
    if a != {} {
      var x :| x in a;
      Smaller(a - {x}, b - {x});
    }
  }

  lemma RoomLeft(s: State, t: State, l: nat)
    requires l < |s.pools| && l < |t.pools| && Roomy(s, t, l)
    ensures |Free(t, l)| + 1 >= |Free(s, l)|
    ensures Kept(s, t, l) ==> |Free(t, l)| >= |Free(s, l)|
  {
    var x: nat :| KeptBut(s, t, l, x);
    assert Free(s, l) - {x} <= Free(t, l);
    Smaller(Free(s, l) - {x}, Free(t, l));
    if Kept(s, t, l) { Smaller(Free(s, l), Free(t, l)); }
  }

  // ---------------------------------------------------------------- what a fetch may need

  /** The expert has no safe place in VRAM: its turn may take a slot. */
  ghost predicate Needy(p: Pool, x: nat) {
    !(x < |p.gExpertSlot| && p.gExpertSlot[x] >= 0 && NoStray(p, x))
  }

  ghost function Needs(p: Pool, ids: seq<nat>): nat {
    if ids == [] then 0 else Needs(p, ids[..|ids| - 1]) + if Needy(p, ids[|ids| - 1]) then 1 else 0
  }

  lemma NeedsNext(p: Pool, ids: seq<nat>, i: nat)
    requires i < |ids|
    ensures Needs(p, ids[..i + 1]) == Needs(p, ids[..i]) + if Needy(p, ids[i]) then 1 else 0
  {
    assert ids[..i + 1][..i] == ids[..i];
  }

  lemma {:induction false} NeedsGrow(p: Pool, ids: seq<nat>, i: nat)
    requires i <= |ids|
    ensures Needs(p, ids[..i]) <= Needs(p, ids)
    decreases |ids| - i
  {
    if i < |ids| {
      NeedsNext(p, ids, i);
      NeedsGrow(p, ids, i + 1);
    } else {
      assert ids[..i] == ids;
    }
  }

  /** The slots of the layer a fetch may refill: not pinned, nothing on its way into them, nothing still read from them
      for VRAM, and not the fetch's own. */
  ghost function Spare(s: State, l: nat, ids: seq<nat>): set<nat>
    requires l < |s.pools|
  {
    set k: nat | k < |s.pools[l].ram| && MaySpare(s, l, ids, k)
  }

  ghost predicate MaySpare(s: State, l: nat, ids: seq<nat>, k: nat)
    requires l < |s.pools| && k < |s.pools[l].ram|
  {
    && !s.pools[l].ram[k].pinned && (s.pools[l].ram[k].expert >= 0 ==> s.pools[l].ram[k].valid)
    && !InRelease(s.release, l, k)
    && forall i | 0 <= i < |ids| && ids[i] < |s.pools[l].expertSlot| :: s.pools[l].expertSlot[ids[i]] != k
  }

  ghost predicate Residents(p: Pool, ids: seq<nat>, k: nat) {
    exists i :: 0 <= i < |ids| && ids[i] < |p.expertSlot| && p.expertSlot[ids[i]] == k
  }

  /** Once the fetch's residents are listed as in use, the others can be refilled. */
  lemma SpareIsFree(s: State, t: State, l: nat, ids: seq<nat>)
    requires l < |s.pools| == |t.pools| && t.pools[l].ram == s.pools[l].ram && t.release == s.release
    requires forall k | k in t.live :: Residents(s.pools[l], ids, k)
    ensures |Spare(s, l, ids)| <= |Free(t, l)|
  {
    forall k | k in Spare(s, l, ids) ensures k in Free(t, l) {
      assert !Residents(s.pools[l], ids, k);
    }
    Smaller(Spare(s, l, ids), Free(t, l));
  }

  // ---------------------------------------------------------------- the fetch's own misses

  /** The j-th expert was a miss: its block is neither there nor on its way by another read. */
  ghost predicate Missing(pending: seq<Awaited>, ids: seq<nat>, out: seq<Handle>, ready: seq<bool>, j: nat)
    requires j < |ids| && j < |out| && j < |ready|
  {
    !ready[j] && Awaited(ids[j], out[j].slot) !in pending
  }

  ghost predicate MissRead(claims: seq<Claim>, l: nat, ids: seq<nat>, out: seq<Handle>, j: nat)
    requires j < |ids| && j < |out|
  {
    Reading(claims, Demand, l, ids[j], out[j].slot)
  }

  ghost predicate MissOf(c: Claim, pending: seq<Awaited>, l: nat, ids: seq<nat>, out: seq<Handle>, ready: seq<bool>) {
    exists j: nat :: j < |out| && j < |ids| && j < |ready| && Missing(pending, ids, out, ready, j)
        && c.layer == l && c.expert == ids[j] && c.slot == out[j].slot
  }

  /** The fetch's own reads are those of its misses so far, one each. */
  ghost predicate OwnMisses(claims: seq<Claim>, pending: seq<Awaited>, l: nat, ids: seq<nat>, out: seq<Handle>,
          ready: seq<bool>) {
    && |out| == |ready| <= |ids|
    && (forall a | a in pending :: a.expert in ids[..|out|])
    && (forall j: nat | j < |out| && Missing(pending, ids, out, ready, j) :: MissRead(claims, l, ids, out, j))
    && (forall i | 0 <= i < |claims| && claims[i].kind == Demand :: MissOf(claims[i], pending, l, ids, out, ready))
  }

  lemma MissesRan(was: seq<Claim>, claims: seq<Claim>, pending: seq<Awaited>, l: nat, ids: seq<nat>, out: seq<Handle>,
          ready: seq<bool>)
    requires OwnMisses(was, pending, l, ids, out, ready) && |claims| == |was|
    requires forall i | 0 <= i < |was| :: claims[i] == was[i].(flying := claims[i].flying)
    ensures OwnMisses(claims, pending, l, ids, out, ready)
  {
    forall j: nat | j < |out| && Missing(pending, ids, out, ready, j) ensures MissRead(claims, l, ids, out, j) {
      assert MissRead(was, l, ids, out, j);
      ReadingKept(was, claims, Demand, l, ids[j], out[j].slot);
    }
    forall i | 0 <= i < |claims| && claims[i].kind == Demand ensures MissOf(claims[i], pending, l, ids, out, ready) {
      assert MissOf(was[i], pending, l, ids, out, ready);
    }
  }

  /** One more expert: waited for, there, or a miss with a read of its own. */
  lemma MissesNext(was: seq<Claim>, held: seq<Awaited>, claims: seq<Claim>, pending: seq<Awaited>, l: nat,
          ids: seq<nat>, out: seq<Handle>, ready: seq<bool>, h: Handle, r: bool, pieces: set<nat>)
    requires OwnMisses(was, held, l, ids, out, ready) && |out| < |ids| && Distinct(ids)
    requires pending == held || (!r && pending == held + [Awaited(ids[|out|], h.slot)])
    requires claims == if !r && pending == held then was + [Claim(Demand, l, ids[|out|], h.slot, pieces)] else was
    ensures OwnMisses(claims, pending, l, ids, out + [h], ready + [r])
  {
    var i, outs, rs := |out|, out + [h], ready + [r];
    assert ids[..i + 1] == ids[..i] + [ids[i]];
    forall j: nat | j < i ensures Missing(pending, ids, outs, rs, j) == Missing(held, ids, out, ready, j) {
      assert ids[j] != ids[i];
    }
    assert Awaited(ids[i], h.slot) !in held by {
      forall a | a in held ensures a.expert != ids[i] { NotYet(ids, i, a); }
    }
    forall j: nat | j < |outs| && Missing(pending, ids, outs, rs, j) ensures MissRead(claims, l, ids, outs, j) {
      if j < i {
        assert MissRead(was, l, ids, out, j);
        ReadingKept(was, claims, Demand, l, ids[j], out[j].slot);
      } else {
        assert claims[|was|].slot == h.slot;
      }
    }
    forall k | 0 <= k < |claims| && claims[k].kind == Demand ensures MissOf(claims[k], pending, l, ids, outs, rs) {
      if k < |was| { StillMiss(was[k], held, pending, l, ids, out, ready, h, r); }
      else { assert Missing(pending, ids, outs, rs, i); }
    }
  }

  lemma NotYet(ids: seq<nat>, i: nat, a: Awaited)
    requires i < |ids| && Distinct(ids) && a.expert in ids[..i]
    ensures a.expert != ids[i]
  {
  }

  lemma StillMiss(c: Claim, held: seq<Awaited>, pending: seq<Awaited>, l: nat, ids: seq<nat>, out: seq<Handle>,
          ready: seq<bool>, h: Handle, r: bool)
    requires |out| == |ready| < |ids| && MissOf(c, held, l, ids, out, ready)
    requires forall j: nat | j < |out| ::
        Missing(pending, ids, out + [h], ready + [r], j) == Missing(held, ids, out, ready, j)
    ensures MissOf(c, pending, l, ids, out + [h], ready + [r])
  {
    var j: nat :| j < |out| && j < |ids| && j < |ready| && Missing(held, ids, out, ready, j)
        && c.layer == l && c.expert == ids[j] && c.slot == out[j].slot;
    assert Missing(pending, ids, out + [h], ready + [r], j);
  }

  /** The blocks of the fetch's own reads. */
  ghost function Taken(claims: seq<Claim>): set<Lost> {
    set i | 0 <= i < |claims| && claims[i].kind == Demand :: Lost(claims[i].layer, claims[i].expert, claims[i].slot)
  }

  /** The slots the misses took. */
  ghost function MissSlots(pending: seq<Awaited>, l: nat, ids: seq<nat>, out: seq<Handle>, ready: seq<bool>): set<Lost>
    requires |out| == |ready| <= |ids|
  {
    set j: nat | j < |out| && Missing(pending, ids, out, ready, j) :: Lost(l, ids[j], out[j].slot)
  }

  lemma TakenAreMisses(claims: seq<Claim>, pending: seq<Awaited>, l: nat, ids: seq<nat>, out: seq<Handle>,
          ready: seq<bool>)
    requires OwnMisses(claims, pending, l, ids, out, ready)
    ensures Taken(claims) == MissSlots(pending, l, ids, out, ready)
  {
    forall b | b in Taken(claims) ensures b in MissSlots(pending, l, ids, out, ready) {
      var i :| 0 <= i < |claims| && claims[i].kind == Demand
          && b == Lost(claims[i].layer, claims[i].expert, claims[i].slot);
      assert MissOf(claims[i], pending, l, ids, out, ready);
    }
    forall b | b in MissSlots(pending, l, ids, out, ready) ensures b in Taken(claims) {
      var j: nat :| j < |out| && Missing(pending, ids, out, ready, j) && b == Lost(l, ids[j], out[j].slot);
      assert MissRead(claims, l, ids, out, j);
    }
  }

  /** Giving one up moves it from the reads to the abandoned. */
  lemma TakenLess(claims: seq<Claim>, i: nat)
    requires i < |claims| && claims[i].kind == Demand
    ensures Taken(claims) == Taken(claims[..i] + claims[i + 1..])
        + {Lost(claims[i].layer, claims[i].expert, claims[i].slot)}
  {
    var less := claims[..i] + claims[i + 1..];
    forall b | b in Taken(claims)
      ensures b in Taken(less) + {Lost(claims[i].layer, claims[i].expert, claims[i].slot)}
    {
      var j :| 0 <= j < |claims| && claims[j].kind == Demand
          && b == Lost(claims[j].layer, claims[j].expert, claims[j].slot);
      if j != i { assert less[if j < i then j else j - 1] == claims[j]; }
    }
    forall b | b in Taken(less) ensures b in Taken(claims) {
      var j :| 0 <= j < |less| && less[j].kind == Demand && b == Lost(less[j].layer, less[j].expert, less[j].slot);
      assert less[j] == claims[if j < i then j else j + 1];
    }
  }
}
