/** Every step keeps the invariant. */
module TierProofs {
  import opened Hardware
  import opened TierState
  import opened TierSteps

  /** A host write to a slot no queued copy reads or writes. */
  lemma Quiet(s: State, l: nat, k: nat)
    requires SwapsOk(s, Settled(s))
    requires !InRelease(s.release, l, k) && !SwapInto(s.swaps, l, k)
    ensures Untouched(s.compute, Ram(l, k))
  {
    forall i | 0 <= i < |s.compute|
      ensures s.compute[i].src != Ram(l, k) && s.compute[i].dst != Ram(l, k)
    {
      assert OpOk(s.release, s.swaps, s.compute[i]);
    }
  }

  lemma RingQuiet(s: State, r: nat)
    requires SwapsOk(s, Settled(s)) && !SwapRing(s.swaps, r)
    ensures Unwritten(s.compute, Ring(r))
  {
    forall i | 0 <= i < |s.compute| ensures s.compute[i].dst != Ring(r) {
      assert OpOk(s.release, s.swaps, s.compute[i]);
    }
  }

  lemma ComputeStepKeeps(s: State)
    requires Inv(s) && s.compute != []
    ensures Inv(ComputeStep(s)) && Settled(ComputeStep(s)) == Settled(s)
  {
  }

  /** Memories d and e agree away from location a. */
  ghost predicate SameBut(d: Mem, e: Mem, a: Loc) {
    forall b :: b != a ==> At(e, b) == At(d, b)
  }

  /** The settled memory after a side-queue copy: only the read-back's destination changed. */
  lemma SideStepMemory(s: State, k: nat) returns (i: nat)
    requires SwapsOk(s, Settled(s)) && LandingOk(s, Settled(s)) && k < |s.side|
    ensures i < |s.landing| && s.landing[i].ring >= 0 && s.landing[i].to >= 0
    ensures s.side[k] == Copy(Ring(s.landing[i].ring), Ram(s.landing[i].layer, s.landing[i].to), false)
    ensures SameBut(Settled(s), Settled(SideStep(s, k)), Ram(s.landing[i].layer, s.landing[i].to))
    ensures At(Settled(SideStep(s, k)), Ram(s.landing[i].layer, s.landing[i].to)) == At(Settled(s),
        Ring(s.landing[i].ring))
  {
    assert SideOk(s.landing, s.side[k]);
    i :| 0 <= i < |s.landing| && s.landing[i].ring >= 0 && s.landing[i].to >= 0
      && s.side[k] == Copy(Ring(s.landing[i].ring), Ram(s.landing[i].layer, s.landing[i].to), false);
    LandedQuiet(s, i);
    var w := s.landing[i];
    DrainFrame(s.compute, s.mem, Ring(w.ring));
    DrainCommutes(s.compute, s.mem, Ram(w.layer, w.to), At(s.mem, Ring(w.ring)));
  }

  /** No queued copy touches what a read-back still to land reads or writes. */
  lemma LandedQuiet(s: State, i: nat)
    requires SwapsOk(s, Settled(s)) && LandingOk(s, Settled(s))
    requires i < |s.landing| && s.landing[i].ring >= 0 && s.landing[i].to >= 0
    ensures Unwritten(s.compute, Ring(s.landing[i].ring))
    ensures Untouched(s.compute, Ram(s.landing[i].layer, s.landing[i].to))
  {
    var w := s.landing[i];
    assert !SwapRing(s.swaps, w.ring) by {
      forall j | 0 <= j < |s.swaps| ensures s.swaps[j].ring != w.ring { assert LandSwapApart(w, s.swaps[j]); }
    }
    assert !SwapInto(s.swaps, w.layer, w.to) by {
      forall j | 0 <= j < |s.swaps|
          ensures !(s.swaps[j].layer == w.layer && s.swaps[j].to == w.to) { assert LandSwapApart(w, s.swaps[j]); }
    }
    assert !InRelease(s.release, w.layer, w.to) by {
      forall j | 0 <= j < |s.release| ensures !(s.release[j].layer == w.layer && s.release[j].slot == w.to) {
        assert LandReleaseApart(w, s.release[j]);
      }
    }
    RingQuiet(s, w.ring);
    Quiet(s, w.layer, w.to);
  }

  /** A layer whose memory is unchanged, under lists that still cover it. */
  lemma LayerFrame(d: Mem, d': Mem, n: nat, nExpert: nat, landing: seq<Swap>, landing': seq<Swap>,
                   swaps: seq<Swap>, swaps': seq<Swap>, l: nat, p: Pool)
    requires LayerOk(d, n, nExpert, landing, swaps, l, p)
    requires forall g: nat :: At(d', Vram(l, g)) == At(d, Vram(l, g))
    requires forall k: nat :: At(d', Ram(l, k)) == At(d, Ram(l, k))
    requires forall k :: LandsAt(landing, l, k) ==> LandsAt(landing', l, k)
    requires forall e, k :: PendingSwap(swaps, l, e, k) ==> PendingSwap(swaps', l, e, k)
    ensures LayerOk(d', n, nExpert, landing', swaps', l, p)
  {
    forall g | 0 <= g < |p.gpu| ensures GpuOk(d', n, l, g, p.gpu[g], p.lent) {
      assert GpuOk(d, n, l, g, p.gpu[g], p.lent);
    }
    forall k | 0 <= k < |p.ram| ensures RamOk(d', n, landing', l, k, p.ram[k]) {
      assert RamOk(d, n, landing, l, k, p.ram[k]);
    }
  }

  /** Memory changed at one RAM location that no swap, read-back or claim relies on. */
  lemma SwapsFrame(s: State, t: State, d: Mem, d': Mem, l: nat, k: nat)
    requires SwapsOk(s, d) && SameBut(d, d', Ram(l, k)) && !SwapInto(s.swaps, l, k)
    requires t == s.(mem := t.mem, side := t.side, claims := t.claims)
    ensures SwapsOk(t, d')
  {
    forall i | 0 <= i < |t.swaps| ensures SwapOk(t.pools, t.nExpert, t.ringBusy, d', t.n, t.swaps[i]) {
      assert SwapOk(s.pools, s.nExpert, s.ringBusy, d, s.n, s.swaps[i]);
    }
  }

  lemma ClaimsFrame(s: State, t: State, d: Mem, d': Mem, a: Loc)
    requires ClaimsOk(s, d) && SameBut(d, d', a)
    requires forall i | 0 <= i < |s.claims| :: Ram(s.claims[i].layer, s.claims[i].slot) != a
    requires t.claims == s.claims && t.pools == s.pools && t.swaps == s.swaps && t.nExpert == s.nExpert && t.n == s.n
    ensures ClaimsOk(t, d')
  {
    forall i | 0 <= i < |t.claims| ensures ClaimOk(t.pools, t.nExpert, d', t.n, t.claims[i]) {
      assert ClaimOk(s.pools, s.nExpert, d, s.n, s.claims[i]);
    }
  }

  lemma SideStepTiers(s: State, t: State, d: Mem, d': Mem, i: nat)
    requires TiersOk(s, d)
    requires i < |s.landing| && s.landing[i].to >= 0 && SameBut(d, d', Ram(s.landing[i].layer, s.landing[i].to))
    requires t == s.(mem := t.mem, side := t.side)
    ensures TiersOk(t, d')
  {
    forall l | 0 <= l < |t.pools| ensures LayerOk(d', t.n, t.nExpert, t.landing, t.swaps, l, t.pools[l]) {
      var p := s.pools[l];
      assert LayerOk(d, s.n, s.nExpert, s.landing, s.swaps, l, p);
      forall k | 0 <= k < |p.ram| ensures RamOk(d', t.n, t.landing, l, k, p.ram[k]) {
        assert RamOk(d, s.n, s.landing, l, k, p.ram[k]);
        if l == s.landing[i].layer && k == s.landing[i].to { assert LandsAt(t.landing, l, k); }
      }
      forall g | 0 <= g < |p.gpu| ensures GpuOk(d', t.n, l, g, p.gpu[g], p.lent) {
        assert GpuOk(d, s.n, l, g, p.gpu[g], p.lent);
      }
    }
  }

  lemma {:induction false} SideStepLanding(s: State, t: State, d: Mem, d': Mem, k: nat, i: nat)
    requires LandingOk(s, d) && k < |s.side| && i < |s.landing| && s.landing[i].to >= 0 && s.landing[i].ring >= 0
    requires s.side[k] == Copy(Ring(s.landing[i].ring), Ram(s.landing[i].layer, s.landing[i].to), false)
    requires SameBut(d, d', Ram(s.landing[i].layer, s.landing[i].to))
    requires At(d', Ram(s.landing[i].layer, s.landing[i].to)) == At(d, Ring(s.landing[i].ring))
    requires t == s.(mem := t.mem, side := s.side[..k] + s.side[k + 1..])
    ensures LandingOk(t, d')
  {
    forall j | 0 <= j < |t.landing|
      ensures LandOk(t.pools, t.nExpert, t.ringBusy, d', t.n, t.side, t.landing[j])
    {
      var w := t.landing[j];
      assert LandOk(s.pools, s.nExpert, s.ringBusy, d, s.n, s.side, s.landing[j]);
      if j != i {
        assert LandsApart(s.landing[i], s.landing[j]) || LandsApart(s.landing[j], s.landing[i]);
        if SideHas(s.side, w) {
          var x :| 0 <= x < |s.side| && s.side[x] == Copy(Ring(w.ring), Ram(w.layer, w.to), false);
          assert t.side[if x < k then x else x - 1] == s.side[x];
        }
      }
    }
    forall x | 0 <= x < |t.side| ensures SideOk(t.landing, t.side[x]) {
      assert t.side[x] == s.side[if x < k then x else x + 1];
    }
  }

  lemma SideStepKeeps(s: State, k: nat)
    requires Inv(s) && k < |s.side|
    ensures Inv(SideStep(s, k))
  {
    var t := SideStep(s, k);
    var d, d' := Settled(s), Settled(t);
    var i := SideStepMemory(s, k);
    var w := s.landing[i];
    SideStepTiers(s, t, d, d', i);
    SideStepLanding(s, t, d, d', k, i);
    assert LandOk(s.pools, s.nExpert, s.ringBusy, d, s.n, s.side, w);
    assert !SwapInto(s.swaps, w.layer, w.to) by {
      forall j | 0 <= j < |s.swaps|
          ensures !(s.swaps[j].layer == w.layer && s.swaps[j].to == w.to) { assert LandSwapApart(w, s.swaps[j]); }
    }
    SwapsFrame(s, t, d, d', w.layer, w.to);
    forall j | 0 <= j < |s.claims| ensures Ram(s.claims[j].layer, s.claims[j].slot) != Ram(w.layer, w.to) {
      assert ClaimOk(s.pools, s.nExpert, d, s.n, s.claims[j]);
    }
    ClaimsFrame(s, t, d, d', Ram(w.layer, w.to));
  }

  // ---------------------------------------------------------------- a piece lands

  lemma PieceStepMemory(s: State, i: nat, q: nat)
    requires SwapsOk(s, Settled(s)) && ClaimsOk(s, Settled(s)) && i < |s.claims|
    ensures var c := s.claims[i]; var a := Ram(c.layer, c.slot); var t := PieceStep(s, i, q);
      && SameBut(Settled(s), Settled(t), a)
      && At(Settled(t), a) == At(Settled(s), a)[q := Part(c.layer, c.expert, q, File)]
      && !SwapInto(s.swaps, c.layer, c.slot)
  {
    var c := s.claims[i];
    assert ClaimOk(s.pools, s.nExpert, Settled(s), s.n, c);
    assert !SwapInto(s.swaps, c.layer, c.slot) by {
      forall j | 0 <= j < |s.swaps|
          ensures !(s.swaps[j].layer == c.layer && s.swaps[j].to == c.slot) { assert ClaimSwapApart(c, s.swaps[j]); }
    }
    forall j | 0 <= j < |s.release| ensures !(s.release[j].layer == c.layer && s.release[j].slot == c.slot) {
      assert ReleaseOk(s.pools, s.release[j]);
    }
    Quiet(s, c.layer, c.slot);
    DrainFrame(s.compute, s.mem, Ram(c.layer, c.slot));
    DrainCommutes(s.compute, s.mem, Ram(c.layer, c.slot),
        At(s.mem, Ram(c.layer, c.slot))[q := Part(c.layer, c.expert, q, File)]);
  }

  lemma PieceStepTiers(s: State, t: State, d: Mem, d': Mem, i: nat)
    requires TiersOk(s, d) && ClaimsOk(s, d) && i < |s.claims|
    requires SameBut(d, d', Ram(s.claims[i].layer, s.claims[i].slot))
    requires t == s.(mem := t.mem, claims := t.claims)
    ensures TiersOk(t, d')
  {
    assert ClaimOk(s.pools, s.nExpert, d, s.n, s.claims[i]);
    forall l | 0 <= l < |t.pools| ensures LayerOk(d', t.n, t.nExpert, t.landing, t.swaps, l, t.pools[l]) {
      var p := s.pools[l];
      assert LayerOk(d, s.n, s.nExpert, s.landing, s.swaps, l, p);
      forall k | 0 <= k < |p.ram| ensures RamOk(d', t.n, t.landing, l, k, p.ram[k]) {
        assert RamOk(d, s.n, s.landing, l, k, p.ram[k]);
      }
      forall g | 0 <= g < |p.gpu| ensures GpuOk(d', t.n, l, g, p.gpu[g], p.lent) {
        assert GpuOk(d, s.n, l, g, p.gpu[g], p.lent);
      }
    }
  }

  lemma LandingFrame(s: State, t: State, d: Mem, d': Mem, a: Loc)
    requires LandingOk(s, d) && SameBut(d, d', a)
    requires forall i | 0 <= i < |s.landing| :: s.landing[i].to >= 0 ==> Ram(s.landing[i].layer, s.landing[i].to) != a
    requires forall i | 0 <= i < |s.landing| :: s.landing[i].ring >= 0 ==> Ring(s.landing[i].ring) != a
    requires t == s.(mem := t.mem, claims := t.claims)
    ensures LandingOk(t, d')
  {
    forall j | 0 <= j < |t.landing|
      ensures LandOk(t.pools, t.nExpert, t.ringBusy, d', t.n, t.side, t.landing[j])
    {
      assert LandOk(s.pools, s.nExpert, s.ringBusy, d, s.n, s.side, s.landing[j]);
    }
  }

  lemma PieceStepClaims(s: State, t: State, d: Mem, d': Mem, i: nat, q: nat)
    requires ClaimsOk(s, d) && i < |s.claims|
    requires var c := s.claims[i]; var a := Ram(c.layer, c.slot);
      SameBut(d, d', a) && At(d', a) == At(d, a)[q := Part(c.layer, c.expert, q, File)]
    requires t == s.(mem := t.mem, claims := s.claims[i := s.claims[i].(flying := s.claims[i].flying - {q})])
    ensures ClaimsOk(t, d')
  {
    forall j | 0 <= j < |t.claims| ensures ClaimOk(t.pools, t.nExpert, d', t.n, t.claims[j]) {
      assert ClaimOk(s.pools, s.nExpert, d, s.n, s.claims[j]);
      if j < i { assert ClaimsApart(s.claims[j], s.claims[i]); }
      if j > i { assert ClaimsApart(s.claims[i], s.claims[j]); }
    }
    forall j, m | 0 <= j < m < |t.claims| ensures ClaimsApart(t.claims[j], t.claims[m]) {
      assert ClaimsApart(s.claims[j], s.claims[m]);
    }
    forall j, m | 0 <= j < |t.claims| && 0 <= m < |t.swaps| ensures ClaimSwapApart(t.claims[j], t.swaps[m]) {
      assert ClaimSwapApart(s.claims[j], s.swaps[m]);
    }
  }

  lemma PieceStepKeeps(s: State, i: nat, q: nat)
    requires Inv(s) && i < |s.claims| && q in s.claims[i].flying
    ensures Inv(PieceStep(s, i, q))
  {
    var t := PieceStep(s, i, q);
    var d, d' := Settled(s), Settled(t);
    var c := s.claims[i];
    PieceStepMemory(s, i, q);
    PieceStepTiers(s, t, d, d', i);
    PieceStepClaims(s, t, d, d', i, q);
    SwapsFrame(s, t, d, d', c.layer, c.slot);
    assert ClaimOk(s.pools, s.nExpert, d, s.n, c);
    forall j | 0 <= j < |s.landing|
        ensures s.landing[j].to >= 0 ==> Ram(s.landing[j].layer, s.landing[j].to) != Ram(c.layer, c.slot) {
      assert LandOk(s.pools, s.nExpert, s.ringBusy, d, s.n, s.side, s.landing[j]);
    }
    LandingFrame(s, t, d, d', Ram(c.layer, c.slot));
  }

  // ---------------------------------------------------------------- a slot is claimed

  lemma ClaimMaps(s: State, d: Mem, l: nat, v: nat, e: nat)
    requires MayClaim(s, l, v, e) && MapsOk(s.pools[l], s.nExpert) && Exclusive(s.swaps, l, s.pools[l], s.nExpert)
    ensures var p' := Refilled(s.pools[l], v, e);
      PoolShape(p', s.nExpert) && MapsOk(p', s.nExpert) && Exclusive(s.swaps, l, p', s.nExpert)
  {
  }

  lemma ClaimTiers(s: State, t: State, d: Mem, l: nat, v: nat, e: nat)
    requires TiersOk(s, d) && MayClaim(s, l, v, e)
    requires t == s.(pools := s.pools[l := Refilled(s.pools[l], v, e)], claims := t.claims)
    ensures TiersOk(t, d)
  {
    var p, p' := s.pools[l], t.pools[l];
    assert LayerOk(d, s.n, s.nExpert, s.landing, s.swaps, l, p);
    ClaimMaps(s, d, l, v, e);
    forall k | 0 <= k < |p'.ram| ensures RamOk(d, t.n, t.landing, l, k, p'.ram[k]) {
      assert RamOk(d, s.n, s.landing, l, k, p.ram[k]);
    }
    forall g | 0 <= g < |p'.gpu| ensures GpuOk(d, t.n, l, g, p'.gpu[g], p'.lent) {
      assert GpuOk(d, s.n, l, g, p.gpu[g], p.lent);
    }
    forall m | 0 <= m < |t.pools| ensures LayerOk(d, t.n, t.nExpert, t.landing, t.swaps, m, t.pools[m]) {
      if m != l { assert LayerOk(d, s.n, s.nExpert, s.landing, s.swaps, m, s.pools[m]); }
    }
  }

  lemma ClaimSwaps(s: State, t: State, d: Mem, l: nat, v: nat, e: nat)
    requires SwapsOk(s, d) && MayClaim(s, l, v, e) && Open(s)
    requires t == s.(pools := s.pools[l := Refilled(s.pools[l], v, e)], claims := t.claims)
    ensures SwapsOk(t, d)
  {
    forall i | 0 <= i < |t.release| ensures ReleaseOk(t.pools, t.release[i]) {
      assert ReleaseOk(s.pools, s.release[i]);
    }
    forall i | 0 <= i < |t.swaps| ensures SwapOk(t.pools, t.nExpert, t.ringBusy, d, t.n, t.swaps[i]) {
      assert SwapOk(s.pools, s.nExpert, s.ringBusy, d, s.n, s.swaps[i]);
      assert InRelease(s.release, s.swaps[i].layer, s.swaps[i].from);
    }
  }

  lemma ClaimLanding(s: State, t: State, d: Mem, l: nat)
    requires LandingOk(s, d) && NoLanding(s, l) && l < |s.pools| && |t.pools| == |s.pools|
    requires t == s.(pools := s.pools[l := t.pools[l]], claims := t.claims)
    ensures LandingOk(t, d)
  {
    forall i | 0 <= i < |t.landing| ensures LandOk(t.pools, t.nExpert, t.ringBusy, d, t.n, t.side, t.landing[i]) {
      assert LandOk(s.pools, s.nExpert, s.ringBusy, d, s.n, s.side, s.landing[i]);
    }
  }

  lemma ClaimClaims(s: State, kind: Kind, l: nat, v: nat, e: nat)
    requires ClaimsOk(s, Settled(s)) && SwapsOk(s, Settled(s)) && MayClaim(s, l, v, e)
    ensures ClaimsOk(ClaimSlot(s, kind, l, v, e), Settled(s))
  {
    var t := ClaimSlot(s, kind, l, v, e);
    var d := Settled(s);
    forall i | 0 <= i < |t.claims| ensures ClaimOk(t.pools, t.nExpert, d, t.n, t.claims[i]) {
      if i < |s.claims| { assert ClaimOk(s.pools, s.nExpert, d, s.n, s.claims[i]); }
    }
    ClaimApart(s, kind, l, v, e);
  }

  /** The new claim's slot is nobody else's. */
  lemma ClaimApart(s: State, kind: Kind, l: nat, v: nat, e: nat)
    requires ClaimsOk(s, Settled(s)) && SwapsOk(s, Settled(s)) && MayClaim(s, l, v, e)
    ensures var t := ClaimSlot(s, kind, l, v, e);
      && (forall i, j | 0 <= i < j < |t.claims| :: ClaimsApart(t.claims[i], t.claims[j]))
      && (forall i, j | 0 <= i < |t.claims| && 0 <= j < |t.swaps| :: ClaimSwapApart(t.claims[i], t.swaps[j]))
  {
    var t := ClaimSlot(s, kind, l, v, e);
    var d := Settled(s);
    forall i, j | 0 <= i < j < |t.claims| ensures ClaimsApart(t.claims[i], t.claims[j]) {
      assert ClaimOk(s.pools, s.nExpert, d, s.n, s.claims[i]);
      if j < |s.claims| { assert ClaimsApart(s.claims[i], s.claims[j]); }
    }
    forall i, j | 0 <= i < |t.claims| && 0 <= j < |t.swaps| ensures ClaimSwapApart(t.claims[i], t.swaps[j]) {
      assert SwapOk(s.pools, s.nExpert, s.ringBusy, d, s.n, s.swaps[j]);
      if i < |s.claims| { assert ClaimSwapApart(s.claims[i], s.swaps[j]); }
    }
  }

  lemma ClaimKeeps(s: State, kind: Kind, l: nat, v: nat, e: nat)
    requires Inv(s) && Open(s) && MayClaim(s, l, v, e)
    ensures Inv(ClaimSlot(s, kind, l, v, e)) && Open(ClaimSlot(s, kind, l, v, e))
        && Settled(ClaimSlot(s, kind, l, v, e)) == Settled(s)
  {
    var t := ClaimSlot(s, kind, l, v, e);
    ClaimTiers(s, t, Settled(s), l, v, e);
    ClaimSwaps(s, t, Settled(s), l, v, e);
    ClaimLanding(s, t, Settled(s), l);
    ClaimClaims(s, kind, l, v, e);
  }

  // ---------------------------------------------------------------- a claim completes

  /** A claim with nothing left flying holds its whole block. */
  lemma CompleteHolds(s: State, d: Mem, i: nat)
    requires ClaimsOk(s, d) && i < |s.claims| && s.claims[i].flying == {}
    ensures var c := s.claims[i]; Holds(At(d, Ram(c.layer, c.slot)), s.n, c.layer, c.expert, File)
  {
    assert ClaimOk(s.pools, s.nExpert, d, s.n, s.claims[i]);
  }

  lemma CompleteTiers(s: State, d: Mem, i: nat)
    requires TiersOk(s, d) && ClaimsOk(s, d) && i < |s.claims| && s.claims[i].flying == {}
    requires s.claims[i].layer < |s.pools| && s.claims[i].slot < |s.pools[s.claims[i].layer].ram|
    ensures TiersOk(Complete(s, i), d)
  {
    var t, c := Complete(s, i), s.claims[i];
    CompleteHolds(s, d, i);
    assert ClaimOk(s.pools, s.nExpert, d, s.n, c);
    forall m | 0 <= m < |t.pools| ensures LayerOk(d, t.n, t.nExpert, t.landing, t.swaps, m, t.pools[m]) {
      assert LayerOk(d, s.n, s.nExpert, s.landing, s.swaps, m, s.pools[m]);
      forall k | 0 <= k < |t.pools[m].ram| ensures RamOk(d, t.n, t.landing, m, k, t.pools[m].ram[k]) {
        assert RamOk(d, s.n, s.landing, m, k, s.pools[m].ram[k]);
      }
    }
  }

  lemma CompleteRest(s: State, d: Mem, i: nat)
    requires SwapsOk(s, d) && LandingOk(s, d) && ClaimsOk(s, d) && i < |s.claims|
    requires s.claims[i].layer < |s.pools| && s.claims[i].slot < |s.pools[s.claims[i].layer].ram|
    ensures SwapsOk(Complete(s, i), d) && LandingOk(Complete(s, i), d)
  {
    var t, c := Complete(s, i), s.claims[i];
    assert ClaimOk(s.pools, s.nExpert, d, s.n, c);
    forall j | 0 <= j < |t.swaps| ensures SwapOk(t.pools, t.nExpert, t.ringBusy, d, t.n, t.swaps[j]) {
      assert SwapOk(s.pools, s.nExpert, s.ringBusy, d, s.n, s.swaps[j]);
      assert ClaimSwapApart(c, s.swaps[j]);
    }
    forall j | 0 <= j < |t.release|
        ensures ReleaseOk(t.pools, t.release[j]) { assert ReleaseOk(s.pools, s.release[j]); }
    forall j | 0 <= j < |t.landing| ensures LandOk(t.pools, t.nExpert, t.ringBusy, d, t.n, t.side, t.landing[j]) {
      assert LandOk(s.pools, s.nExpert, s.ringBusy, d, s.n, s.side, s.landing[j]);
    }
  }

  lemma CompleteClaims(s: State, d: Mem, i: nat)
    requires ClaimsOk(s, d) && i < |s.claims|
    requires s.claims[i].layer < |s.pools| && s.claims[i].slot < |s.pools[s.claims[i].layer].ram|
    ensures ClaimsOk(Complete(s, i), d)
  {
    var t := Complete(s, i);
    forall j | 0 <= j < |t.claims| ensures ClaimOk(t.pools, t.nExpert, d, t.n, t.claims[j]) {
      var x := if j < i then j else j + 1;
      assert t.claims[j] == s.claims[x];
      assert ClaimOk(s.pools, s.nExpert, d, s.n, s.claims[x]);
      assert if x < i then ClaimsApart(s.claims[x], s.claims[i]) else ClaimsApart(s.claims[i], s.claims[x]);
    }
    forall j, m | 0 <= j < m < |t.claims| ensures ClaimsApart(t.claims[j], t.claims[m]) {
      assert ClaimsApart(s.claims[if j < i then j else j + 1], s.claims[if m < i then m else m + 1]);
    }
    forall j, m | 0 <= j < |t.claims| && 0 <= m < |t.swaps| ensures ClaimSwapApart(t.claims[j], t.swaps[m]) {
      assert ClaimSwapApart(s.claims[if j < i then j else j + 1], s.swaps[m]);
    }
  }

  lemma CompleteKeeps(s: State, i: nat)
    requires Inv(s) && i < |s.claims| && s.claims[i].flying == {}
    ensures s.claims[i].layer < |s.pools| && s.claims[i].slot < |s.pools[s.claims[i].layer].ram|
    ensures Inv(Complete(s, i)) && Settled(Complete(s, i)) == Settled(s)
  {
    assert ClaimOk(s.pools, s.nExpert, Settled(s), s.n, s.claims[i]);
    CompleteTiers(s, Settled(s), i);
    CompleteRest(s, Settled(s), i);
    CompleteClaims(s, Settled(s), i);
  }

  /** The claim's whole block is in its slot, in the file's arrangement. */
  ghost predicate BlockIn(s: State, c: Claim) {
    Holds(At(Settled(s), Ram(c.layer, c.slot)), s.n, c.layer, c.expert, File)
  }

  lemma ClaimInRange(s: State, i: nat)
    requires Inv(s) && i < |s.claims|
    ensures s.claims[i].layer < |s.pools| && s.claims[i].slot < |s.pools[s.claims[i].layer].ram|
    ensures s.claims[i].flying == {} ==> BlockIn(s, s.claims[i])
  {
    assert ClaimOk(s.pools, s.nExpert, Settled(s), s.n, s.claims[i]);
  }

  /** A claimed slot may be marked valid exactly when its block is there: marking it before its reads have landed breaks
      the tiers. */
  lemma CompleteIff(s: State, i: nat)
    requires Inv(s) && i < |s.claims|
    ensures s.claims[i].layer < |s.pools| && s.claims[i].slot < |s.pools[s.claims[i].layer].ram|
    ensures Inv(Complete(s, i)) <==> BlockIn(s, s.claims[i])
  {
    var d, c := Settled(s), s.claims[i];
    assert ClaimOk(s.pools, s.nExpert, d, s.n, c);
    forall j | 0 <= j < |s.landing| ensures !(s.landing[j].layer == c.layer && s.landing[j].to == c.slot) {
      assert LandOk(s.pools, s.nExpert, s.ringBusy, d, s.n, s.side, s.landing[j]);
    }
    var t := Complete(s, i);
    CompleteRest(s, d, i);
    CompleteClaims(s, d, i);
    if BlockIn(s, c) {
      var u := s.(claims := s.claims[i := c.(flying := {})]);
      EarlyClaims(s, u, i);
      CompleteTiers(u, d, i);
      assert Complete(u, i).pools == t.pools;
    }
    if Inv(t) {
      assert LayerOk(d, t.n, t.nExpert, t.landing, t.swaps, c.layer, t.pools[c.layer]);
      assert RamOk(d, t.n, t.landing, c.layer, c.slot, t.pools[c.layer].ram[c.slot]);
    }
  }

  lemma EarlyClaims(s: State, u: State, i: nat)
    requires ClaimsOk(s, Settled(s)) && i < |s.claims| && u == s.(claims := s.claims[i := s.claims[i].(flying := {})])
    requires var c := s.claims[i]; Holds(At(Settled(s), Ram(c.layer, c.slot)), s.n, c.layer, c.expert, File)
    ensures ClaimsOk(u, Settled(u))
  {
    forall j | 0 <= j < |u.claims| ensures ClaimOk(u.pools, u.nExpert, Settled(u), u.n, u.claims[j]) {
      assert ClaimOk(s.pools, s.nExpert, Settled(s), s.n, s.claims[j]);
    }
    forall j, m | 0 <= j < m < |u.claims| ensures ClaimsApart(u.claims[j], u.claims[m]) {
      assert ClaimsApart(s.claims[j], s.claims[m]);
    }
    forall j, m | 0 <= j < |u.claims| && 0 <= m < |u.swaps| ensures ClaimSwapApart(u.claims[j], u.swaps[m]) {
      assert ClaimSwapApart(s.claims[j], s.swaps[m]);
    }
  }

  // ---------------------------------------------------------------- conversion in place

  lemma ConvertMemory(s: State, l: nat, k: nat)
    requires SwapsOk(s, Settled(s)) && MayConvert(s, l, k) && s.pools[l].ram[k].soa
    ensures var a := Ram(l, k); var t := Convert(s, l, k);
      && SameBut(Settled(s), Settled(t), a)
      && At(Settled(t), a) == Converted(At(Settled(s), a))
      && !SwapInto(s.swaps, l, k)
  {
    assert !SwapInto(s.swaps, l, k) by {
      forall j | 0 <= j < |s.swaps| ensures !(s.swaps[j].layer == l && s.swaps[j].to == k) {
        assert SwapOk(s.pools, s.nExpert, s.ringBusy, Settled(s), s.n, s.swaps[j]);
      }
    }
    Quiet(s, l, k);
    DrainFrame(s.compute, s.mem, Ram(l, k));
    DrainCommutes(s.compute, s.mem, Ram(l, k), Converted(At(s.mem, Ram(l, k))));
  }

  lemma ConvertTiers(s: State, t: State, d: Mem, d': Mem, l: nat, k: nat)
    requires TiersOk(s, d) && MayConvert(s, l, k) && s.pools[l].ram[k].soa
    requires SameBut(d, d', Ram(l, k)) && At(d', Ram(l, k)) == Converted(At(d, Ram(l, k)))
    requires var p := s.pools[l];
      t == s.(mem := t.mem, pools := s.pools[l := p.(ram := p.ram[k := p.ram[k].(soa := false)])])
    ensures TiersOk(t, d')
  {
    forall m | 0 <= m < |t.pools| ensures LayerOk(d', t.n, t.nExpert, t.landing, t.swaps, m, t.pools[m]) {
      ConvertLayer(s, t, d, d', l, k, m);
    }
  }

  lemma ConvertLayer(s: State, t: State, d: Mem, d': Mem, l: nat, k: nat, m: nat)
    requires TiersOk(s, d) && MayConvert(s, l, k) && s.pools[l].ram[k].soa && m < |s.pools|
    requires SameBut(d, d', Ram(l, k)) && At(d', Ram(l, k)) == Converted(At(d, Ram(l, k)))
    requires var p := s.pools[l];
      t == s.(mem := t.mem, pools := s.pools[l := p.(ram := p.ram[k := p.ram[k].(soa := false)])])
    ensures LayerOk(d', t.n, t.nExpert, t.landing, t.swaps, m, t.pools[m])
  {
    var p := s.pools[m];
    assert LayerOk(d, s.n, s.nExpert, s.landing, s.swaps, m, p);
    forall j | 0 <= j < |p.ram| ensures RamOk(d', t.n, t.landing, m, j, t.pools[m].ram[j]) {
      assert RamOk(d, s.n, s.landing, m, j, p.ram[j]);
    }
    forall g | 0 <= g < |p.gpu| ensures GpuOk(d', t.n, m, g, p.gpu[g], p.lent) {
      assert GpuOk(d, s.n, m, g, p.gpu[g], p.lent);
    }
  }

  /** Swaps, read-backs and claims when one RAM slot none of them uses changes, bytes and flag. */
  lemma ConvertRest(s: State, t: State, d: Mem, d': Mem, l: nat, k: nat)
    requires SwapsOk(s, d) && LandingOk(s, d) && ClaimsOk(s, d) && MayConvert(s, l, k)
    requires SameBut(d, d', Ram(l, k)) && !SwapInto(s.swaps, l, k)
    requires var p := s.pools[l];
      t == s.(mem := t.mem, pools := s.pools[l := p.(ram := p.ram[k := p.ram[k].(soa := false)])])
    ensures SwapsOk(t, d') && LandingOk(t, d') && ClaimsOk(t, d')
  {
    forall j | 0 <= j < |t.release|
        ensures ReleaseOk(t.pools, t.release[j]) { assert ReleaseOk(s.pools, s.release[j]); }
    forall j | 0 <= j < |t.swaps| ensures SwapOk(t.pools, t.nExpert, t.ringBusy, d', t.n, t.swaps[j]) {
      assert SwapOk(s.pools, s.nExpert, s.ringBusy, d, s.n, s.swaps[j]);
    }
    forall j | 0 <= j < |t.landing| ensures LandOk(t.pools, t.nExpert, t.ringBusy, d', t.n, t.side, t.landing[j]) {
      assert LandOk(s.pools, s.nExpert, s.ringBusy, d, s.n, s.side, s.landing[j]);
    }
    forall j | 0 <= j < |t.claims| ensures ClaimOk(t.pools, t.nExpert, d', t.n, t.claims[j]) {
      assert ClaimOk(s.pools, s.nExpert, d, s.n, s.claims[j]);
    }
  }

  lemma ConvertKeeps(s: State, l: nat, k: nat)
    requires Inv(s) && MayConvert(s, l, k)
    ensures Inv(Convert(s, l, k))
  {
    if s.pools[l].ram[k].soa {
      var t := Convert(s, l, k);
      ConvertMemory(s, l, k);
      ConvertTiers(s, t, Settled(s), Settled(t), l, k);
      ConvertRest(s, t, Settled(s), Settled(t), l, k);
    }
  }

  // ---------------------------------------------------------------- promotion

  /** What a promotion whose upload knew its block's layout does: the victim leaves VRAM for slot `to` (if any), which
      was not in flight, protected or the promoted block's own, and nothing else moves. */
  ghost predicate IsPromotion(s: State, t: State, l: nat, e: nat, slot: nat, c: Choice, to: int) {
    && l < |s.pools| && |t.pools| == |s.pools| && c.victim < |s.pools[l].gpu|
    && var p, p' := s.pools[l], t.pools[l];
    && var v := p.gpu[c.victim].expert;
    && |p'.ram| == |p.ram| && |p'.expertSlot| == |p.expertSlot| && p'.lent == p.lent
    && v < |p.gExpertSlot| && e < |p.gExpertSlot|
    && p'.gpu == p.gpu[c.victim := GpuSlot(e, true, s.tick)]
    && p'.gExpertSlot == (if v >= 0 then p.gExpertSlot[v := EMPTY] else p.gExpertSlot)[e := c.victim]
    && (to == EMPTY || (0 <= to < |p.ram| && v >= 0 && to != slot && (p.ram[to].expert >= 0 ==> Evictable(s, l, to))
          && p'.ram[to] == RamSlot(v, false, false, p.ram[to].pinned)))
    && (forall k | 0 <= k < |p.ram| && k != to :: p'.ram[k] == p.ram[k])
    && (forall i | 0 <= i < |p'.free| :: p'.free[i] < |p.ram|)
    && (forall x | 0 <= x < |p.expertSlot| ::
        p'.expertSlot[x] == EMPTY || (p'.expertSlot[x] == p.expertSlot[x] && (to < 0 || p'.expertSlot[x] != to)))
    && (forall x | 0 <= x < |p.expertSlot| :: p'.expertSlot[x] == p.expertSlot[x] || (to >= 0 && p.ram[to].expert == x))
    && var ring := if to >= 0 then c.ring else EMPTY;
    && t == s.(pools := s.pools[l := p'], compute := t.compute,
               ringBusy := if 0 <= ring < |s.ringBusy| then s.ringBusy[ring := true] else s.ringBusy,
               swaps := s.swaps + [Swap(l, e, slot, v, to, ring)], release := s.release + [Release(l, e, slot)])
  }

  /** The pool after the victim's departure: its map entry and its slot's old one are gone, and nothing else moved. */
  lemma DepartingFacts(s: State, l: nat, e: nat, slot: nat, c: Choice)
    requires MayPromote(s, l, e, slot, c) && MapsOk(s.pools[l], s.nExpert)
    requires SelfVictim(s.pools[l], slot, c) ==> !s.pools[l].ram[slot].soa
    ensures var p := s.pools[l]; var (to, q) := Departing(p, slot, c); var v := p.gpu[c.victim].expert;
      && to == Displaced(p, slot, c).0 && EMPTY <= to < |p.ram| && to != slot
      && |q.ram| == |p.ram| && |q.expertSlot| == |p.expertSlot| && q.lent == p.lent && q.gpu == p.gpu
      && q.gExpertSlot == (if v >= 0 then p.gExpertSlot[v := EMPTY] else p.gExpertSlot)
      && (to >= 0 ==>
            && v >= 0 && (p.ram[to].expert >= 0 ==> Evictable(s, l, to))
            && q.ram[to] == RamSlot(v, false, false, p.ram[to].pinned))
      && (forall k | 0 <= k < |p.ram| && k != to :: q.ram[k] == p.ram[k])
      && (forall i | 0 <= i < |q.free| :: q.free[i] < |p.ram|)
      && (forall x | 0 <= x < |p.expertSlot| ::
          q.expertSlot[x] == EMPTY || (q.expertSlot[x] == p.expertSlot[x] && (to < 0 || q.expertSlot[x] != to)))
      && (forall x | 0 <= x < |p.expertSlot| ::
          q.expertSlot[x] == p.expertSlot[x] || (to >= 0 && p.ram[to].expert == x))
      && Displaced(p, slot, c).1.ram[slot].soa == p.ram[slot].soa
  {
  }

  lemma {:induction false} PromoteFacts(s: State, l: nat, e: nat, slot: nat, c: Choice) returns (to: int)
    requires MayPromote(s, l, e, slot, c) && MapsOk(s.pools[l], s.nExpert)
    requires SelfVictim(s.pools[l], slot, c) ==> !s.pools[l].ram[slot].soa
    ensures to == Displaced(s.pools[l], slot, c).0
    ensures IsPromotion(s, Promote(s, l, e, slot, c), l, e, slot, c, to)
    ensures Displaced(s.pools[l], slot, c).1.ram[slot].soa == s.pools[l].ram[slot].soa
  {
    to := Displaced(s.pools[l], slot, c).0;
    DepartingFacts(s, l, e, slot, c);
  }

  /** What a promotion changes in the settled memory: the victim's way out, then the upload over it. */
  ghost predicate PromotedMemory(d: Mem, d': Mem, l: nat, slot: nat, c: Choice, to: int, soa: bool) {
    && At(d', Vram(l, c.victim)) == Uploaded(At(d, Ram(l, slot)), !soa)
    && (to < 0 ==> SameBut(d, d', Vram(l, c.victim)))
    && (to >= 0 ==>
        var out := if c.ring >= 0 then Ring(c.ring) else Ram(l, to);
        && At(d', out) == At(d, Vram(l, c.victim))
        && (forall a :: a != Vram(l, c.victim) && a != out ==> At(d', a) == At(d, a)))
  }

  lemma TwoCopies(d: Mem, c1: Copy, c2: Copy)
    requires c2.src != c1.dst && c1.dst != c2.dst && !c1.reorder
    ensures var d' := Do(c2, Do(c1, d));
      && At(d', c1.dst) == At(d, c1.src) && At(d', c2.dst) == Uploaded(At(d, c2.src), c2.reorder)
      && (forall a :: a != c1.dst && a != c2.dst ==> At(d', a) == At(d, a))
  {
  }

  /** The settled memory after any promotion; `soa` is the layout flag the upload read. */
  lemma PromoteMemory(s: State, l: nat, e: nat, slot: nat, c: Choice)
    requires MayPromote(s, l, e, slot, c)
    ensures var (to, q) := Displaced(s.pools[l], slot, c);
      PromotedMemory(Settled(s), Settled(Promote(s, l, e, slot, c)), l, slot, c, to, q.ram[slot].soa)
  {
    var t := Promote(s, l, e, slot, c);
    var (to, q) := Displaced(s.pools[l], slot, c);
    assert to != slot;
    var upload := Copy(Ram(l, slot), Vram(l, c.victim), !q.ram[slot].soa);
    if to < 0 {
      assert Settled(t) == Do(upload, Settled(s)) by {
        assert t.compute == s.compute + [upload];
        DrainAppend(s.compute, upload, s.mem);
      }
    } else {
      var out := Copy(Vram(l, c.victim), if c.ring >= 0 then Ring(c.ring) else Ram(l, to), false);
      assert Settled(t) == Do(upload, Do(out, Settled(s))) by {
        assert t.compute == (s.compute + [out]) + [upload];
        DrainAppend(s.compute, out, s.mem);
        DrainAppend(s.compute + [out], upload, s.mem);
      }
      TwoCopies(Settled(s), out, upload);
    }
  }

  lemma PromoteMaps(s: State, t: State, l: nat, e: nat, slot: nat, c: Choice, to: int)
    requires MayPromote(s, l, e, slot, c) && MapsOk(s.pools[l], s.nExpert) && IsPromotion(s, t, l, e, slot, c, to)
    ensures PoolShape(t.pools[l], t.nExpert) && MapsOk(t.pools[l], t.nExpert)
  {
  }

  lemma PromoteBytes(s: State, t: State, l: nat, e: nat, slot: nat, c: Choice, to: int, d: Mem, d': Mem)
    requires MayPromote(s, l, e, slot, c) && LayerOk(d, s.n, s.nExpert, s.landing, s.swaps, l, s.pools[l])
    requires IsPromotion(s, t, l, e, slot, c, to) && PromotedMemory(d, d', l, slot, c, to, s.pools[l].ram[slot].soa)
    ensures var p' := t.pools[l];
      && (forall g | 0 <= g < |p'.gpu| :: GpuOk(d', s.n, l, g, p'.gpu[g], p'.lent))
      && (forall k | 0 <= k < |p'.ram| :: RamOk(d', s.n, s.landing, l, k, p'.ram[k]))
  {
    var p, p' := s.pools[l], t.pools[l];
    assert RamOk(d, s.n, s.landing, l, slot, p.ram[slot]);
    assert Holds(At(d', Vram(l, c.victim)), s.n, l, e, Device);
    forall g | 0 <= g < |p'.gpu| ensures GpuOk(d', s.n, l, g, p'.gpu[g], p'.lent) {
      assert GpuOk(d, s.n, l, g, p.gpu[g], p.lent);
    }
    forall k | 0 <= k < |p'.ram| ensures RamOk(d', s.n, s.landing, l, k, p'.ram[k]) {
      assert RamOk(d, s.n, s.landing, l, k, p.ram[k]);
    }
  }

  lemma PendingGrows(swaps: seq<Swap>, w: Swap, l: nat, e: nat, k: int)
    requires PendingSwap(swaps, l, e, k)
    ensures PendingSwap(swaps + [w], l, e, k)
  {
    var i :| 0 <= i < |swaps| && swaps[i].layer == l && swaps[i].promoted == e && swaps[i].from == k;
    assert (swaps + [w])[i] == swaps[i];
  }

  lemma PromoteExclusive(s: State, t: State, l: nat, e: nat, slot: nat, c: Choice, to: int)
    requires MayPromote(s, l, e, slot, c) && Exclusive(s.swaps, l, s.pools[l], s.nExpert)
    requires IsPromotion(s, t, l, e, slot, c, to) && PoolShape(t.pools[l], t.nExpert)
    ensures Exclusive(t.swaps, l, t.pools[l], t.nExpert)
  {
    var p, p' := s.pools[l], t.pools[l];
    assert t.swaps[|s.swaps|].promoted == e;
    forall x | 0 <= x < s.nExpert && p'.expertSlot[x] >= 0 && p'.gExpertSlot[x] >= 0
      ensures PendingSwap(t.swaps, l, x, p'.expertSlot[x])
    {
      if x != e { PendingGrows(s.swaps, t.swaps[|s.swaps|], l, x, p.expertSlot[x]); }
    }
  }

  lemma PromoteTiers(s: State, t: State, l: nat, e: nat, slot: nat, c: Choice, to: int, d: Mem, d': Mem)
    requires MayPromote(s, l, e, slot, c) && TiersOk(s, d)
    requires IsPromotion(s, t, l, e, slot, c, to) && PromotedMemory(d, d', l, slot, c, to, s.pools[l].ram[slot].soa)
    ensures TiersOk(t, d')
  {
    assert LayerOk(d, s.n, s.nExpert, s.landing, s.swaps, l, s.pools[l]);
    PromoteMaps(s, t, l, e, slot, c, to);
    PromoteExclusive(s, t, l, e, slot, c, to);
    PromoteBytes(s, t, l, e, slot, c, to, d, d');
    forall m | 0 <= m < |t.pools| ensures LayerOk(d', t.n, t.nExpert, t.landing, t.swaps, m, t.pools[m]) {
      if m != l {
        forall x, k | PendingSwap(s.swaps, m, x, k) ensures PendingSwap(t.swaps, m, x, k) {
          PendingGrows(s.swaps, t.swaps[|s.swaps|], m, x, k);
        }
        LayerFrame(d, d', s.n, s.nExpert, s.landing, t.landing, s.swaps, t.swaps, m, s.pools[m]);
      }
    }
  }

  lemma ReleaseGrows(release: seq<Release>, r: Release, l: nat, k: int)
    requires InRelease(release, l, k)
    ensures InRelease(release + [r], l, k)
  {
    var i :| 0 <= i < |release| && release[i].layer == l && release[i].slot == k;
    assert (release + [r])[i] == release[i];
  }

  lemma OpGrows(release: seq<Release>, r: Release, swaps: seq<Swap>, w: Swap, c: Copy)
    requires OpOk(release, swaps, c)
    ensures OpOk(release + [r], swaps + [w], c)
  {
    match c
    case Copy(Ram(l, k), Vram(_, _), _) => ReleaseGrows(release, r, l, k);
    case Copy(Vram(_, _), Ring(x), _) =>
      var i :| 0 <= i < |swaps| && swaps[i].ring == x;
      assert (swaps + [w])[i] == swaps[i];
    case Copy(Vram(_, _), Ram(l, k), _) =>
      var i :| 0 <= i < |swaps| && swaps[i].layer == l && swaps[i].to == k;
      assert (swaps + [w])[i] == swaps[i];
  }

  lemma PromoteOps(s: State, l: nat, e: nat, slot: nat, c: Choice)
    requires MayPromote(s, l, e, slot, c)
    requires forall i | 0 <= i < |s.compute| :: OpOk(s.release, s.swaps, s.compute[i])
    ensures var t := Promote(s, l, e, slot, c); forall i | 0 <= i < |t.compute| ::
        OpOk(t.release, t.swaps, t.compute[i])
  {
    var t := Promote(s, l, e, slot, c);
    assert t.swaps[|s.swaps|].layer == l && t.release[|s.release|].slot == slot;
    forall i | 0 <= i < |t.compute| ensures OpOk(t.release, t.swaps, t.compute[i]) {
      if i < |s.compute| {
        assert t.compute[i] == s.compute[i];
        OpGrows(s.release, t.release[|s.release|], s.swaps, t.swaps[|s.swaps|], s.compute[i]);
      }
    }
  }

  lemma PromoteOldSwaps(s: State, t: State, l: nat, e: nat, slot: nat, c: Choice, to: int, d: Mem, d': Mem)
    requires MayPromote(s, l, e, slot, c) && SwapsOk(s, d) && Open(s)
    requires IsPromotion(s, t, l, e, slot, c, to) && PromotedMemory(d, d', l, slot, c, to, s.pools[l].ram[slot].soa)
    ensures forall i | 0 <= i < |s.swaps| :: SwapOk(t.pools, t.nExpert, t.ringBusy, d', t.n, t.swaps[i])
  {
    forall i | 0 <= i < |s.swaps| ensures SwapOk(t.pools, t.nExpert, t.ringBusy, d', t.n, t.swaps[i]) {
      assert t.swaps[i] == s.swaps[i];
      var w := s.swaps[i];
      assert SwapOk(s.pools, s.nExpert, s.ringBusy, d, s.n, w);
      var r :| 0 <= r < |s.release| && s.release[r].layer == w.layer && s.release[r].slot == w.from;
      assert ReleaseOk(s.pools, s.release[r]);
    }
  }

  lemma PromoteNewSwap(s: State, t: State, l: nat, e: nat, slot: nat, c: Choice, to: int, d: Mem, d': Mem)
    requires MayPromote(s, l, e, slot, c) && LayerOk(d, s.n, s.nExpert, s.landing, s.swaps, l, s.pools[l])
    requires IsPromotion(s, t, l, e, slot, c, to) && PromotedMemory(d, d', l, slot, c, to, s.pools[l].ram[slot].soa)
    ensures SwapOk(t.pools, t.nExpert, t.ringBusy, d', t.n, t.swaps[|s.swaps|])
  {
    assert GpuOk(d, s.n, l, c.victim, s.pools[l].gpu[c.victim], s.pools[l].lent);
  }

  lemma PromoteApart(s: State, t: State, l: nat, e: nat, slot: nat, c: Choice, to: int, d: Mem)
    requires MayPromote(s, l, e, slot, c) && SwapsOk(s, d) && Open(s) && IsPromotion(s, t, l, e, slot, c, to)
    ensures forall i, j | 0 <= i < j < |t.swaps| :: SwapsApart(t.swaps[i], t.swaps[j])
  {
    forall i, j | 0 <= i < j < |t.swaps| ensures SwapsApart(t.swaps[i], t.swaps[j]) {
      assert t.swaps[i] == s.swaps[i];
      assert SwapOk(s.pools, s.nExpert, s.ringBusy, d, s.n, s.swaps[i]);
      if j < |s.swaps| { assert SwapsApart(s.swaps[i], s.swaps[j]); }
      else if to >= 0 && s.swaps[i].layer == l {
        var r :| 0 <= r < |s.release| && s.release[r].layer == s.swaps[i].layer && s.release[r].slot == s.swaps[i].from;
        assert ReleaseOk(s.pools, s.release[r]);
      }
    }
  }

  lemma PromoteReleases(s: State, t: State, l: nat, e: nat, slot: nat, c: Choice, to: int, d: Mem)
    requires MayPromote(s, l, e, slot, c) && SwapsOk(s, d) && Open(s) && IsPromotion(s, t, l, e, slot, c, to)
    ensures Open(t) && forall i | 0 <= i < |t.release| :: ReleaseOk(t.pools, t.release[i])
  {
    forall i | 0 <= i < |t.release| ensures ReleaseOk(t.pools, t.release[i]) {
      if i < |s.release| { assert ReleaseOk(s.pools, s.release[i]); assert InRelease(s.release, s.release[i].layer,
          s.release[i].slot); }
    }
    forall i | 0 <= i < |t.swaps| ensures InRelease(t.release, t.swaps[i].layer, t.swaps[i].from) {
      if i < |s.swaps| { ReleaseGrows(s.release, t.release[|s.release|], s.swaps[i].layer, s.swaps[i].from); }
      else { assert t.release[|s.release|].slot == slot; }
    }
  }

  lemma PromoteLanding(s: State, t: State, l: nat, e: nat, slot: nat, c: Choice, to: int, d: Mem, d': Mem)
    requires MayPromote(s, l, e, slot, c) && LandingOk(s, d)
    requires IsPromotion(s, t, l, e, slot, c, to) && PromotedMemory(d, d', l, slot, c, to, s.pools[l].ram[slot].soa)
    ensures LandingOk(t, d')
  {
    forall i | 0 <= i < |t.landing| ensures LandOk(t.pools, t.nExpert, t.ringBusy, d', t.n, t.side, t.landing[i]) {
      assert LandOk(s.pools, s.nExpert, s.ringBusy, d, s.n, s.side, s.landing[i]);
    }
    forall i, j | 0 <= i < |t.landing| && 0 <= j < |t.swaps| ensures LandSwapApart(t.landing[i], t.swaps[j]) {
      assert LandOk(s.pools, s.nExpert, s.ringBusy, d, s.n, s.side, s.landing[i]);
      if j < |s.swaps| { assert LandSwapApart(s.landing[i], s.swaps[j]); }
    }
    forall i, j | 0 <= i < |t.landing| && 0 <= j < |t.release| ensures LandReleaseApart(t.landing[i], t.release[j]) {
      if j < |s.release| { assert LandReleaseApart(s.landing[i], s.release[j]); }
    }
  }

  lemma PromoteClaims(s: State, t: State, l: nat, e: nat, slot: nat, c: Choice, to: int, d: Mem, d': Mem)
    requires MayPromote(s, l, e, slot, c) && ClaimsOk(s, d)
    requires IsPromotion(s, t, l, e, slot, c, to) && PromotedMemory(d, d', l, slot, c, to, s.pools[l].ram[slot].soa)
    ensures ClaimsOk(t, d')
  {
    forall i | 0 <= i < |t.claims| ensures ClaimOk(t.pools, t.nExpert, d', t.n, t.claims[i]) {
      assert ClaimOk(s.pools, s.nExpert, d, s.n, s.claims[i]);
    }
    forall i, j | 0 <= i < |t.claims| && 0 <= j < |t.swaps| ensures ClaimSwapApart(t.claims[i], t.swaps[j]) {
      assert ClaimOk(s.pools, s.nExpert, d, s.n, s.claims[i]);
      if j < |s.swaps| { assert ClaimSwapApart(s.claims[i], s.swaps[j]); }
    }
  }

  lemma {:induction false} PromoteKeeps(s: State, l: nat, e: nat, slot: nat, c: Choice)
    requires Inv(s) && Open(s) && MayPromote(s, l, e, slot, c)
    requires SelfVictim(s.pools[l], slot, c) ==> !s.pools[l].ram[slot].soa
    ensures var t := Promote(s, l, e, slot, c); Inv(t) && Open(t)
  {
    assert LayerOk(Settled(s), s.n, s.nExpert, s.landing, s.swaps, l, s.pools[l]);
    var to := PromoteFacts(s, l, e, slot, c);
    PromoteMemory(s, l, e, slot, c);
    PromoteOps(s, l, e, slot, c);
    PromotedKeeps(s, Promote(s, l, e, slot, c), l, e, slot, c, to);
  }

  lemma {:induction false} PromotedKeeps(s: State, t: State, l: nat, e: nat, slot: nat, c: Choice, to: int)
    requires Inv(s) && Open(s) && MayPromote(s, l, e, slot, c) && MapsOk(s.pools[l], s.nExpert)
    requires IsPromotion(s, t, l, e, slot, c, to)
    requires PromotedMemory(Settled(s), Settled(t), l, slot, c, to, s.pools[l].ram[slot].soa)
    requires forall i | 0 <= i < |t.compute| :: OpOk(t.release, t.swaps, t.compute[i])
    ensures Inv(t) && Open(t)
  {
    var d, d' := Settled(s), Settled(t);
    PromoteTiers(s, t, l, e, slot, c, to, d, d');
    PromoteOldSwaps(s, t, l, e, slot, c, to, d, d');
    PromoteNewSwap(s, t, l, e, slot, c, to, d, d');
    PromoteApart(s, t, l, e, slot, c, to, d);
    PromoteReleases(s, t, l, e, slot, c, to, d);
    PromoteLanding(s, t, l, e, slot, c, to, d, d');
    PromoteClaims(s, t, l, e, slot, c, to, d, d');
  }

  /** A promotion keeps the tiers exactly when its own source slot does not come back as its victim's destination with
      its block in the device's layout: choose_victim has cleared the layout flag by then, and the upload would turn
      device bytes into the device's layout once more. */
  lemma PromoteSafeIff(s: State, l: nat, e: nat, slot: nat, c: Choice)
    requires Inv(s) && Open(s) && MayPromote(s, l, e, slot, c) && s.n > 0
    ensures Inv(Promote(s, l, e, slot, c)) <==> !(SelfVictim(s.pools[l], slot, c) && s.pools[l].ram[slot].soa)
  {
    if SelfVictim(s.pools[l], slot, c) && s.pools[l].ram[slot].soa {
      var t, d := Promote(s, l, e, slot, c), Settled(s);
      PromoteMemory(s, l, e, slot, c);
      assert LayerOk(d, s.n, s.nExpert, s.landing, s.swaps, l, s.pools[l]);
      assert RamOk(d, s.n, s.landing, l, slot, s.pools[l].ram[slot]);
      assert At(d, Ram(l, slot))[0] == Part(l, e, 0, Device);
      assert At(Settled(t), Vram(l, c.victim))[0] == Junk;
      assert !GpuOk(Settled(t), t.n, l, c.victim, t.pools[l].gpu[c.victim], t.pools[l].lent);
      assert !LayerOk(Settled(t), t.n, t.nExpert, t.landing, t.swaps, l, t.pools[l]);
    } else {
      PromoteKeeps(s, l, e, slot, c);
    }
  }

  /** One RAM slot holding expert 0, read back from VRAM; one VRAM slot holding the colder expert 1; nothing in use. */
  function TightTiers(): State {
    State.State(1, 2, false,
      [Pool([RamSlot(0, true, true, false)], [0, EMPTY], [], [GpuSlot(1, true, 0)], [EMPTY, 0], false, 0)],
      [], [], [], [], [], 1, 1, [],
      {}, map[Ram(0, 0) := map[0 := Part(0, 0, 0, Device)], Vram(0, 0) := map[0 := Part(0, 1, 0, Device)]], [], [])
  }

  lemma TightInv()
    ensures Inv(TightTiers()) && Open(TightTiers())
  {
    var s := TightTiers();
    var p := s.pools[0];
    assert GpuOk(s.mem, 1, 0, 0, p.gpu[0], false) && RamOk(s.mem, 1, [], 0, 0, p.ram[0]);
    assert LayerOk(s.mem, 1, 2, [], [], 0, p);
  }

  /** The unsafe promotion is within the rules: the invariant alone does not exclude it. */
  lemma UnsafePromotion()
    ensures var s, c := TightTiers(), Choice(0, 0, EMPTY);
      Inv(s) && Open(s) && MayPromote(s, 0, 0, 0, c) && !Inv(Promote(s, 0, 0, 0, c))
  {
    var s, c := TightTiers(), Choice(0, 0, EMPTY);
    TightInv();
    assert PoolShape(s.pools[0], 2);
    assert PopFree(s.pools[0].ram, []).0 == EMPTY;
    PromoteSafeIff(s, 0, 0, 0, c);
  }

  // ---------------------------------------------------------------- settling

  lemma SyncKeeps(s: State)
    requires Inv(s)
    ensures Inv(Sync(s)) && Settled(Sync(s)) == Settled(s)
  {
  }

  /** The pool after finish_swap's first half: the promoted expert is no longer in both tiers. */
  lemma FreedLayer(s: State, d: Mem)
    requires TiersOk(s, d) && s.swaps != [] && SwapShape(s.pools, s.nExpert, s.ringBusy, s.swaps[0])
    ensures var w := s.swaps[0]; var p := s.pools[w.layer]; var p1 := Freed(p, w);
      && PoolShape(p1, s.nExpert) && MapsOk(p1, s.nExpert)
      && Exclusive(s.swaps[1..], w.layer, p1, s.nExpert)
      && p1.gpu == p.gpu && p1.gExpertSlot == p.gExpertSlot && p1.lent == p.lent
      && (forall k | 0 <= k < |p.ram| ::
          p1.ram[k] == p.ram[k] || (k == w.from && p1.ram[k].expert == EMPTY && p.ram[k].expert == w.promoted))
      && (forall x | 0 <= x < s.nExpert :: p1.expertSlot[x] == p.expertSlot[x] || p1.expertSlot[x] == EMPTY)
  {
    var w := s.swaps[0];
    var l := w.layer;
    var p := s.pools[l];
    var p1 := Freed(p, w);
    assert LayerOk(d, s.n, s.nExpert, s.landing, s.swaps, l, p);
    forall x | 0 <= x < s.nExpert && p1.expertSlot[x] >= 0 && p1.gExpertSlot[x] >= 0
      ensures PendingSwap(s.swaps[1..], l, x, p1.expertSlot[x])
    {
      assert GpuOk(d, s.n, l, p.gExpertSlot[x], p.gpu[p.gExpertSlot[x]], p.lent);
      var i :| 0 <= i < |s.swaps| && s.swaps[i].layer == l && s.swaps[i].promoted == x
          && s.swaps[i].from == p.expertSlot[x];
      assert i != 0;
      assert s.swaps[1..][i - 1] == s.swaps[i];
    }
  }

  /** What finish_swap does with the victim: never the branch marked "cannot happen". */
  lemma JudgeFacts(s: State, d: Mem)
    requires TiersOk(s, d) && SwapsOk(s, d) && s.swaps != []
    ensures var w := s.swaps[0]; var p1 := Freed(s.pools[w.layer], w);
      && Judge(p1, w) != CannotHappen
      && (Judge(p1, w) == Nothing <==> w.to == EMPTY)
      && (Judge(p1, w) == Mapped ==> p1.expertSlot[w.victim] < 0 && p1.gExpertSlot[w.victim] < 0)
  {
    var w := s.swaps[0];
    var p := s.pools[w.layer];
    assert SwapOk(s.pools, s.nExpert, s.ringBusy, d, s.n, w);
    assert LayerOk(d, s.n, s.nExpert, s.landing, s.swaps, w.layer, p);
    FreedLayer(s, d);
    if w.to >= 0 && p.gExpertSlot[w.victim] >= 0 {
      assert GpuOk(d, s.n, w.layer, p.gExpertSlot[w.victim], p.gpu[p.gExpertSlot[w.victim]], p.lent);
    }
  }

  /** A finished swap changed its own two RAM slots and nothing else in its pool. */
  ghost predicate IsFinishPool(p: Pool, q: Pool, w: Swap) {
    && w.from < |p.ram| && w.to < |p.ram| && |q.ram| == |p.ram| && |q.expertSlot| == |p.expertSlot|
    && q.gpu == p.gpu && q.gExpertSlot == p.gExpertSlot && q.lent == p.lent
    && (forall k | 0 <= k < |p.ram| && k != w.from && k != w.to :: q.ram[k] == p.ram[k])
    && (q.ram[w.from] == p.ram[w.from] || (q.ram[w.from].expert == EMPTY && p.ram[w.from].expert == w.promoted))
    && (forall x | 0 <= x < |p.expertSlot| :: q.expertSlot[x] in {p.expertSlot[x], EMPTY, w.to})
  }

  ghost predicate IsFinish(s: State, t: State, w: Swap) {
    && w.layer < |s.pools| && |t.pools| == |s.pools|
    && t.pools == s.pools[w.layer := t.pools[w.layer]] && IsFinishPool(s.pools[w.layer], t.pools[w.layer], w)
  }

  lemma FinishedPoolFacts(p: Pool, w: Swap)
    requires w.from < |p.ram| && p.ram[w.from].expert < |p.expertSlot| && w.to < |p.ram| && w.to != w.from
    requires w.promoted < |p.expertSlot| && w.promoted < |p.gExpertSlot| && p.gExpertSlot[w.promoted] < |p.gpu|
    requires w.to >= 0 ==> 0 <= w.victim < |p.expertSlot| && p.ram[w.to].expert < |p.expertSlot|
    requires w.to >= 0 ==> w.victim < |p.gExpertSlot| && p.gExpertSlot[w.victim] < |p.gpu|
    ensures IsFinishPool(p, Finished(Freed(p, w), w), w)
  {
  }

  lemma FinishFacts(s: State, d: Mem)
    requires TiersOk(s, d) && SwapsOk(s, d) && s.swaps != []
    ensures HeadInRange(s) && IsFinish(s, FinishHead(s), s.swaps[0])
  {
    var w := s.swaps[0];
    assert SwapOk(s.pools, s.nExpert, s.ringBusy, d, s.n, w);
    FinishShape(s, d);
    FinishedPoolFacts(s.pools[w.layer], w);
  }

  lemma FinishShape(s: State, d: Mem)
    requires TiersOk(s, d)
    ensures Shape(s)
  {
    forall l | 0 <= l < |s.pools| ensures PoolShape(s.pools[l], s.nExpert) {
      assert LayerOk(d, s.n, s.nExpert, s.landing, s.swaps, l, s.pools[l]);
    }
  }

  lemma ReleasedMaps(p: Pool, k: nat, swaps: seq<Swap>, l: nat, nExpert: nat)
    requires PoolShape(p, nExpert) && MapsOk(p, nExpert) && Exclusive(swaps, l, p, nExpert) && k < |p.ram|
    ensures var q := Released(p, k); PoolShape(q, nExpert) && MapsOk(q, nExpert) && Exclusive(swaps, l, q, nExpert)
  {
  }

  lemma MappedMaps(p: Pool, w: Swap, swaps: seq<Swap>, l: nat, nExpert: nat)
    requires PoolShape(p, nExpert) && MapsOk(p, nExpert) && Exclusive(swaps, l, p, nExpert)
    requires 0 <= w.to < |p.ram| && 0 <= w.victim < nExpert && Judge(p, w) == Mapped && p.gExpertSlot[w.victim] < 0
    ensures var q := Finished(p, w); PoolShape(q, nExpert) && MapsOk(q, nExpert) && Exclusive(swaps, l, q, nExpert)
  {
  }

  lemma FinishMaps(s: State, d: Mem)
    requires TiersOk(s, d) && SwapsOk(s, d) && s.swaps != [] && HeadInRange(s)
    ensures var t := FinishHead(s); var l := s.swaps[0].layer;
      PoolShape(t.pools[l], t.nExpert) && MapsOk(t.pools[l], t.nExpert) && Exclusive(t.swaps, l, t.pools[l], t.nExpert)
  {
    var w := s.swaps[0];
    var p1 := Freed(s.pools[w.layer], w);
    assert SwapOk(s.pools, s.nExpert, s.ringBusy, d, s.n, w);
    FreedLayer(s, d);
    JudgeFacts(s, d);
    FinishedMaps(p1, w, s.swaps[1..], w.layer, s.nExpert);
  }

  lemma FinishedMaps(p: Pool, w: Swap, swaps: seq<Swap>, l: nat, nExpert: nat)
    requires PoolShape(p, nExpert) && MapsOk(p, nExpert) && Exclusive(swaps, l, p, nExpert) && w.to < |p.ram|
    requires w.to >= 0 ==> 0 <= w.victim < nExpert
    requires Judge(p, w) == Nothing <==> w.to == EMPTY
    requires w.to >= 0 || w.to == EMPTY
    requires Judge(p, w) == Mapped ==> p.gExpertSlot[w.victim] < 0
    ensures var q := Finished(p, w); PoolShape(q, nExpert) && MapsOk(q, nExpert) && Exclusive(swaps, l, q, nExpert)
  {
    match Judge(p, w) {
      case Dropped => ReleasedMaps(p, w.to, swaps, l, nExpert);
      case Mapped => MappedMaps(p, w, swaps, l, nExpert);
      case _ =>
    }
  }

  lemma FinishLayer(s: State, d: Mem)
    requires TiersOk(s, d) && SwapsOk(s, d) && s.swaps != [] && HeadInRange(s)
    ensures var t := FinishHead(s); var l := s.swaps[0].layer;
      LayerOk(d, t.n, t.nExpert, t.landing, t.swaps, l, t.pools[l])
  {
    var t := FinishHead(s);
    var l := s.swaps[0].layer;
    assert LayerOk(d, s.n, s.nExpert, s.landing, s.swaps, l, s.pools[l]);
    FinishFacts(s, d);
    FinishMaps(s, d);
    FinishRam(s, d);
    forall g | 0 <= g < |t.pools[l].gpu| ensures GpuOk(d, t.n, l, g, t.pools[l].gpu[g], t.pools[l].lent) {
      assert GpuOk(d, s.n, l, g, s.pools[l].gpu[g], s.pools[l].lent);
    }
  }

  lemma LandsGrows(landing: seq<Swap>, w: Swap, l: nat, k: nat)
    requires LandsAt(landing, l, k)
    ensures LandsAt(landing + [w], l, k)
  {
    var i :| 0 <= i < |landing| && landing[i].layer == l && landing[i].to == k;
    assert (landing + [w])[i] == landing[i];
  }

  lemma FinishRam(s: State, d: Mem)
    requires TiersOk(s, d) && SwapsOk(s, d) && s.swaps != [] && HeadInRange(s)
    ensures var t := FinishHead(s); var l := s.swaps[0].layer; var p' := t.pools[l];
      forall k | 0 <= k < |p'.ram| :: RamOk(d, t.n, t.landing, l, k, p'.ram[k])
  {
    var t := FinishHead(s);
    var w := s.swaps[0];
    var p, p' := s.pools[w.layer], t.pools[w.layer];
    assert SwapOk(s.pools, s.nExpert, s.ringBusy, d, s.n, w);
    assert LayerOk(d, s.n, s.nExpert, s.landing, s.swaps, w.layer, p);
    FreedLayer(s, d);
    JudgeFacts(s, d);
    forall k | 0 <= k < |p'.ram| ensures RamOk(d, t.n, t.landing, w.layer, k, p'.ram[k]) {
      assert RamOk(d, s.n, s.landing, w.layer, k, p.ram[k]);
      if LandsAt(s.landing, w.layer, k) { LandsGrows(s.landing, w, w.layer, k); }
      if k == w.to && w.ring >= 0 && p'.ram[k].valid { assert t.landing[|s.landing|] == w; }
    }
  }

  lemma FinishTiers(s: State, d: Mem)
    requires TiersOk(s, d) && SwapsOk(s, d) && s.swaps != [] && HeadInRange(s)
    ensures TiersOk(FinishHead(s), d)
  {
    var t := FinishHead(s);
    var w := s.swaps[0];
    FinishLayer(s, d);
    FinishFacts(s, d);
    forall m | 0 <= m < |t.pools| ensures LayerOk(d, t.n, t.nExpert, t.landing, t.swaps, m, t.pools[m]) {
      if m != w.layer {
        assert LayerOk(d, s.n, s.nExpert, s.landing, s.swaps, m, s.pools[m]);
        forall k | LandsAt(s.landing, m, k) ensures LandsAt(t.landing, m, k) { LandsGrows(s.landing, w, m, k); }
        forall x, k | PendingSwap(s.swaps, m, x, k) ensures PendingSwap(t.swaps, m, x, k) {
          var i :| 0 <= i < |s.swaps| && s.swaps[i].layer == m && s.swaps[i].promoted == x && s.swaps[i].from == k;
          assert t.swaps[i - 1] == s.swaps[i];
        }
        LayerFrame(d, d, s.n, s.nExpert, s.landing, t.landing, s.swaps, t.swaps, m, s.pools[m]);
      }
    }
  }

  lemma FinishSwaps(s: State, t: State, d: Mem)
    requires SwapsOk(s, d) && s.swaps != [] && s.compute == [] && s.release == [] && IsFinish(s, t, s.swaps[0])
    requires t.swaps == s.swaps[1..] && t.compute == s.compute && t.release == s.release && t.n == s.n
        && t.nExpert == s.nExpert
    requires t.ringBusy == s.ringBusy
        || (0 <= s.swaps[0].ring < |s.ringBusy| && t.ringBusy == s.ringBusy[s.swaps[0].ring := false])
    ensures SwapsOk(t, d)
  {
    var w := s.swaps[0];
    assert SwapOk(s.pools, s.nExpert, s.ringBusy, d, s.n, w);
    forall i | 0 <= i < |t.swaps| ensures SwapOk(t.pools, t.nExpert, t.ringBusy, d, t.n, t.swaps[i]) {
      var x := s.swaps[i + 1];
      assert t.swaps[i] == x;
      assert SwapOk(s.pools, s.nExpert, s.ringBusy, d, s.n, x);
      assert SwapsApart(w, x);
    }
    forall i, j | 0 <= i < j < |t.swaps| ensures SwapsApart(t.swaps[i], t.swaps[j]) {
      assert SwapsApart(s.swaps[i + 1], s.swaps[j + 1]);
    }
  }

  lemma SideGrows(landing: seq<Swap>, w: Swap, c: Copy)
    requires SideOk(landing, c)
    ensures SideOk(landing + [w], c)
  {
    var i :| 0 <= i < |landing| && landing[i].ring >= 0 && landing[i].to >= 0
      && c == Copy(Ring(landing[i].ring), Ram(landing[i].layer, landing[i].to), false);
    assert (landing + [w])[i] == landing[i];
  }

  lemma FinishLanding(s: State, d: Mem)
    requires TiersOk(s, d) && SwapsOk(s, d) && LandingOk(s, d) && s.swaps != [] && s.release == [] && HeadInRange(s)
    ensures LandingOk(FinishHead(s), d)
  {
    var t := FinishHead(s);
    var w := s.swaps[0];
    FinishFacts(s, d);
    var p1 := Freed(s.pools[w.layer], w);
    assert Judge(p1, w) == Mapped ==> w.to >= 0 && p1.ram[w.to] == s.pools[w.layer].ram[w.to] by {
      assert SwapOk(s.pools, s.nExpert, s.ringBusy, d, s.n, w);
    }
    FinishLandList(s, t, d, w.ring >= 0 && Judge(p1, w) == Mapped);
    forall k | 0 <= k < |t.side| ensures SideOk(t.landing, t.side[k]) {
      if k < |s.side| { SideGrows(s.landing, w, s.side[k]); } else { assert t.landing[|s.landing|] == w; }
    }
  }

  /** The victim has its RAM slot back, in the device's layout until it is put right. */
  ghost predicate Returning(s: State, t: State, w: Swap) {
    && w.layer < |s.pools| == |t.pools| && 0 <= w.to < |t.pools[w.layer].ram| == |s.pools[w.layer].ram|
    && t.pools[w.layer].ram[w.to] == RamSlot(w.victim, true, true, s.pools[w.layer].ram[w.to].pinned)
  }

  /** What finishing the oldest swap does to the landing list: nothing, or its read-back joins it. */
  ghost predicate LandListStep(s: State, t: State, staged: bool)
    requires s.swaps != []
  {
    var w := s.swaps[0];
    && IsFinish(s, t, w) && t == s.(pools := t.pools, swaps := s.swaps[1..], ringBusy := t.ringBusy,
        landing := t.landing, side := t.side)
    && t.landing == (if staged then s.landing + [w] else s.landing)
    && t.ringBusy == (if w.ring >= 0 && w.ring < |s.ringBusy| && !staged then s.ringBusy[w.ring := false]
        else s.ringBusy)
    && (staged ==> w.ring >= 0 && w.to >= 0 && t.side == s.side + [Copy(Ring(w.ring), Ram(w.layer, w.to), false)])
    && (staged ==> Returning(s, t, w))
    && (!staged ==> t.side == s.side)
  }

  lemma {:induction false} FinishLandList(s: State, t: State, d: Mem, staged: bool)
    requires SwapsOk(s, d) && LandingOk(s, d) && s.swaps != [] && s.release == [] && LandListStep(s, t, staged)
    ensures forall i | 0 <= i < |t.landing| :: LandOk(t.pools, t.nExpert, t.ringBusy, d, t.n, t.side, t.landing[i])
    ensures forall i, j | 0 <= i < j < |t.landing| :: LandsApart(t.landing[i], t.landing[j])
    ensures forall i, j | 0 <= i < |t.landing| && 0 <= j < |t.swaps| :: LandSwapApart(t.landing[i], t.swaps[j])
  {
    hide LandOk, SwapOk, ReleaseOk;
    var w := s.swaps[0];
    forall i | 0 <= i < |t.landing| ensures LandOk(t.pools, t.nExpert, t.ringBusy, d, t.n, t.side, t.landing[i]) {
      if i < |s.landing| { OldLanding(s, t, d, staged, i); } else { NewLanding(s, t, d); }
    }
    forall i, j | 0 <= i < j < |t.landing| ensures LandsApart(t.landing[i], t.landing[j]) {
      if j < |s.landing| { assert LandsApart(s.landing[i], s.landing[j]); }
          else { assert LandSwapApart(s.landing[i], w); }
    }
    forall i, j | 0 <= i < |t.landing| && 0 <= j < |t.swaps| ensures LandSwapApart(t.landing[i], t.swaps[j]) {
      if i < |s.landing| { assert LandSwapApart(s.landing[i], s.swaps[j + 1]); }
          else { assert SwapsApart(w, s.swaps[j + 1]); }
    }
  }

  lemma OldLanding(s: State, t: State, d: Mem, staged: bool, i: nat)
    requires SwapsOk(s, d) && LandingOk(s, d) && s.swaps != [] && LandListStep(s, t, staged) && i < |s.landing|
    ensures LandOk(t.pools, t.nExpert, t.ringBusy, d, t.n, t.side, t.landing[i])
  {
    var w, a := s.swaps[0], s.landing[i];
    assert SwapOk(s.pools, s.nExpert, s.ringBusy, d, s.n, w);
    assert LandOk(s.pools, s.nExpert, s.ringBusy, d, s.n, s.side, a);
    assert LandSwapApart(a, w);
    if SideHas(s.side, a) {
      var k :| 0 <= k < |s.side| && s.side[k] == Copy(Ring(a.ring), Ram(a.layer, a.to), false);
      assert t.side[k] == s.side[k];
    }
  }

  lemma NewLanding(s: State, t: State, d: Mem)
    requires SwapsOk(s, d) && s.swaps != [] && s.release == [] && LandListStep(s, t, true)
    ensures LandOk(t.pools, t.nExpert, t.ringBusy, d, t.n, t.side, s.swaps[0])
  {
    var w := s.swaps[0];
    assert SwapOk(s.pools, s.nExpert, s.ringBusy, d, s.n, w);
    assert t.side[|s.side|] == Copy(Ring(w.ring), Ram(w.layer, w.to), false);
  }

  lemma FinishClaims(s: State, t: State, d: Mem)
    requires SwapsOk(s, d) && ClaimsOk(s, d) && s.swaps != [] && IsFinish(s, t, s.swaps[0])
    requires t.swaps == s.swaps[1..] && t.claims == s.claims && t.n == s.n && t.nExpert == s.nExpert
    ensures ClaimsOk(t, d)
  {
    var w := s.swaps[0];
    assert SwapOk(s.pools, s.nExpert, s.ringBusy, d, s.n, w);
    forall i | 0 <= i < |t.claims| ensures ClaimOk(t.pools, t.nExpert, d, t.n, t.claims[i]) {
      assert ClaimOk(s.pools, s.nExpert, d, s.n, s.claims[i]);
      assert ClaimSwapApart(s.claims[i], w);
    }
    forall i, j | 0 <= i < |t.claims| && 0 <= j < |t.swaps| ensures ClaimSwapApart(t.claims[i], t.swaps[j]) {
      assert ClaimSwapApart(s.claims[i], s.swaps[j + 1]);
    }
  }

  lemma FinishKeeps(s: State)
    requires Inv(s) && s.swaps != [] && s.compute == [] && s.release == []
    ensures HeadInRange(s) && Inv(FinishHead(s)) && Settled(FinishHead(s)) == Settled(s)
  {
    var d := Settled(s);
    FinishFacts(s, d);
    FinishTiers(s, d);
    FinishSwaps(s, FinishHead(s), d);
    FinishLanding(s, d);
    FinishClaims(s, FinishHead(s), d);
  }

  lemma {:induction false} FreeRingsFacts(busy: seq<bool>, ws: seq<Swap>)
    ensures |FreeRings(busy, ws)| == |busy|
    decreases ws
    ensures forall r | 0 <= r < |busy| :: FreeRings(busy, ws)[r] == (busy[r] && !SwapRing(ws, r))
  {
    if ws != [] {
      var b := if 0 <= ws[0].ring < |busy| then busy[ws[0].ring := false] else busy;
      FreeRingsFacts(b, ws[1..]);
      forall r | 0 <= r < |busy| ensures SwapRing(ws, r) <==> ws[0].ring == r || SwapRing(ws[1..], r) {
        if SwapRing(ws, r) && ws[0].ring != r {
          var i :| 0 <= i < |ws| && ws[i].ring == r;
          assert ws[1..][i - 1] == ws[i];
        }
        if SwapRing(ws[1..], r) {
          var i :| 0 <= i < |ws[1..]| && ws[1..][i].ring == r;
          assert ws[i + 1] == ws[1..][i];
        }
      }
    }
  }

  lemma {:induction false} FreeRingsSnoc(busy: seq<bool>, ws: seq<Swap>, w: Swap)
    ensures |FreeRings(busy, ws)| == |busy|
    ensures FreeRings(busy, ws + [w]) == FreeRings(FreeRings(busy, ws), [w])
    decreases ws
  {
    FreeRingsFacts(busy, ws);
    if ws == [] {
      assert ws + [w] == [w];
    } else {
      assert (ws + [w])[1..] == ws[1..] + [w];
      FreeRingsSnoc(if 0 <= ws[0].ring < |busy| then busy[ws[0].ring := false] else busy, ws[1..], w);
    }
  }

  lemma LandTiers(s: State, d: Mem)
    requires TiersOk(s, d) && LandingOk(s, d) && s.side == []
    ensures TiersOk(Land(s), d)
  {
    var t := Land(s);
    forall m | 0 <= m < |t.pools| ensures LayerOk(d, t.n, t.nExpert, t.landing, t.swaps, m, t.pools[m]) {
      var p := s.pools[m];
      assert LayerOk(d, s.n, s.nExpert, s.landing, s.swaps, m, p);
      forall k | 0 <= k < |p.ram| ensures RamOk(d, t.n, t.landing, m, k, p.ram[k]) {
        assert RamOk(d, s.n, s.landing, m, k, p.ram[k]);
        if LandsAt(s.landing, m, k) {
          var i :| 0 <= i < |s.landing| && s.landing[i].layer == m && s.landing[i].to == k;
          assert LandOk(s.pools, s.nExpert, s.ringBusy, d, s.n, s.side, s.landing[i]);
        }
      }
    }
  }

  lemma LandKeeps(s: State)
    requires Inv(s) && s.side == []
    ensures Inv(Land(s)) && Settled(Land(s)) == Settled(s) && (Open(s) ==> Open(Land(s)))
  {
    var t, d := Land(s), Settled(s);
    LandTiers(s, d);
    FreeRingsFacts(s.ringBusy, s.landing);
    forall i | 0 <= i < |t.swaps| ensures SwapOk(t.pools, t.nExpert, t.ringBusy, d, t.n, t.swaps[i]) {
      assert SwapOk(s.pools, s.nExpert, s.ringBusy, d, s.n, s.swaps[i]);
      forall j | 0 <= j < |s.landing| ensures s.landing[j].ring != s.swaps[i].ring {
        assert LandSwapApart(s.landing[j], s.swaps[i]);
      }
    }
  }

  // ---------------------------------------------------------------- lending and bookkeeping

  lemma LendKeeps(s: State, l: nat)
    requires Inv(s) && l < |s.pools| && s.compute == [] && s.swaps == []
    ensures Inv(LendLayer(s, l))
  {
    var t, d := LendLayer(s, l), Settled(s);
    var p := s.pools[l];
    assert LayerOk(d, s.n, s.nExpert, s.landing, s.swaps, l, p);
    forall k | 0 <= k < |p.ram| ensures RamOk(d, t.n, t.landing, l, k, t.pools[l].ram[k]) {
      assert RamOk(d, s.n, s.landing, l, k, p.ram[k]);
    }
    assert LayerOk(d, t.n, t.nExpert, t.landing, t.swaps, l, t.pools[l]);
    assert TiersOk(t, d);
    PoolsRest(s, t, d, l);
  }

  /** Swaps, read-backs and claims do not see a pool change that leaves its RAM side alone. */
  lemma PoolsRest(s: State, t: State, d: Mem, l: nat)
    requires SwapsOk(s, d) && LandingOk(s, d) && ClaimsOk(s, d) && l < |s.pools| && |t.pools| == |s.pools|
    requires t == s.(pools := s.pools[l := t.pools[l]])
    requires t.pools[l].ram == s.pools[l].ram && t.pools[l].expertSlot == s.pools[l].expertSlot
    ensures SwapsOk(t, d) && LandingOk(t, d) && ClaimsOk(t, d)
  {
    forall j | 0 <= j < |t.release|
        ensures ReleaseOk(t.pools, t.release[j]) { assert ReleaseOk(s.pools, s.release[j]); }
    forall j | 0 <= j < |t.swaps| ensures SwapOk(t.pools, t.nExpert, t.ringBusy, d, t.n, t.swaps[j]) {
      assert SwapOk(s.pools, s.nExpert, s.ringBusy, d, s.n, s.swaps[j]);
    }
    forall j | 0 <= j < |t.landing| ensures LandOk(t.pools, t.nExpert, t.ringBusy, d, t.n, t.side, t.landing[j]) {
      assert LandOk(s.pools, s.nExpert, s.ringBusy, d, s.n, s.side, s.landing[j]);
    }
    forall j | 0 <= j < |t.claims| ensures ClaimOk(t.pools, t.nExpert, d, t.n, t.claims[j]) {
      assert ClaimOk(s.pools, s.nExpert, d, s.n, s.claims[j]);
    }
  }

  lemma ReturnKeeps(s: State, l: nat)
    requires Inv(s) && l < |s.pools|
    ensures Inv(ReturnLayer(s, l)) && (Open(s) ==> Open(ReturnLayer(s, l)))
  {
    var t, d := ReturnLayer(s, l), Settled(s);
    var p := s.pools[l];
    assert LayerOk(d, s.n, s.nExpert, s.landing, s.swaps, l, p);
    forall g | 0 <= g < |p.gpu| ensures GpuOk(d, t.n, l, g, t.pools[l].gpu[g], t.pools[l].lent) {
      assert GpuOk(d, s.n, l, g, p.gpu[g], p.lent);
    }
    assert LayerOk(d, t.n, t.nExpert, t.landing, t.swaps, l, t.pools[l]);
    assert TiersOk(t, d);
    PoolsRest(s, t, d, l);
  }

  lemma SameBlocksTiers(s: State, t: State, d: Mem)
    requires TiersOk(s, d) && SameBlocks(s, t)
    ensures TiersOk(t, d)
  {
    forall m | 0 <= m < |t.pools| ensures LayerOk(d, t.n, t.nExpert, t.landing, t.swaps, m, t.pools[m]) {
      var p, q := s.pools[m], t.pools[m];
      assert IsLayer(s, m);
      assert LayerOk(d, s.n, s.nExpert, s.landing, s.swaps, m, p);
      forall g | 0 <= g < |q.gpu|
          ensures GpuOk(d, t.n, m, g, q.gpu[g], q.lent) { assert GpuOk(d, s.n, m, g, p.gpu[g], p.lent); }
      forall k | 0 <= k < |q.ram|
          ensures RamOk(d, t.n, t.landing, m, k, q.ram[k]) { assert RamOk(d, s.n, s.landing, m, k, p.ram[k]); }
    }
  }

  lemma SameBlocksKeeps(s: State, t: State)
    requires Inv(s) && SameBlocks(s, t)
    ensures Inv(t) && (Open(s) ==> Open(t))
  {
    var d := Settled(s);
    SameBlocksTiers(s, t, d);
    forall j | 0 <= j < |t.release| ensures ReleaseOk(t.pools, t.release[j]) {
      assert ReleaseOk(s.pools, s.release[j]) && IsLayer(s, s.release[j].layer);
    }
    forall j | 0 <= j < |t.swaps| ensures SwapOk(t.pools, t.nExpert, t.ringBusy, d, t.n, t.swaps[j]) {
      assert SwapOk(s.pools, s.nExpert, s.ringBusy, d, s.n, s.swaps[j]) && IsLayer(s, s.swaps[j].layer);
    }
    forall j | 0 <= j < |t.landing| ensures LandOk(t.pools, t.nExpert, t.ringBusy, d, t.n, t.side, t.landing[j]) {
      assert LandOk(s.pools, s.nExpert, s.ringBusy, d, s.n, s.side, s.landing[j]) && IsLayer(s, s.landing[j].layer);
    }
    forall j | 0 <= j < |t.claims| ensures ClaimOk(t.pools, t.nExpert, d, t.n, t.claims[j]) {
      assert ClaimOk(s.pools, s.nExpert, d, s.n, s.claims[j]) && IsLayer(s, s.claims[j].layer);
    }
  }
}
