/** A short prompt's layer through the cache: chunk by chunk its experts are fetched and computed, with what the fetch
    handed out and what the VRAM tier holds. */
module BatchLayer {
  import opened Hardware
  import opened TierState
  import opened TierFetch
  import opened ExpertCache
  import opened MoeSplit
  import opened BatchTerms

  /** Whom the slots of a VRAM tier hold; the same for every chunk. */
  ghost function Owner(p: Pool): (nat, nat) -> nat {
    (from: nat, s: nat) => if s < |p.gpu| && p.gpu[s].expert >= 0 then p.gpu[s].expert else 0
  }

  /** A VRAM slot that names an expert has its bytes, once what is queued has run. */
  ghost predicate VramHolds(s: State, l: nat) {
    l < |s.pools| && forall g | 0 <= g < |s.pools[l].gpu| && s.pools[l].gpu[g].expert >= 0 ::
        Holds(Hardware.At(Settled(s), Vram(l, g)), s.n, l, s.pools[l].gpu[g].expert, Device)
  }

  /** What a batch asks of the cache: no blocking read under way, and nothing queued still reads the RAM copy of an
      expert of the prompt that VRAM does not serve. */
  ghost predicate Idle(c: Cache, l: nat, ids: seq<nat>)
    reads c
  {
    && c.Valid() && l < |c.pools| && c.NoneLeft(Batch)
    && forall e | e in ids :: Unread(c.State(), l, e)
  }

  /** Chunk by chunk, as many experts at a time as fit. What the chunks' terms add up over the VRAM slots and the
      scratch is each token's routed mixture, and the VRAM slots hold whom the terms take them to hold. */
  method CacheBatch(c: Cache, l: nat, r: Routing, chunk: nat) returns (cs: seq<Chunk>)
    requires r.Valid() && chunk > 0 && AllBelow(r.sel, c.nExpert) && Idle(c, l, r.sel)
    modifies c`pools, c`claims, c`mem, c`side, c`landing, c`ringBusy
    ensures c.Valid() && l < |c.pools| && Cache.VramStays(old(c.pools), c.pools, l) && VramHolds(c.State(), l)
    ensures forall t: nat, y: nat -> real | t < r.T :: Total(cs, t, Owner(c.pools[l]), y) == r.Routed(t, y)
    ensures AllComputable(cs, chunk, r.T)
  {
    hide VramHolds, Computed, Cache.Valid, Unread;
    ghost var tier := Owner(c.pools[l]);
    var uniq := Uniq(r, c.nExpert);
    cs := [];
    NoneComputed(r, tier);
    assert uniq[..0] == [];
    var c0 := 0;
    while c0 < |uniq|
      invariant c0 <= |uniq| && Idle(c, l, uniq[c0..]) && Cache.VramStays(old(c.pools), c.pools, l)
      invariant Computed(cs, r, uniq[..c0], tier) && AllComputable(cs, chunk, r.T)
      decreases |uniq| - c0
    {
      var n := if chunk < |uniq| - c0 then chunk else |uniq| - c0;
      cs := NextChunk(c, l, r, uniq, c0, n, chunk, cs, tier);
      c0 := c0 + n;
    }
    assert uniq[..c0] == uniq;
    AllComputed(cs, r, uniq, c.nExpert, tier);
    HoldsAll(c, l);
  }

  method NextChunk(c: Cache, l: nat, r: Routing, uniq: seq<nat>, c0: nat, n: nat, ghost chunk: nat, cs: seq<Chunk>,
                   ghost tier: (nat, nat) -> nat)
    returns (more: seq<Chunk>)
    requires r.Valid() && AllBelow(r.sel, c.nExpert) && c0 + n <= |uniq| && Idle(c, l, uniq[c0..])
    requires tier == Owner(c.pools[l])
    requires (forall i, k | 0 <= i < k < |uniq| :: uniq[i] < uniq[k]) && forall e | e in uniq :: e < c.nExpert
    requires Computed(cs, r, uniq[..c0], tier) && AllComputable(cs, chunk, r.T) && n <= chunk
    modifies c`pools, c`claims, c`mem, c`side, c`landing, c`ringBusy
    ensures Idle(c, l, uniq[c0 + n..]) && Cache.VramStays(old(c.pools), c.pools, l)
    ensures Computed(more, r, uniq[..c0 + n], tier) && AllComputable(more, chunk, r.T)
  {
    hide Cache.Valid, Unread;
    SliceDistinct(uniq, c0, c0 + n, c.nExpert);
    var ids := uniq[c0..c0 + n];
    var out := FetchChunk(c, l, uniq, c0, n);
    var one := OneChunk(r, c.nExpert, ids, c0, out, tier);
    ComputedMore(cs, one, r, uniq, c0, n, tier);
    more := if one.tier.width > 0 || one.packed.width > 0 then cs + [one] else cs;
  }

  method FetchChunk(c: Cache, l: nat, uniq: seq<nat>, c0: nat, n: nat) returns (out: seq<Source>)
    requires c0 + n <= |uniq| && Idle(c, l, uniq[c0..])
    requires (forall i, k | 0 <= i < k < |uniq| :: uniq[i] < uniq[k]) && forall e | e in uniq :: e < c.nExpert
    modifies c`pools, c`claims, c`mem, c`side, c`landing, c`ringBusy
    ensures Idle(c, l, uniq[c0 + n..]) && Cache.VramStays(old(c.pools), c.pools, l)
    ensures Fetched(uniq[c0..c0 + n], out, TierAt(Owner(c.pools[l]), c0))
  {
    hide Cache.Valid, Unread, BatchArrived;
    var ids := uniq[c0..c0 + n];
    SliceDistinct(uniq, c0, c0 + n, c.nExpert);
    forall i | 0 <= i < |ids| ensures ids[i] in uniq[c0..] && ids[i] < c.nExpert { assert ids[i] == uniq[c0..][i]; }
    forall e | e in uniq[c0 + n..] ensures e in uniq[c0..] && e !in ids { Later(uniq, c0, n, e); }
    var ok;
    ghost var states;
    ok, out, states := c.FetchBatch(l, ids);
  }

  lemma Later(uniq: seq<nat>, c0: nat, n: nat, e: nat)
    requires c0 + n <= |uniq| && e in uniq[c0 + n..] && forall i, k | 0 <= i < k < |uniq| :: uniq[i] < uniq[k]
    ensures e in uniq[c0..] && e !in uniq[c0..c0 + n]
  {
    var i :| 0 <= i < |uniq| - c0 - n && uniq[c0 + n..][i] == e;
    assert uniq[c0..][n + i] == e;
    var ids := uniq[c0..c0 + n];
    forall k | 0 <= k < |ids| ensures ids[k] != e { assert ids[k] == uniq[c0 + k] < uniq[c0 + n + i]; }
  }

  lemma HoldsAll(c: Cache, l: nat)
    requires c.Valid() && l < |c.pools|
    ensures VramHolds(c.State(), l)
  {
    var s := c.State();
    assert LayerOk(Settled(s), s.n, s.nExpert, s.landing, s.swaps, l, s.pools[l]);
    forall g | 0 <= g < |s.pools[l].gpu| && s.pools[l].gpu[g].expert >= 0
      ensures Holds(Hardware.At(Settled(s), Vram(l, g)), s.n, l, s.pools[l].gpu[g].expert, Device)
    {
      assert GpuOk(Settled(s), s.n, l, g, s.pools[l].gpu[g], s.pools[l].lent);
    }
  }
}
