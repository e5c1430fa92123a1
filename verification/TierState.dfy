/** The state of the three-tier expert cache with exclusive tiers, and what every reachable state satisfies.  One pool
    per layer: RAM slots and VRAM slots, each with a map from expert to slot. Promotions queue copies on the compute
    queue; the VRAM victim goes to a staging ring (or straight to a RAM slot) and is read back later on the side queue.
    `mem`, `compute` and `side` are the machine underneath: what the memories physically hold now and what is still
    queued. */
module TierState {
  import opened Hardware

  const EMPTY: int := -1

  datatype RamSlot = RamSlot(expert: int, valid: bool, soa: bool, pinned: bool)
  datatype GpuSlot = GpuSlot(expert: int, valid: bool, used: nat)

  datatype Pool = Pool(
    ram: seq<RamSlot>, expertSlot: seq<int>, free: seq<nat>,
    gpu: seq<GpuSlot>, gExpertSlot: seq<int>, lent: bool, ver: nat)

  /** A RAM slot an upload still queued may be reading. */
  datatype Release = Release(layer: nat, expert: nat, slot: nat)

  /** A promotion waiting for its settle: `from` is the promoted expert's RAM slot, `to` the slot its victim goes to (or
      EMPTY), `ring` the staging entry holding the victim meanwhile (or EMPTY). */
  datatype Swap = Swap(layer: nat, promoted: nat, from: nat, victim: int, to: int, ring: int)

  datatype Kind = Demand | Speculative | Batch | Host

  /** Reads (or host copies) filling a claimed slot: `flying` are the pieces that have not landed. */
  datatype Claim = Claim(kind: Kind, layer: nat, expert: nat, slot: nat, flying: set<nat>)

  /** A slot claimed by a fetch that failed before it submitted its reads: it names its expert, and nothing fills it. */
  datatype Lost = Lost(layer: nat, expert: nat, slot: nat)

  datatype State = State(
    n: nat, nExpert: nat, d2d: bool,
    pools: seq<Pool>,
    live: seq<nat>, release: seq<Release>, swaps: seq<Swap>, landing: seq<Swap>, ringBusy: seq<bool>,
    tick: nat, epoch: nat,
    claims: seq<Claim>, abandoned: set<Lost>,
    mem: Mem, compute: seq<Copy>, side: seq<Copy>)

  /** The memories once the compute queue has drained. */
  ghost function Settled(s: State): Mem {
    Drain(s.compute, s.mem)
  }

  // ---------------------------------------------------------------- shape

  ghost predicate IsLayer(s: State, l: int) { 0 <= l < |s.pools| }
  ghost predicate IsRam(s: State, l: int, k: int) { IsLayer(s, l) && 0 <= k < |s.pools[l].ram| }
  ghost predicate IsGpu(s: State, l: int, g: int) { IsLayer(s, l) && 0 <= g < |s.pools[l].gpu| }
  ghost predicate IsExpert(s: State, l: int, e: int) { IsLayer(s, l) && 0 <= e < s.nExpert }

  ghost predicate PoolShape(p: Pool, nExpert: nat) {
    && |p.expertSlot| == |p.gExpertSlot| == nExpert
    && (forall e | 0 <= e < nExpert :: EMPTY <= p.expertSlot[e] < |p.ram|)
    && (forall e | 0 <= e < nExpert :: EMPTY <= p.gExpertSlot[e] < |p.gpu|)
    && (forall k | 0 <= k < |p.ram| :: EMPTY <= p.ram[k].expert < nExpert)
    && (forall k | 0 <= k < |p.ram| :: p.ram[k].expert == EMPTY ==> !p.ram[k].valid)
    && (forall g | 0 <= g < |p.gpu| :: EMPTY <= p.gpu[g].expert < nExpert)
    && (forall i | 0 <= i < |p.free| :: p.free[i] < |p.ram|)
  }

  ghost predicate Shape(s: State) {
    forall l | 0 <= l < |s.pools| :: PoolShape(s.pools[l], s.nExpert)
  }

  // ---------------------------------------------------------------- residency

  predicate InVram(p: Pool, e: nat)
    requires e < |p.gExpertSlot| && p.gExpertSlot[e] < |p.gpu|
  {
    var g := p.gExpertSlot[e];
    g >= 0 && p.gpu[g].valid && p.gpu[g].expert == e
  }

  /** The maps point from an expert to the slot that names it (a slot may name an expert no map points to). */
  ghost predicate MapsOk(p: Pool, nExpert: nat)
    requires PoolShape(p, nExpert)
  {
    && (forall e | 0 <= e < nExpert :: p.expertSlot[e] >= 0 ==> p.ram[p.expertSlot[e]].expert == e)
    && (forall e | 0 <= e < nExpert :: p.gExpertSlot[e] >= 0 ==> p.gpu[p.gExpertSlot[e]].expert == e)
  }

  /** A VRAM slot that names an expert holds it in device layout once the compute queue has drained (memory d). */
  ghost predicate GpuOk(d: Mem, n: nat, l: nat, g: nat, x: GpuSlot, lent: bool) {
    x.expert >= 0 ==> x.valid && !lent && Holds(At(d, Vram(l, g)), n, l, x.expert, Device)
  }

  ghost predicate LandsAt(landing: seq<Swap>, l: nat, k: nat) {
    exists i :: 0 <= i < |landing| && landing[i].layer == l && landing[i].to == k
  }

  /** A valid RAM slot holds its expert in the layout its flag says, or its read-back is still landing. */
  ghost predicate RamOk(d: Mem, n: nat, landing: seq<Swap>, l: nat, k: nat, x: RamSlot) {
    x.expert >= 0 && x.valid ==>
      || Holds(At(d, Ram(l, k)), n, l, x.expert, if x.soa then Device else File)
      || LandsAt(landing, l, k)
  }

  ghost predicate PendingSwap(swaps: seq<Swap>, l: nat, e: nat, k: int) {
    exists i :: 0 <= i < |swaps| && swaps[i].layer == l && swaps[i].promoted == e && swaps[i].from == k
  }

  /** Exclusive tiers: an expert mapped in both tiers has a pending swap that will free its RAM slot. */
  ghost predicate Exclusive(swaps: seq<Swap>, l: nat, p: Pool, nExpert: nat)
    requires PoolShape(p, nExpert)
  {
    forall e | 0 <= e < nExpert ::
      p.expertSlot[e] >= 0 && p.gExpertSlot[e] >= 0 ==> PendingSwap(swaps, l, e, p.expertSlot[e])
  }

  // ---------------------------------------------------------------- promotions in flight

  ghost predicate InRelease(release: seq<Release>, l: nat, k: int) {
    exists i :: 0 <= i < |release| && release[i].layer == l && release[i].slot == k
  }

  ghost predicate ReleaseOk(pools: seq<Pool>, r: Release) {
    && r.layer < |pools| && r.slot < |pools[r.layer].ram|
    && pools[r.layer].ram[r.slot].valid && pools[r.layer].ram[r.slot].expert >= 0
  }

  ghost predicate SwapShape(pools: seq<Pool>, nExpert: nat, busy: seq<bool>, w: Swap) {
    && w.layer < |pools| && w.from < |pools[w.layer].ram| && w.promoted < nExpert
    && EMPTY <= w.ring < |busy| && EMPTY <= w.to < |pools[w.layer].ram|
    && (w.to == EMPTY ==> w.ring == EMPTY)
    && (w.to != EMPTY ==> 0 <= w.victim < nExpert && w.to != w.from)
  }

  /** The victim's destination is in flight and unmapped, and the victim's bytes are on their way to it. */
  ghost predicate SwapOk(pools: seq<Pool>, nExpert: nat, busy: seq<bool>, d: Mem, n: nat, w: Swap) {
    && SwapShape(pools, nExpert, busy, w)
    && (pools[w.layer].ram[w.from].expert >= 0 ==> pools[w.layer].ram[w.from].valid)
    && (w.to != EMPTY ==>
      && pools[w.layer].ram[w.to].expert == w.victim
      && !pools[w.layer].ram[w.to].valid
      && (w.victim < |pools[w.layer].expertSlot| ==> pools[w.layer].expertSlot[w.victim] != w.to)
      && (w.ring == EMPTY ==> Holds(At(d, Ram(w.layer, w.to)), n, w.layer, w.victim, Device))
      && (w.ring != EMPTY ==> busy[w.ring] && Holds(At(d, Ring(w.ring)), n, w.layer, w.victim, Device)))
  }

  ghost predicate SwapsApart(a: Swap, b: Swap) {
    && (a.to != EMPTY && a.layer == b.layer ==> a.to != b.to && a.to != b.from && b.to != a.from)
    && (a.ring != EMPTY ==> a.ring != b.ring)
  }

  ghost predicate SideHas(side: seq<Copy>, w: Swap)
    requires w.ring >= 0 && w.to >= 0
  {
    exists k :: 0 <= k < |side| && side[k] == Copy(Ring(w.ring), Ram(w.layer, w.to), false)
  }

  /** A mapped swap whose read-back is queued: the ring still holds the bytes, or they have landed. */
  ghost predicate LandOk(pools: seq<Pool>, nExpert: nat, busy: seq<bool>, d: Mem, n: nat, side: seq<Copy>, w: Swap) {
    && w.layer < |pools| && 0 <= w.to < |pools[w.layer].ram| && 0 <= w.victim < nExpert
    && 0 <= w.ring < |busy| && busy[w.ring]
    && pools[w.layer].ram[w.to].expert == w.victim && pools[w.layer].ram[w.to].valid && pools[w.layer].ram[w.to].soa
    && Holds(At(d, Ring(w.ring)), n, w.layer, w.victim, Device)
    && (SideHas(side, w) || Holds(At(d, Ram(w.layer, w.to)), n, w.layer, w.victim, Device))
  }

  ghost predicate LandsApart(a: Swap, b: Swap) {
    a.ring != b.ring && (a.layer == b.layer ==> a.to != b.to)
  }

  ghost predicate LandSwapApart(a: Swap, b: Swap) {
    a.ring != b.ring && (a.layer == b.layer ==> a.to != b.to && a.to != b.from)
  }

  ghost predicate LandReleaseApart(a: Swap, r: Release) {
    a.layer == r.layer ==> a.to != r.slot
  }

  ghost predicate SideOk(landing: seq<Swap>, c: Copy) {
    exists i :: 0 <= i < |landing| && landing[i].ring >= 0 && landing[i].to >= 0
      && c == Copy(Ring(landing[i].ring), Ram(landing[i].layer, landing[i].to), false)
  }

  ghost predicate SwapRing(swaps: seq<Swap>, r: nat) {
    exists i :: 0 <= i < |swaps| && swaps[i].ring == r
  }

  ghost predicate SwapInto(swaps: seq<Swap>, l: nat, k: int) {
    exists i :: 0 <= i < |swaps| && swaps[i].layer == l && swaps[i].to == k
  }

  /** What may be queued on the compute queue: an upload from a protected slot, or a victim on its way out. */
  ghost predicate OpOk(release: seq<Release>, swaps: seq<Swap>, c: Copy) {
    match c
    case Copy(Ram(l, k), Vram(_, _), _) => InRelease(release, l, k)
    case Copy(Vram(_, _), Ring(r), _) => SwapRing(swaps, r)
    case Copy(Vram(_, _), Ram(l, k), _) => SwapInto(swaps, l, k)
    case _ => false
  }

  // ---------------------------------------------------------------- reads in flight

  /** The pieces of a claim that have landed are the claimed expert's, in the file's layout. */
  ghost predicate Landed(b: Bytes, n: nat, c: Claim) {
    forall q | 0 <= q < n && q !in c.flying :: q in b && b[q] == Part(c.layer, c.expert, q, File)
  }

  ghost predicate ClaimOk(pools: seq<Pool>, nExpert: nat, d: Mem, n: nat, c: Claim) {
    && c.layer < |pools| && c.slot < |pools[c.layer].ram| && c.expert < nExpert
    && pools[c.layer].ram[c.slot].expert == c.expert
    && !pools[c.layer].ram[c.slot].valid
    && !pools[c.layer].ram[c.slot].soa
    && Landed(At(d, Ram(c.layer, c.slot)), n, c)
  }

  ghost predicate ClaimsApart(a: Claim, b: Claim) {
    a.layer == b.layer ==> a.slot != b.slot
  }

  ghost predicate ClaimSwapApart(a: Claim, b: Swap) {
    a.layer == b.layer ==> a.slot != b.to
  }

  // ---------------------------------------------------------------- the invariant

  /** One layer's maps, and the bytes of its two tiers in the settled memory d. */
  ghost predicate LayerOk(d: Mem, n: nat, nExpert: nat, landing: seq<Swap>, swaps: seq<Swap>, l: nat, p: Pool) {
    && PoolShape(p, nExpert)
    && MapsOk(p, nExpert)
    && Exclusive(swaps, l, p, nExpert)
    && (forall g | 0 <= g < |p.gpu| :: GpuOk(d, n, l, g, p.gpu[g], p.lent))
    && (forall k | 0 <= k < |p.ram| :: RamOk(d, n, landing, l, k, p.ram[k]))
  }

  ghost predicate TiersOk(s: State, d: Mem) {
    forall l | 0 <= l < |s.pools| :: LayerOk(d, s.n, s.nExpert, s.landing, s.swaps, l, s.pools[l])
  }

  /** The promotions under way. */
  ghost predicate SwapsOk(s: State, d: Mem) {
    && (forall i | 0 <= i < |s.release| :: ReleaseOk(s.pools, s.release[i]))
    && (forall i | 0 <= i < |s.swaps| :: SwapOk(s.pools, s.nExpert, s.ringBusy, d, s.n, s.swaps[i]))
    && (forall i, j | 0 <= i < j < |s.swaps| :: SwapsApart(s.swaps[i], s.swaps[j]))
    && (forall i | 0 <= i < |s.compute| :: OpOk(s.release, s.swaps, s.compute[i]))
  }

  /** The read-backs under way. */
  ghost predicate LandingOk(s: State, d: Mem) {
    && (forall i | 0 <= i < |s.landing| :: LandOk(s.pools, s.nExpert, s.ringBusy, d, s.n, s.side, s.landing[i]))
    && (forall i, j | 0 <= i < j < |s.landing| :: LandsApart(s.landing[i], s.landing[j]))
    && (forall i, j | 0 <= i < |s.landing| && 0 <= j < |s.swaps| :: LandSwapApart(s.landing[i], s.swaps[j]))
    && (forall i, j | 0 <= i < |s.landing| && 0 <= j < |s.release| :: LandReleaseApart(s.landing[i], s.release[j]))
    && (forall k | 0 <= k < |s.side| :: SideOk(s.landing, s.side[k]))
  }

  /** The reads under way. */
  ghost predicate ClaimsOk(s: State, d: Mem) {
    && (forall i | 0 <= i < |s.claims| :: ClaimOk(s.pools, s.nExpert, d, s.n, s.claims[i]))
    && (forall i, j | 0 <= i < j < |s.claims| :: ClaimsApart(s.claims[i], s.claims[j]))
    && (forall i, j | 0 <= i < |s.claims| && 0 <= j < |s.swaps| :: ClaimSwapApart(s.claims[i], s.swaps[j]))
  }

  ghost predicate Inv(s: State) {
    var d := Settled(s);
    TiersOk(s, d) && SwapsOk(s, d) && LandingOk(s, d) && ClaimsOk(s, d)
  }
}
