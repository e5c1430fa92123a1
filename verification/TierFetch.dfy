/** What a fetch hands out, and why nothing that happens after takes it away. */
module TierFetch {
  import opened Hardware
  import opened TierState
  import opened TierSteps
  import opened TierProofs
  import opened TierReads

  /** Where a fetched expert's weights are: a slot of the VRAM tier or of the RAM tier. `late`: promoted by this fetch.
      */
  datatype Handle = Handle(onGpu: bool, slot: nat, late: bool)

  /** A block a fetch waits for that another read is already bringing. */
  datatype Awaited = Awaited(expert: nat, slot: nat)

  function LostFor(l: nat, a: Awaited): Lost { Lost(l, a.expert, a.slot) }

  ghost function AllLost(l: nat, pending: seq<Awaited>): set<Lost> {
    set a | a in pending :: LostFor(l, a)
  }

  ghost predicate Reading(claims: seq<Claim>, kind: Kind, l: nat, id: nat, k: nat) {
    exists i :: 0 <= i < |claims| && claims[i].kind == kind && claims[i].layer == l && claims[i].expert == id
        && claims[i].slot == k
  }

  /** The fetch has a read of its own on the way into the slot, or waits for whoever's. */
  ghost predicate Coming(claims: seq<Claim>, pending: seq<Awaited>, l: nat, id: nat, k: nat) {
    Reading(claims, Demand, l, id, k) || Awaited(id, k) in pending
  }

  /** A handle good for expert id of layer l: its slot names that expert, is protected, and holds it or will. */
  ghost predicate Serves(s: State, pending: seq<Awaited>, l: nat, id: nat, h: Handle) {
    if h.onGpu then
      IsGpu(s, l, h.slot) && s.pools[l].gpu[h.slot].expert == id && s.pools[l].gpu[h.slot].used >= s.epoch
    else
      && IsRam(s, l, h.slot) && s.pools[l].ram[h.slot].expert == id && !s.pools[l].ram[h.slot].soa
      && h.slot in s.live
      && (s.pools[l].ram[h.slot].valid || Coming(s.claims, pending, l, id, h.slot))
  }

  /** Two experts of one fetch never share a slot. */
  lemma ServedApart(s: State, pending: seq<Awaited>, l: nat, a: nat, g: Handle, b: nat, h: Handle)
    requires Serves(s, pending, l, a, g) && Serves(s, pending, l, b, h) && a != b
    ensures g.onGpu == h.onGpu ==> g.slot != h.slot
  {
  }

  /** No two experts of a fetch share a slot. */
  ghost predicate Apart(hs: seq<Handle>) {
    forall i, j | 0 <= i < j < |hs| && hs[i].onGpu == hs[j].onGpu :: hs[i].slot != hs[j].slot
  }

  // ---------------------------------------------------------------- what one expert's turn leaves alone

  /** No VRAM slot names the expert except the one its map points to. */
  ghost predicate NoStray(p: Pool, x: nat) {
    x < |p.gExpertSlot| && forall g | 0 <= g < |p.gpu| && p.gpu[g].expert == x :: p.gExpertSlot[x] == g
  }

  /** No slot of either tier does. */
  ghost predicate NoOrphan(p: Pool, x: nat) {
    NoStray(p, x) && x < |p.expertSlot| && forall k | 0 <= k < |p.ram| && p.ram[k].expert == x :: p.expertSlot[x] == k
  }

  /** The VRAM slot the expert's map points to is stamped as in use by the fetch under way. */
  ghost predicate GpuGuarded(p: Pool, x: nat, epoch: nat) {
    x < |p.gExpertSlot| && (0 <= p.gExpertSlot[x] < |p.gpu| ==> p.gpu[p.gExpertSlot[x]].used >= epoch)
  }

  /** ... and its RAM slot is listed as such. */
  ghost predicate Guarded(p: Pool, x: nat, live: seq<nat>, epoch: nat) {
    GpuGuarded(p, x, epoch) && x < |p.expertSlot| && (p.expertSlot[x] >= 0 ==> p.expertSlot[x] in live)
  }

  ghost predicate SamePlaces(p: Pool, q: Pool, x: nat) {
    && x < |p.expertSlot| && x < |q.expertSlot| && x < |p.gExpertSlot| && x < |q.gExpertSlot|
    && q.expertSlot[x] == p.expertSlot[x] && q.gExpertSlot[x] == p.gExpertSlot[x]
  }

  ghost predicate PoolSpares(p: Pool, q: Pool, e: nat, live: seq<nat>, epoch: nat) {
    && |q.ram| == |p.ram| && |q.gpu| == |p.gpu| && |q.expertSlot| == |p.expertSlot|
        && |q.gExpertSlot| == |p.gExpertSlot|
    && q.lent == p.lent
    && (forall k | 0 <= k < |p.ram| && k in live && p.ram[k].expert >= 0 ::
          q.ram[k].expert == p.ram[k].expert && (p.ram[k].valid ==> q.ram[k].valid) && (q.ram[k].soa ==> p.ram[k].soa))
    && (forall g | 0 <= g < |p.gpu| && p.gpu[g].expert >= 0 && p.gpu[g].used >= epoch ::
          q.gpu[g].expert == p.gpu[g].expert && q.gpu[g].used >= epoch)
    && (forall x | 0 <= x < |p.expertSlot| && x != e :: q.expertSlot[x] in {p.expertSlot[x], EMPTY})
    && (forall x | 0 <= x < |p.gExpertSlot| && x != e :: q.gExpertSlot[x] in {p.gExpertSlot[x], EMPTY})
    && (forall x: nat | x < |p.expertSlot| && x != e && NoOrphan(p, x) && Guarded(p, x, live, epoch) ::
          NoOrphan(q, x) && SamePlaces(p, q, x))
    && VramSpares(p, q, e, epoch)
  }

  /** ... of VRAM alone: what is stamped and has no stray slot stays mapped where it was, and no slot becomes a stray.
      */
  ghost predicate VramSpares(p: Pool, q: Pool, e: nat, epoch: nat) {
    && |q.gExpertSlot| == |p.gExpertSlot|
    && (forall x: nat | x < |p.gExpertSlot| && x != e && NoStray(p, x) && GpuGuarded(p, x, epoch) ::
        q.gExpertSlot[x] == p.gExpertSlot[x])
    && NoNewStray(p, q)
  }

  ghost predicate NoNewStray(p: Pool, q: Pool) {
    forall x: nat | NoStray(p, x) :: NoStray(q, x)
  }

  ghost predicate NoNewStrays(p: seq<Pool>, q: seq<Pool>) {
    |q| == |p| && forall m | 0 <= m < |p| :: NoNewStray(p[m], q[m])
  }

  lemma StraysTrans(p: seq<Pool>, q: seq<Pool>, r: seq<Pool>)
    requires NoNewStrays(p, q) && NoNewStrays(q, r)
    ensures NoNewStrays(p, r)
  {
    forall m | 0 <= m < |p| ensures NoNewStray(p[m], r[m]) { assert NoNewStray(p[m], q[m]) && NoNewStray(q[m], r[m]); }
  }

  lemma StampStrays(p: seq<Pool>, q: seq<Pool>, l: nat)
    requires l < |p| == |q| && q == p[l := q[l]] && SamePool(p[l], q[l])
    ensures NoNewStrays(p, q)
  {
    forall m | 0 <= m < |p| ensures NoNewStray(p[m], q[m]) {
      if m == l {
        forall x: nat | NoStray(p[l], x) ensures NoStray(q[l], x) { }
      }
    }
  }

  lemma SameVramStrays(p: seq<Pool>, q: seq<Pool>)
    requires SameVram(p, q)
    ensures NoNewStrays(p, q)
  {
    forall m | 0 <= m < |p| ensures NoNewStray(p[m], q[m]) { }
  }

  lemma SparesStrays(s: State, t: State, l: nat, e: nat)
    requires Spares(s, t, l, e)
    ensures NoNewStrays(s.pools, t.pools)
  {
  }

  /** One expert's turn of a fetch: the pool of layer l spares every other expert of the fetch. */
  ghost predicate Spares(s: State, t: State, l: nat, e: nat) {
    && l < |s.pools| && |t.pools| == |s.pools| && t.pools == s.pools[l := t.pools[l]]
    && PoolSpares(s.pools[l], t.pools[l], e, s.live, s.epoch)
    && t.n == s.n && t.nExpert == s.nExpert && t.d2d == s.d2d && t.epoch == s.epoch && t.landing == s.landing
        && t.tick >= s.tick
    && t.abandoned == s.abandoned
    && s.live <= t.live
    && |s.claims| <= |t.claims| <= |s.claims| + 1
    && (forall i | 0 <= i < |s.claims| :: t.claims[i] == s.claims[i].(flying := t.claims[i].flying))
    && (|t.claims| > |s.claims| ==> var c := t.claims[|s.claims|]; c.kind == Demand && c.layer == l && c.expert == e)
    && (t.release == s.release || (e < |s.pools[l].expertSlot| && s.pools[l].expertSlot[e] >= 0
        && t.release == s.release + [Release(l, e, s.pools[l].expertSlot[e])]))
  }

  lemma ReadingKept(claims: seq<Claim>, claims': seq<Claim>, kind: Kind, l: nat, id: nat, k: nat)
    requires Reading(claims, kind, l, id, k) && |claims| <= |claims'|
    requires forall i | 0 <= i < |claims| :: claims'[i] == claims[i].(flying := claims'[i].flying)
    ensures Reading(claims', kind, l, id, k)
  {
    var i :| 0 <= i < |claims| && claims[i].kind == kind && claims[i].layer == l && claims[i].expert == id
        && claims[i].slot == k;
    assert claims'[i].slot == k;
  }

  lemma ComingKept(claims: seq<Claim>, claims': seq<Claim>, pending: seq<Awaited>, pending': seq<Awaited>, l: nat,
          id: nat, k: nat)
    requires Coming(claims, pending, l, id, k) && pending <= pending' && |claims| <= |claims'|
    requires forall i | 0 <= i < |claims| :: claims'[i] == claims[i].(flying := claims'[i].flying)
    ensures Coming(claims', pending', l, id, k)
  {
    if Reading(claims, Demand, l, id, k) { ReadingKept(claims, claims', Demand, l, id, k); }
  }

  /** Handles given out earlier stay good through another expert's turn. */
  lemma SparedServes(s: State, t: State, l: nat, e: nat, pending: seq<Awaited>, pending': seq<Awaited>, id: nat,
          h: Handle)
    requires Spares(s, t, l, e) && pending <= pending' && Serves(s, pending, l, id, h)
    ensures Serves(t, pending', l, id, h)
  {
    if !h.onGpu && !s.pools[l].ram[h.slot].valid {
      ComingKept(s.claims, t.claims, pending, pending', l, id, h.slot);
    }
  }

  /** A slot whose upload is still queued belongs to an expert VRAM has, so the fetch never touches its RAM copy. */
  ghost predicate Clear(s: State, l: nat, x: nat) {
    && l < |s.pools| && x < |s.pools[l].expertSlot| && x < |s.pools[l].gExpertSlot|
    && (s.pools[l].expertSlot[x] >= 0 && InRelease(s.release, l, s.pools[l].expertSlot[x]) ==>
          s.pools[l].gExpertSlot[x] >= 0 && NoStray(s.pools[l], x) && GpuGuarded(s.pools[l], x, s.epoch))
  }

  lemma SparedClear(s: State, t: State, l: nat, e: nat, x: nat)
    requires Spares(s, t, l, e) && Clear(s, l, x) && x != e && MapsOkAt(s, l) && MapsOkAt(t, l)
    ensures Clear(t, l, x)
  {
    var p, q := s.pools[l], t.pools[l];
    if q.expertSlot[x] >= 0 && InRelease(t.release, l, q.expertSlot[x]) {
      var i :| 0 <= i < |t.release| && t.release[i].layer == l && t.release[i].slot == q.expertSlot[x];
      assert i < |s.release|;
      assert s.release[i] == t.release[i];
    }
  }

  ghost predicate MapsOkAt(s: State, l: nat) {
    l < |s.pools| && PoolShape(s.pools[l], s.nExpert) && MapsOk(s.pools[l], s.nExpert)
  }

  // ---------------------------------------------------------------- the three ways to serve an expert

  lemma ClaimSpares(s: State, t: State, l: nat, v: nat, e: nat)
    requires MayClaim(s, l, v, e) && MapsOk(s.pools[l], s.nExpert) && s.live <= t.live && t.tick >= s.tick
    requires t == ClaimSlot(s, Demand, l, v, e).(live := t.live, tick := t.tick)
    ensures Spares(s, t, l, e)
  {
  }

  lemma PromotionSpares(s: State, t: State, l: nat, e: nat, slot: nat, c: Choice, to: int)
    requires MayPromote(s, l, e, slot, c) && MapsOk(s.pools[l], s.nExpert) && IsPromotion(s, t, l, e, slot, c, to)
        && s.tick >= s.epoch
    requires s.pools[l].gExpertSlot[e] < 0
    ensures Spares(s, t, l, e)
  {
  }

  lemma ConvertSpares(s: State, l: nat, k: nat, e: nat)
    requires l < |s.pools| && k < |s.pools[l].ram|
    ensures Spares(s, Convert(s, l, k), l, e)
  {
  }

  lemma SparesStill(s: State, t: State, l: nat, e: nat)
    requires l < |s.pools| && s.live <= t.live && t.tick >= s.tick
    requires t == s.(live := t.live, tick := t.tick, mem := t.mem, compute := t.compute, side := t.side,
        claims := t.claims)
    requires |t.claims| == |s.claims| && forall i | 0 <= i < |s.claims| ::
        t.claims[i] == s.claims[i].(flying := t.claims[i].flying)
    ensures Spares(s, t, l, e)
  {
  }

  lemma SparesBefore(s: State, s': State, t: State, l: nat, e: nat)
    requires s' == s.(live := s'.live, tick := s'.tick) && s.live <= s'.live && s.tick <= s'.tick
    requires Spares(s', t, l, e)
    ensures Spares(s, t, l, e)
  {
    assert s.live <= t.live;
    forall x: nat | x < |s.pools[l].expertSlot| && x != e && NoOrphan(s.pools[l], x)
        && Guarded(s.pools[l], x, s.live, s.epoch)
      ensures NoOrphan(t.pools[l], x) && SamePlaces(s.pools[l], t.pools[l], x)
    {
      assert Guarded(s'.pools[l], x, s'.live, s'.epoch);
    }
  }

  lemma UsedSpares(s: State, t: State, l: nat, e: nat, g: nat)
    requires l < |s.pools| && g < |s.pools[l].gpu| && s.tick >= s.epoch
        && |s.pools[l].gExpertSlot| == |s.pools[l].expertSlot|
    requires t == s.(pools := s.pools[l := s.pools[l].(gpu := s.pools[l].gpu[g := s.pools[l].gpu[g].(used := s.tick)])])
    ensures Spares(s, t, l, e)
  {
  }

  // ---------------------------------------------------------------- a whole fetch

  ghost predicate Distinct(ids: seq<nat>) {
    forall i, j | 0 <= i < j < |ids| :: ids[i] != ids[j]
  }

  /** What a fetch asks of its caller: experts of one layer, each once; no demand read still out; and nothing queued
      still reads the RAM copy of an expert that VRAM does not serve. */
  ghost predicate FetchReady(s: State, l: nat, ids: seq<nat>) {
    && l < |s.pools| && Distinct(ids)
    && (forall i | 0 <= i < |ids| :: IsExpert(s, l, ids[i]))
    && (forall i | 0 <= i < |s.claims| :: s.claims[i].kind == Speculative)
    && (forall i | 0 <= i < |ids| :: Unread(s, l, ids[i]))
  }

  ghost predicate Unread(s: State, l: nat, x: nat) {
    && l < |s.pools| && x < |s.pools[l].expertSlot| && x < |s.pools[l].gExpertSlot|
    && (s.pools[l].expertSlot[x] >= 0 && InRelease(s.release, l, s.pools[l].expertSlot[x]) ==>
          s.pools[l].gExpertSlot[x] >= 0 && NoStray(s.pools[l], x))
  }

  /** What a handle says about where its expert was when the fetch began (pool p): in VRAM it stays there; a promoted
      one is marked late; a RAM block is served from where it was, whatever the fetch did since. */
  ghost predicate Faithful(p: Pool, id: nat, h: Handle) {
    && id < |p.expertSlot| && id < |p.gExpertSlot|
    && (NoStray(p, id) && p.gExpertSlot[id] >= 0 ==> h == Handle(true, p.gExpertSlot[id], false))
    && (p.gExpertSlot[id] < 0 && h.onGpu ==> h.late)
    && (NoOrphan(p, id) && p.gExpertSlot[id] < 0 && p.expertSlot[id] >= 0 && !h.onGpu ==> h.slot == p.expertSlot[id])
  }

  /** The experts a fetch has still to serve are where they were when it began. */
  ghost predicate Waiting(p: Pool, s: State, l: nat, x: nat) {
    && Clear(s, l, x)
    && x < |p.expertSlot| && x < |p.gExpertSlot|
    && (NoStray(p, x) ==>
          && NoStray(s.pools[l], x) && s.pools[l].gExpertSlot[x] == p.gExpertSlot[x]
          && GpuGuarded(s.pools[l], x, s.epoch))
    && (NoOrphan(p, x)
        ==> NoOrphan(s.pools[l], x) && SamePlaces(p, s.pools[l], x) && Guarded(s.pools[l], x, s.live, s.epoch))
    && s.pools[l].gExpertSlot[x] in {p.gExpertSlot[x], EMPTY}
    && (s.pools[l].expertSlot[x] >= 0 ==> s.pools[l].expertSlot[x] in s.live)
  }

  ghost predicate Given(p: Pool, s: State, pending: seq<Awaited>, l: nat, id: nat, h: Handle, ready: bool) {
    && Serves(s, pending, l, id, h) && Faithful(p, id, h)
    && (ready ==> h.onGpu || s.pools[l].ram[h.slot].valid)
  }

  /** Reads of a fetch under way are for the experts it has already dealt with. */
  ghost predicate OwnReads(s: State, l: nat, ids: seq<nat>) {
    forall i | 0 <= i < |s.claims| ::
      s.claims[i].kind == Speculative
          || (s.claims[i].kind == Demand && s.claims[i].layer == l && s.claims[i].expert in ids)
  }

  lemma WaitingStill(p: Pool, s: State, t: State, l: nat, e: nat, x: nat)
    requires Waiting(p, s, l, x) && Spares(s, t, l, e) && x != e && MapsOkAt(s, l) && MapsOkAt(t, l)
    ensures Waiting(p, t, l, x)
  {
    SparedClear(s, t, l, e, x);
    if NoStray(p, x) {
      forall g | g == s.pools[l].gExpertSlot[x] && g >= 0
          ensures t.pools[l].gpu[g].used >= t.epoch { assert s.pools[l].gpu[g].expert == x; }
    }
  }

  lemma GivenStill(p: Pool, s: State, t: State, pending: seq<Awaited>, pending': seq<Awaited>, l: nat, e: nat, id: nat,
          h: Handle, ready: bool)
    requires Given(p, s, pending, l, id, h, ready) && Spares(s, t, l, e) && pending <= pending'
    ensures Given(p, t, pending', l, id, h, ready)
  {
    SparedServes(s, t, l, e, pending, pending', id, h);
  }

  lemma OwnReadsAll(s: State, l: nat, ids: seq<nat>, i: nat)
    requires i <= |ids| && OwnReads(s, l, ids[..i])
    ensures OwnReads(s, l, ids)
  {
  }

  lemma OwnReadsLess(s: State, l: nat, ids: seq<nat>, i: nat)
    requires OwnReads(s, l, ids) && i < |s.claims|
    ensures OwnReads(GiveUp(s, i), l, ids)
  {
    var t := GiveUp(s, i);
    forall j | 0 <= j < |t.claims| ensures t.claims[j] == s.claims[if j < i then j else j + 1] { }
  }

  lemma OwnReadsGrow(s: State, t: State, l: nat, ids: seq<nat>, i: nat)
    requires i < |ids| && OwnReads(s, l, ids[..i]) && Spares(s, t, l, ids[i])
    ensures OwnReads(t, l, ids[..i + 1])
  {
    assert ids[..i + 1] == ids[..i] + [ids[i]];
    forall j | 0 <= j < |t.claims|
      ensures t.claims[j].kind == Speculative
          || (t.claims[j].kind == Demand && t.claims[j].layer == l && t.claims[j].expert in ids[..i + 1])
    {
      if j < |s.claims| { assert t.claims[j].kind == s.claims[j].kind; }
    }
  }

  /** No read of the fetch is for the expert whose turn it is. */
  lemma OwnReadsMine(s: State, l: nat, ids: seq<nat>, i: nat)
    requires i < |ids| && Distinct(ids) && OwnReads(s, l, ids[..i])
    ensures forall j | 0 <= j < |s.claims| && s.claims[j].layer == l && s.claims[j].expert == ids[i] ::
        s.claims[j].kind == Speculative
  {
  }

  /** Where a fetch stands after its first i experts (p: the layer's pool when it began). */
  ghost predicate ServingAt(p: Pool, s: State, pending: seq<Awaited>, l: nat, ids: seq<nat>, i: nat, out: seq<Handle>,
          ready: seq<bool>) {
    && l < |s.pools| && i <= |ids| && |out| == |ready| == i
    && Distinct(ids) && (forall j | 0 <= j < |ids| :: ids[j] < s.nExpert)
    && NoLanding(s, l) && s.tick >= s.epoch
    && (forall j | 0 <= j < i :: Given(p, s, pending, l, ids[j], out[j], ready[j]))
    && (forall j | i <= j < |ids| :: Waiting(p, s, l, ids[j]))
    && OwnReads(s, l, ids[..i]) && PendingServed(s, pending, l)
  }

  /** A block the fetch waits for: there, or on its way by a speculative read, or abandoned by a fetch that failed. */
  ghost predicate Expected(s: State, pending: seq<Awaited>, l: nat, a: Awaited) {
    && Serves(s, pending, l, a.expert, Handle(false, a.slot, false))
    && (|| s.pools[l].ram[a.slot].valid
        || Reading(s.claims, Speculative, l, a.expert, a.slot)
        || LostFor(l, a) in s.abandoned)
  }

  ghost predicate PendingServed(s: State, pending: seq<Awaited>, l: nat) {
    forall a | a in pending :: Expected(s, pending, l, a)
  }

  lemma PendingStill(s: State, t: State, held: seq<Awaited>, pending: seq<Awaited>, l: nat, e: nat)
    requires Spares(s, t, l, e) && PendingServed(s, held, l)
    requires pending == held
        || (exists k :: pending == held + [Awaited(e, k)] && Expected(t, pending, l, Awaited(e, k)))
    ensures PendingServed(t, pending, l)
  {
    forall a | a in held ensures Expected(t, pending, l, a) {
      assert Expected(s, held, l, a);
      SparedServes(s, t, l, e, held, pending, a.expert, Handle(false, a.slot, false));
      if Reading(s.claims, Speculative, l, a.expert,
          a.slot) { ReadingKept(s.claims, t.claims, Speculative, l, a.expert, a.slot); }
    }
  }

  // ---------------------------------------------------------------- the end of a fetch

  /** The handle's slot holds its expert: for the host in the file's layout now, for a kernel queued after what is
      queued already in the device's. */
  ghost predicate Arrived(s: State, l: nat, id: nat, h: Handle) {
    if h.onGpu then Holds(At(Settled(s), Vram(l, h.slot)), s.n, l, id, Device)
    else Holds(At(s.mem, Ram(l, h.slot)), s.n, l, id, File)
  }

  /** Everything served in state s has arrived in state t. */
  ghost predicate Delivers(s: State, t: State, pending: seq<Awaited>, l: nat) {
    forall id: nat, h :: Serves(s, pending, l, id, h) ==> Arrived(t, l, id, h)
  }

  lemma ServedArrived(s: State, pending: seq<Awaited>, l: nat, id: nat, h: Handle)
    requires Inv(s) && NoLanding(s, l) && Serves(s, pending, l, id, h)
    requires !h.onGpu ==> s.pools[l].ram[h.slot].valid
    ensures Arrived(s, l, id, h)
  {
    var d := Settled(s);
    assert LayerOk(d, s.n, s.nExpert, s.landing, s.swaps, l, s.pools[l]);
    if h.onGpu {
      assert GpuOk(d, s.n, l, h.slot, s.pools[l].gpu[h.slot], s.pools[l].lent);
    } else {
      assert RamOk(d, s.n, s.landing, l, h.slot, s.pools[l].ram[h.slot]);
      forall i | 0 <= i < |s.compute| ensures s.compute[i].dst != Ram(l, h.slot) {
        assert OpOk(s.release, s.swaps, s.compute[i]);
        forall j | 0 <= j < |s.swaps| ensures !(s.swaps[j].layer == l && s.swaps[j].to == h.slot) {
          assert SwapOk(s.pools, s.nExpert, s.ringBusy, d, s.n, s.swaps[j]);
        }
      }
      DrainFrame(s.compute, s.mem, Ram(l, h.slot));
    }
  }

  /** Everything served before is served after, and everything expected is expected or there. */
  ghost predicate StillServes(s: State, t: State, pending: seq<Awaited>) {
    && (forall l: nat, id: nat, h :: Serves(s, pending, l, id, h) ==> Serves(t, pending, l, id, h))
    && (forall l: nat, a :: Expected(s, pending, l, a) ==> Expected(t, pending, l, a))
  }

  lemma RanServes(s: State, t: State, pending: seq<Awaited>)
    requires t == s.(mem := t.mem, compute := t.compute, side := t.side, claims := t.claims, landing := t.landing,
        ringBusy := t.ringBusy, tick := t.tick)
    requires |t.claims| == |s.claims| && forall i | 0 <= i < |s.claims| ::
        t.claims[i] == s.claims[i].(flying := t.claims[i].flying)
    ensures StillServes(s, t, pending)
  {
    forall l: nat, id: nat, h | Serves(s, pending, l, id, h) ensures Serves(t, pending, l, id, h) {
      if !h.onGpu && !s.pools[l].ram[h.slot].valid { ComingKept(s.claims, t.claims, pending, pending, l, id, h.slot); }
    }
    forall l: nat, a | Expected(s, pending, l, a) ensures Expected(t, pending, l, a) {
      if Reading(s.claims, Speculative, l, a.expert,
          a.slot) { ReadingKept(s.claims, t.claims, Speculative, l, a.expert, a.slot); }
    }
  }

  lemma ReadingLeft(s: State, i: nat, kind: Kind, l: nat, id: nat, k: nat)
    requires i < |s.claims| && s.claims[i].layer < |s.pools| && s.claims[i].slot < |s.pools[s.claims[i].layer].ram|
    requires Reading(s.claims, kind, l, id, k) && !(s.claims[i].layer == l && s.claims[i].slot == k)
    ensures Reading(Complete(s, i).claims, kind, l, id, k)
  {
    var j :| 0 <= j < |s.claims| && s.claims[j].kind == kind && s.claims[j].layer == l && s.claims[j].expert == id
        && s.claims[j].slot == k;
    assert Complete(s, i).claims[if j < i then j else j - 1] == s.claims[j];
  }

  lemma CompleteServes(s: State, i: nat, pending: seq<Awaited>)
    requires i < |s.claims| && s.claims[i].layer < |s.pools| && s.claims[i].slot < |s.pools[s.claims[i].layer].ram|
    ensures StillServes(s, Complete(s, i), pending)
  {
    var t := Complete(s, i);
    forall l: nat, id: nat, h | Serves(s, pending, l, id, h) ensures Serves(t, pending, l, id, h) {
      if !h.onGpu && !t.pools[l].ram[h.slot].valid {
        if Reading(s.claims, Demand, l, id, h.slot) { ReadingLeft(s, i, Demand, l, id, h.slot); }
      }
    }
    forall l: nat, a | Expected(s, pending, l, a) ensures Expected(t, pending, l, a) {
      if !t.pools[l].ram[a.slot].valid && Reading(s.claims, Speculative, l, a.expert, a.slot) {
        ReadingLeft(s, i, Speculative, l, a.expert, a.slot);
      }
    }
  }

  lemma ClaimServes(s: State, l: nat, v: nat, e: nat, pending: seq<Awaited>)
    requires MayClaim(s, l, v, e)
    ensures StillServes(s, ClaimSlot(s, Speculative, l, v, e), pending)
  {
    var t := ClaimSlot(s, Speculative, l, v, e);
    forall m: nat, id: nat, h | Serves(s, pending, m, id, h) ensures Serves(t, pending, m, id, h) {
      if !h.onGpu && !s.pools[m].ram[h.slot].valid { ComingKept(s.claims, t.claims, pending, pending, m, id, h.slot); }
    }
    forall m: nat, a | Expected(s, pending, m, a) ensures Expected(t, pending, m, a) {
      if Reading(s.claims, Speculative, m, a.expert,
          a.slot) { ReadingKept(s.claims, t.claims, Speculative, m, a.expert, a.slot); }
    }
  }

  lemma StillTrans(s: State, t: State, u: State, pending: seq<Awaited>)
    requires StillServes(s, t, pending) && StillServes(t, u, pending)
    ensures StillServes(s, u, pending)
  {
  }

  /** A RAM block a batch was handed: there in the file's layout, or on its way by a blocking read. */
  ghost predicate Held(s: State, l: nat, id: nat, k: nat) {
    && IsRam(s, l, k) && s.pools[l].ram[k].expert == id && !s.pools[l].ram[k].soa
    && (s.pools[l].ram[k].valid || Reading(s.claims, Batch, l, id, k))
  }

  ghost predicate StillHeld(s: State, t: State) {
    forall l: nat, id: nat, k: nat :: Held(s, l, id, k) ==> Held(t, l, id, k)
  }

  lemma ReapHeld(s: State, t: State, i: nat)
    requires t == s.(mem := t.mem, compute := t.compute, side := t.side, claims := t.claims)
    requires |t.claims| == |s.claims| && forall i | 0 <= i < |s.claims| ::
        t.claims[i] == s.claims[i].(flying := t.claims[i].flying)
    requires i < |t.claims| && t.claims[i].layer < |t.pools| && t.claims[i].slot < |t.pools[t.claims[i].layer].ram|
    ensures StillHeld(s, Complete(t, i))
  {
    forall l: nat, id: nat, k: nat | Held(s, l, id, k) ensures Held(Complete(t, i), l, id, k) {
      if !Complete(t, i).pools[l].ram[k].valid {
        ReadingKept(s.claims, t.claims, Batch, l, id, k);
        ReadingLeft(t, i, Batch, l, id, k);
      }
    }
  }

  /** What reaping completions keeps: every handle, and the other reads. */
  ghost predicate Reaping(s: State, t: State, pending: seq<Awaited>) {
    && StillHeld(s, t) && StillServes(s, t, pending) && t.landing == s.landing && |t.pools| == |s.pools| && t.n == s.n
        && t.epoch == s.epoch
    && t.abandoned <= s.abandoned
    && (forall c | c in t.claims :: exists b :: b in s.claims && c == b.(flying := c.flying))
  }

  lemma ReapingTrans(s: State, t: State, u: State, pending: seq<Awaited>)
    requires Reaping(s, t, pending) && Reaping(t, u, pending)
    ensures Reaping(s, u, pending)
  {
    StillTrans(s, t, u, pending);
    forall c | c in u.claims ensures exists b :: b in s.claims && c == b.(flying := c.flying) {
      var b :| b in t.claims && c == b.(flying := c.flying);
      var a :| a in s.claims && b == a.(flying := b.flying);
      assert c == a.(flying := c.flying);
    }
  }

  lemma NoReading(claims: seq<Claim>, kind: Kind, l: nat, id: nat, k: nat)
    requires forall c | c in claims && c.kind == kind && c.layer == l :: Awaited(c.expert, c.slot) != Awaited(id, k)
    ensures !Reading(claims, kind, l, id, k)
  {
    forall i | 0 <= i < |claims| && claims[i].kind == kind && claims[i].layer == l
      ensures claims[i].expert != id || claims[i].slot != k
    {
      assert claims[i] in claims;
    }
  }

  lemma ReapFacts(s: State, t: State, i: nat, pending: seq<Awaited>)
    requires t == s.(mem := t.mem, compute := t.compute, side := t.side, claims := t.claims)
    requires |t.claims| == |s.claims| && forall i | 0 <= i < |s.claims| ::
        t.claims[i] == s.claims[i].(flying := t.claims[i].flying)
    requires i < |t.claims| && t.claims[i].layer < |t.pools| && t.claims[i].slot < |t.pools[t.claims[i].layer].ram|
    ensures Reaping(s, Complete(t, i), pending) && SameMaps(s.pools, Complete(t, i).pools)
  {
    var u := Complete(t, i);
    ReapHeld(s, t, i);
    RanServes(s, t, pending);
    CompleteServes(t, i, pending);
    StillTrans(s, t, u, pending);
    forall c | c in u.claims ensures exists b :: b in s.claims && c == b.(flying := c.flying) {
      var j :| 0 <= j < |u.claims| && u.claims[j] == c;
      var k := if j < i then j else j + 1;
      assert t.claims[k] == c && s.claims[k] in s.claims;
    }
  }

  /** With no read left that the fetch waits for, and no block left abandoned, everything it was handed is there. */
  lemma AllArrived(s: State, pending: seq<Awaited>, l: nat, id: nat, h: Handle)
    requires Inv(s) && NoLanding(s, l) && Serves(s, pending, l, id, h) && PendingServed(s, pending, l)
    requires forall c | c in s.claims :: c.kind == Speculative
    requires forall c | c in s.claims && c.layer == l :: Awaited(c.expert, c.slot) !in pending
    requires forall a | a in pending :: LostFor(l, a) !in s.abandoned
    ensures Arrived(s, l, id, h) && (!h.onGpu ==> s.pools[l].ram[h.slot].valid)
  {
    NoReading(s.claims, Demand, l, id, h.slot);
    if !h.onGpu && Awaited(id, h.slot) in pending {
      NoReading(s.claims, Speculative, l, id, h.slot);
      assert Expected(s, pending, l, Awaited(id, h.slot));
    }
    ServedArrived(s, pending, l, id, h);
  }

  /** Once no speculative read of an awaited block is left, the block is there exactly when no failed fetch abandoned
      it. */
  lemma ExpectedArrived(s: State, pending: seq<Awaited>, l: nat, a: Awaited)
    requires Expected(s, pending, l, a) && LostsOk(s)
    requires forall c | c in s.claims && c.kind == Speculative && c.layer == l :: Awaited(c.expert, c.slot) != a
    ensures s.pools[l].ram[a.slot].expert == a.expert
    ensures s.pools[l].ram[a.slot].valid <==> LostFor(l, a) !in s.abandoned
  {
    NoReading(s.claims, Speculative, l, a.expert, a.slot);
    if LostFor(l, a) in s.abandoned { assert LostOk(s, LostFor(l, a)); }
  }

  /** Reading an abandoned block again, to the end. */
  lemma ReadAgainReaps(s: State, b: Lost, t: State, pending: seq<Awaited>)
    requires LostsOk(s) && b in s.abandoned
    requires t == ReadAgain(s, b).(mem := t.mem, compute := t.compute, side := t.side, claims := t.claims)
    requires |t.claims| == |s.claims| + 1
    requires forall i | 0 <= i <= |s.claims| :: t.claims[i] == ReadAgain(s, b).claims[i].(flying := t.claims[i].flying)
    ensures t.claims[|s.claims|].layer < |t.pools| && t.claims[|s.claims|].slot < |t.pools[b.layer].ram|
    ensures Reaping(s, Complete(t, |s.claims|), pending) && SameMaps(s.pools, Complete(t, |s.claims|).pools)
    ensures Complete(t, |s.claims|).abandoned == s.abandoned - {b}
  {
    assert LostOk(s, b);
    var n := |s.claims|;
    var u := Complete(t, n);
    assert u.claims == t.claims[..n];
    forall i | 0 <= i < n ensures u.claims[i] == s.claims[i].(flying := u.claims[i].flying) { }
    forall l: nat, id: nat, k: nat | Held(s, l, id, k) ensures Held(u, l, id, k) {
      if Reading(s.claims, Batch, l, id, k) { ReadingKept(s.claims, u.claims, Batch, l, id, k); }
    }
    forall l: nat, id: nat, h | Serves(s, pending, l, id, h) ensures Serves(u, pending, l, id, h) {
      if !h.onGpu && Reading(s.claims, Demand, l, id,
          h.slot) { ReadingKept(s.claims, u.claims, Demand, l, id, h.slot); }
    }
    forall l: nat, a | Expected(s, pending, l, a) ensures Expected(u, pending, l, a) {
      if Reading(s.claims, Speculative, l, a.expert,
          a.slot) { ReadingKept(s.claims, u.claims, Speculative, l, a.expert, a.slot); }
    }
    forall c | c in u.claims ensures exists a :: a in s.claims && c == a.(flying := c.flying) {
      var j :| 0 <= j < |u.claims| && u.claims[j] == c;
      assert s.claims[j] in s.claims;
    }
  }

  lemma NoneAwaited(s: State, t: State, pending: seq<Awaited>, l: nat)
    requires Reaping(s, t, pending)
    requires forall c | c in s.claims && c.kind == Speculative && c.layer == l :: Awaited(c.expert, c.slot) !in pending
    ensures forall c | c in t.claims && c.kind == Speculative && c.layer == l :: Awaited(c.expert, c.slot) !in pending
  {
  }

  // ---------------------------------------------------------------- promotions outside a fetch

  /** A VRAM tier with nothing a promotion may displace. */
  ghost predicate FreshTier(p: Pool, epoch: nat) {
    forall g | 0 <= g < |p.gpu| :: p.gpu[g].expert >= 0 ==> p.gpu[g].used >= epoch
  }

  /** Whoever is in VRAM stays in VRAM. */
  ghost predicate VramKept(p: Pool, q: Pool) {
    |q.gExpertSlot| == |p.gExpertSlot| && forall e | 0 <= e < |p.gExpertSlot| && p.gExpertSlot[e] >= 0 ::
        q.gExpertSlot[e] >= 0
  }

  /** Promotions into one layer: a tier with nothing to displace loses nobody and has nothing to displace after. */
  ghost predicate Refills(p: seq<Pool>, q: seq<Pool>, l: nat, epoch: nat) {
    && l < |p| == |q| && q == p[l := q[l]] && q[l].lent == p[l].lent
    && (FreshTier(p[l], epoch) ==> FreshTier(q[l], epoch) && VramKept(p[l], q[l]) && Conserves(p, q))
  }

  lemma RefillsTrans(p: seq<Pool>, q: seq<Pool>, r: seq<Pool>, l: nat, epoch: nat)
    requires Refills(p, q, l, epoch) && Refills(q, r, l, epoch)
    ensures Refills(p, r, l, epoch)
  {
    assert r == p[l := r[l]];
  }

  lemma NothingRefilled(p: seq<Pool>, l: nat, epoch: nat)
    requires l < |p|
    ensures Refills(p, p, l, epoch)
  {
    assert p[l := p[l]] == p;
  }

  /** Every tier with nothing to displace stays one, and loses nobody. */
  ghost predicate Restores(p: seq<Pool>, q: seq<Pool>, epoch: nat) {
    |q| == |p| && forall m | 0 <= m < |p| && FreshTier(p[m], epoch) :: FreshTier(q[m], epoch) && VramKept(p[m], q[m])
  }

  lemma RestoresTrans(p: seq<Pool>, q: seq<Pool>, r: seq<Pool>, epoch: nat)
    requires Restores(p, q, epoch) && Restores(q, r, epoch)
    ensures Restores(p, r, epoch)
  {
    forall m | 0 <= m < |p| && FreshTier(p[m], epoch) ensures FreshTier(r[m], epoch) && VramKept(p[m], r[m]) {
      assert FreshTier(q[m], epoch) && VramKept(p[m], q[m]) && VramKept(q[m], r[m]);
    }
  }

  lemma RefillRestores(p: seq<Pool>, q: seq<Pool>, l: nat, epoch: nat)
    requires Refills(p, q, l, epoch)
    ensures Restores(p, q, epoch)
  {
  }

  lemma SameVramRestores(p: seq<Pool>, q: seq<Pool>, epoch: nat)
    requires SameVram(p, q)
    ensures Restores(p, q, epoch)
  {
  }

  lemma SameMapsVram(p: seq<Pool>, q: seq<Pool>)
    requires SameMaps(p, q)
    ensures SameVram(p, q)
  {
  }

  /** Tiers taken back from a prefill come back with nothing to displace; those not taken back are as they were. */
  ghost predicate Returned(p: seq<Pool>, q: seq<Pool>, epoch: nat) {
    && |q| == |p|
    && (forall m | 0 <= m < |p| && q[m].lent :: q[m] == p[m])
    && (forall m | 0 <= m < |p| && p[m].lent && !q[m].lent :: FreshTier(q[m], epoch))
  }

  lemma ReturnedOneMore(p: seq<Pool>, q: seq<Pool>, r: seq<Pool>, l: nat, epoch: nat)
    requires Returned(p, q, epoch) && l < |q| == |r| && r == q[l := r[l]] && q[l].lent && !r[l].lent
        && FreshTier(r[l], epoch)
    ensures Returned(p, r, epoch)
  {
  }

  /** The expert's RAM slot, if it has one, is listed as in use. */
  ghost predicate Listed(p: Pool, x: nat, live: seq<nat>) {
    x < |p.expertSlot| && (p.expertSlot[x] >= 0 ==> p.expertSlot[x] in live)
  }

  ghost predicate AllListed(p: Pool, xs: seq<nat>, live: seq<nat>) {
    forall i | 0 <= i < |xs| && xs[i] < |p.expertSlot| :: Listed(p, xs[i], live)
  }

  /** A slot a promotion may safely read from: it cannot be chosen as the victim's, or its layout flag has nothing to
      lose, or there is no victim. */
  ghost predicate Sheltered(s: State, l: nat, slot: nat) {
    && l < |s.pools| && slot < |s.pools[l].ram|
    && (slot in s.live || InRelease(s.release, l, slot) || !s.pools[l].ram[slot].soa || FreshTier(s.pools[l], s.epoch))
  }

  ghost predicate SameMaps(p: seq<Pool>, q: seq<Pool>) {
    |q| == |p| && forall l | 0 <= l < |p| ::
      q[l].gpu == p[l].gpu && q[l].gExpertSlot == p[l].gExpertSlot && q[l].expertSlot == p[l].expertSlot
          && q[l].lent == p[l].lent
  }

  /** A valid RAM slot in the file's layout may be read by the host: no queued copy is on its way into it. */
  lemma HostReads(s: State, l: nat, k: nat)
    requires Inv(s) && NoLanding(s, l) && IsRam(s, l, k) && s.pools[l].ram[k].valid && s.pools[l].ram[k].expert >= 0
        && !s.pools[l].ram[k].soa
    ensures Holds(At(s.mem, Ram(l, k)), s.n, l, s.pools[l].ram[k].expert, File)
  {
    var h := Handle(false, k, false);
    var t := s.(live := [k]);
    assert LayerOk(Settled(s), s.n, s.nExpert, s.landing, s.swaps, l, s.pools[l]);
    SameBlocksKeeps(s, t);
    assert NoLanding(t, l);
    ServedArrived(t, [], l, s.pools[l].ram[k].expert, h);
  }

  // ---------------------------------------------------------------- a batch for a prompt

  /** Where a batched expert's block is: a tier's slot, or the caller's bounce buffer. */
  datatype Source = FromVram(slot: nat) | FromRam(slot: nat) | FromBounce(index: nat)

  ghost predicate Sourced(s: State, l: nat, id: nat, x: Source) {
    match x
    case FromVram(g) => IsGpu(s, l, g) && s.pools[l].gpu[g].expert == id
    case FromRam(k) => Held(s, l, id, k)
    case FromBounce(_) => true
  }

  ghost predicate BatchArrived(s: State, l: nat, id: nat, x: Source) {
    match x
    case FromVram(g) => Holds(At(Settled(s), Vram(l, g)), s.n, l, id, Device)
    case FromRam(k) => Holds(At(s.mem, Ram(l, k)), s.n, l, id, File)
    case FromBounce(_) => true
  }

  /** A batch takes free slots only: nobody is evicted, and what it was handed before stays. */
  ghost predicate OnlyAdds(p: Pool, q: Pool) {
    && |q.ram| == |p.ram| && q.gpu == p.gpu && q.gExpertSlot == p.gExpertSlot && |q.expertSlot| == |p.expertSlot|
        && q.lent == p.lent
    && (forall k | 0 <= k < |p.ram| && p.ram[k].expert >= 0 ::
          q.ram[k].expert == p.ram[k].expert && q.ram[k].valid == p.ram[k].valid && (q.ram[k].soa ==> p.ram[k].soa))
    && (forall x | 0 <= x < |p.expertSlot| && p.expertSlot[x] >= 0 :: q.expertSlot[x] >= 0)
  }

  lemma AddsSourced(s: State, t: State, l: nat, id: nat, x: Source)
    requires l < |s.pools| && |t.pools| == |s.pools| && OnlyAdds(s.pools[l], t.pools[l]) && Sourced(s, l, id, x)
        && s.claims <= t.claims
    ensures Sourced(t, l, id, x)
  {
    if x.FromRam? && !s.pools[l].ram[x.slot].valid {
      forall i | 0 <= i < |s.claims|
          ensures t.claims[i] == s.claims[i].(flying := t.claims[i].flying) { assert t.claims[i] == s.claims[i]; }
      ReadingKept(s.claims, t.claims, Batch, l, id, x.slot);
    }
  }

  lemma AdoptAdds(s: State, l: nat, v: nat, e: nat)
    requires MayClaim(s, l, v, e) && s.pools[l].ram[v].expert == EMPTY
    ensures var t := ClaimSlot(s, Batch, l, v, e);
      && OnlyAdds(s.pools[l], t.pools[l]) && s.claims <= t.claims && Held(t, l, e, v)
      && (forall y: nat | y != e && Unread(s, l, y) :: Unread(t, l, y))
  {
    var t := ClaimSlot(s, Batch, l, v, e);
    assert t.claims[|s.claims|].slot == v;
  }

  lemma ConvertAdds(s: State, l: nat, k: nat)
    requires MayConvert(s, l, k)
    ensures var t := Convert(s, l, k);
      && OnlyAdds(s.pools[l], t.pools[l]) && s.claims <= t.claims && Held(t, l, s.pools[l].ram[k].expert, k)
      && (forall y: nat | Unread(s, l, y) :: Unread(t, l, y))
  {
  }

  // ---------------------------------------------------------------- a batch that is given up

  ghost predicate BatchInto(claims: seq<Claim>, l: nat, k: nat) {
    exists i :: 0 <= i < |claims| && claims[i].kind == Batch && claims[i].layer == l && claims[i].slot == k
  }

  /** Pool q is p with the batch's slots marked valid. */
  ghost predicate MarkedPool(claims: seq<Claim>, l: nat, p: Pool, q: Pool) {
    && |q.ram| == |p.ram| && q == p.(ram := q.ram)
    && (forall k | 0 <= k < |p.ram| :: q.ram[k] == p.ram[k].(valid := p.ram[k].valid || BatchInto(claims, l, k)))
  }

  /** Every batched block is marked valid, landed or not, and nothing is on its way to it any more. */
  ghost predicate EarlyMarked(s: State, t: State) {
    && t == s.(pools := t.pools, claims := t.claims) && |t.pools| == |s.pools|
    && (forall l | 0 <= l < |s.pools| :: MarkedPool(s.claims, l, s.pools[l], t.pools[l]))
    && (forall c :: c in t.claims <==> c in s.claims && c.kind != Batch)
  }

  /** The tiers tell the truth after that exactly when every batched block had been read. */
  lemma EarlyMarkedIff(s: State, t: State)
    requires Inv(s) && EarlyMarked(s, t)
    ensures TiersOk(t, Settled(t))
        <==> forall i | 0 <= i < |s.claims| && s.claims[i].kind == Batch :: BlockIn(s, s.claims[i])
  {
    if TiersOk(t, Settled(t)) {
      forall i | 0 <= i < |s.claims| && s.claims[i].kind == Batch ensures BlockIn(s, s.claims[i]) {
        MarkedRead(s, t, i);
      }
    }
    if forall i | 0 <= i < |s.claims| && s.claims[i].kind == Batch :: BlockIn(s, s.claims[i]) {
      forall l | 0 <= l < |t.pools|
          ensures LayerOk(Settled(t), t.n, t.nExpert, t.landing, t.swaps, l, t.pools[l]) { ReadMarked(s, t, l); }
    }
  }

  lemma MarkedRead(s: State, t: State, i: nat)
    requires Inv(s) && EarlyMarked(s, t) && i < |s.claims| && s.claims[i].kind == Batch
    requires TiersOk(t, Settled(t))
    ensures BlockIn(s, s.claims[i])
  {
    var c := s.claims[i];
    assert ClaimOk(s.pools, s.nExpert, Settled(s), s.n, c);
    forall j | 0 <= j < |s.landing| ensures !(s.landing[j].layer == c.layer && s.landing[j].to == c.slot) {
      assert LandOk(s.pools, s.nExpert, s.ringBusy, Settled(s), s.n, s.side, s.landing[j]);
    }
    assert MarkedPool(s.claims, c.layer, s.pools[c.layer], t.pools[c.layer]);
    assert BatchInto(s.claims, c.layer, c.slot);
    assert LayerOk(Settled(t), t.n, t.nExpert, t.landing, t.swaps, c.layer, t.pools[c.layer]);
    assert RamOk(Settled(t), t.n, t.landing, c.layer, c.slot, t.pools[c.layer].ram[c.slot]);
  }

  lemma ReadMarked(s: State, t: State, l: nat)
    requires Inv(s) && EarlyMarked(s, t) && l < |s.pools|
    requires forall i | 0 <= i < |s.claims| && s.claims[i].kind == Batch :: BlockIn(s, s.claims[i])
    ensures LayerOk(Settled(t), t.n, t.nExpert, t.landing, t.swaps, l, t.pools[l])
  {
    var p, q, d := s.pools[l], t.pools[l], Settled(s);
    assert MarkedPool(s.claims, l, p, q);
    assert LayerOk(d, s.n, s.nExpert, s.landing, s.swaps, l, p);
    forall k | 0 <= k < |p.ram|
        ensures RamOk(d, t.n, t.landing, l, k, q.ram[k]) && (q.ram[k].expert == EMPTY ==> !q.ram[k].valid) {
      assert RamOk(d, s.n, s.landing, l, k, p.ram[k]);
      if BatchInto(s.claims, l, k) {
        var i :| 0 <= i < |s.claims| && s.claims[i].kind == Batch && s.claims[i].layer == l && s.claims[i].slot == k;
        assert ClaimOk(s.pools, s.nExpert, d, s.n, s.claims[i]) && BlockIn(s, s.claims[i]);
      }
    }
  }

  /** The input: one empty RAM slot and a batch whose second expert does not exist. The first adopts the slot; the call
      ends before it reads anything, and the slot says it holds an expert nobody has read. */
  lemma GivenUpBatch()
    ensures MayClaim(OneSlot(), 0, 0, 0)
    ensures var s := ClaimSlot(OneSlot(), Batch, 0, 0, 0); !BlockIn(s, s.claims[0]) && forall t | EarlyMarked(s, t) ::
        !TiersOk(t, Settled(t))
  {
    OneSlotInv();
    ClaimKeeps(OneSlot(), Batch, 0, 0, 0);
    var s := ClaimSlot(OneSlot(), Batch, 0, 0, 0);
    assert At(Settled(s), Ram(0, 0)) == map[];
    assert !BlockIn(s, s.claims[0]) by { assert 0 !in At(Settled(s), Ram(0, 0)); }
    forall t | EarlyMarked(s, t) ensures !TiersOk(t, Settled(t)) { EarlyMarkedIff(s, t); }
  }

  /** How many handles of a fetch are promotions of its own. */
  function LateCount(hs: seq<Handle>): nat {
    if hs == [] then 0 else LateCount(hs[..|hs| - 1]) + if hs[|hs| - 1].onGpu && hs[|hs| - 1].late then 1 else 0
  }

  lemma LateMore(hs: seq<Handle>, h: Handle)
    ensures LateCount(hs + [h]) == LateCount(hs) + if h.onGpu && h.late then 1 else 0
  {
    assert (hs + [h])[..|hs|] == hs;
  }
}
