/** The expert cache as the engine drives it: its fields, its loops, and what each call guarantees.  The machine (`mem`,
    `compute`, `side`) is ghost: queued copies run between and during calls, see TierRuns. */
module ExpertCache {
  import opened Hardware
  import opened TierState
  import opened TierSteps
  import opened TierProofs
  import opened TierReads
  import opened TierFetch
  import opened TierRoom
  import opened TierAhead
  import opened Victims
  import GivenUp

  const VRAM_SAMPLES: nat := 16

  class Cache {
    const n: nat
    const nExpert: nat
    const d2d: bool
    const evictSamples: nat
    var maxPromotions: nat

    var pools: seq<Pool>
    var live: seq<nat>
    var pendingRelease: seq<Release>
    var pendingSwaps: seq<Swap>
    var landing: seq<Swap>
    var ringBusy: seq<bool>
    var tick: nat
    var fetchEpoch: nat
    var claims: seq<Claim>
    var fetchLayer: nat
    var pending: seq<Awaited>

    /** What failed fetches left claimed and unread. */
    ghost var abandoned: set<Lost>

    var mem: Mem
    var compute: seq<Copy>
    var side: seq<Copy>

    ghost function State(): State
      reads this
    {
      TierState.State(n, nExpert, d2d, pools, live, pendingRelease, pendingSwaps, landing, ringBusy, tick, fetchEpoch,
                      claims, abandoned, mem, compute, side)
    }

    ghost predicate Sound()
      reads this
    {
      Inv(State()) && Shape(State()) && Accounted(State())
    }

    /** Between calls no settle is half done either. */
    ghost predicate Valid()
      reads this
    {
      Sound() && Open(State())
    }

    // ------------------------------------------------------------ victims

    predicate SlotInFlight(l: nat, k: nat)
      requires l < |pools| && k < |pools[l].ram|
      reads this
    {
      || (pools[l].ram[k].expert != EMPTY && !pools[l].ram[k].valid)
      || k in live
      || exists i | 0 <= i < |pendingRelease| :: pendingRelease[i].layer == l && pendingRelease[i].slot == k
    }

    /** No slot of the layer may be refilled. */
    ghost predicate NoVictim(l: nat)
      reads this
    {
      forall k :: !Evictable(State(), l, k)
    }

    /** A slot that may be refilled: sampled, else the first one found; its layout flag is cleared. */
    method ChooseVictim(l: nat) returns (v: int)
      requires l < |pools| && Shape(State())
      modifies this`pools
      ensures v == EMPTY ==> pools == old(pools) && forall k :: !Evictable(old(State()), l, k)
      ensures v != EMPTY ==> Evictable(old(State()), l, v)
      ensures v != EMPTY ==> var p := old(pools[l]);
          pools == old(pools)[l := p.(ram := p.ram[v := p.ram[v].(soa := false)])]
    {
      var p := pools[l];
      v := EMPTY;
      for k := 0 to if |p.ram| == 0 then 0 else evictSamples
        invariant pools == old(pools)
        invariant v == EMPTY || Evictable(State(), l, v)
      {
        var s :| 0 <= s < |p.ram|;
        if p.ram[s].pinned || SlotInFlight(l, s) { continue; }
        if p.ram[s].expert == EMPTY {
          pools := pools[l := p.(ram := p.ram[s := p.ram[s].(soa := false)])];
          return s;
        }
        var colder: bool := *;   // by the policy's score
        if v == EMPTY || colder { v := s; }
      }
      if v == EMPTY {
        for s := 0 to |p.ram|
          invariant pools == old(pools) && v == EMPTY
          invariant forall k | 0 <= k < s :: !Evictable(State(), l, k)
        {
          if !p.ram[s].pinned && !SlotInFlight(l, s) { v := s; break; }
        }
      }
      if v >= 0 { pools := pools[l := p.(ram := p.ram[v := p.ram[v].(soa := false)])]; }
    }

    /** Empty tiers: per layer `slots` RAM and `gslots` VRAM slots. */
    constructor (pieces: nat, experts: nat, staged: bool, samples: nat, slots: seq<nat>, gslots: seq<nat>, rings: nat)
      requires |gslots| == |slots|
      ensures Valid() && AllSettled(State()) && claims == [] && abandoned == {} && |pools| == |slots| && n == pieces
          && nExpert == experts
    {
      n, nExpert, d2d, evictSamples, maxPromotions := pieces, experts, staged, samples, 0;
      pools := seq(|slots|, l requires 0 <= l < |slots| => EmptyPool(slots[l], gslots[l], experts));
      live, pendingRelease, pendingSwaps, landing, claims, pending := [], [], [], [], [], [];
      ringBusy := seq(rings, i => false);
      tick, fetchEpoch, fetchLayer := 0, 0, 0;
      mem, compute, side, abandoned := map[], [], [], {};
      new;
      forall l | 0 <= l < |pools| ensures LayerOk(Settled(State()), n, nExpert, landing, pendingSwaps, l, pools[l]) {
        EmptyOk(Settled(State()), pieces, slots[l], gslots[l], experts, l);
      }
    }

    static lemma EmptyOk(d: Mem, pieces: nat, slots: nat, gslots: nat, experts: nat, l: nat)
      ensures LayerOk(d, pieces, experts, [], [], l, EmptyPool(slots, gslots, experts))
    {
    }

    static function EmptyPool(slots: nat, gslots: nat, experts: nat): Pool {
      Pool(seq(slots, k => RamSlot(EMPTY, false, false, false)), seq(experts, e => EMPTY), [],
           seq(gslots, g => GpuSlot(EMPTY, false, 0)), seq(experts, e => EMPTY), false, 0)
    }

    /** A free staging entry, or EMPTY when all are busy. */
    method RingTake() returns (r: int)
      modifies this`ringBusy
      ensures r == EMPTY ==> ringBusy == old(ringBusy) && forall i | 0 <= i < |ringBusy| :: ringBusy[i]
      ensures r != EMPTY ==> 0 <= r < |old(ringBusy)| && !old(ringBusy)[r] && ringBusy == old(ringBusy)[r := true]
    {
      for i := 0 to |ringBusy|
        invariant ringBusy == old(ringBusy)
        invariant forall j | 0 <= j < i :: ringBusy[j]
      {
        if !ringBusy[i] { ringBusy := ringBusy[i := true]; return i; }
      }
      return EMPTY;
    }

    // ------------------------------------------------------------ the devices

    /** What the queues and the disks may do on their own: run some of what is queued, land some pieces. */
    static ghost predicate Ran(s: State, t: State) {
      && t == s.(mem := t.mem, compute := t.compute, side := t.side, claims := t.claims)
      && |t.claims| == |s.claims|
      && (forall i | 0 <= i < |s.claims| :: t.claims[i] == s.claims[i].(flying := t.claims[i].flying))
      && (forall i | 0 <= i < |s.claims| :: t.claims[i].flying <= s.claims[i].flying)
    }

    lemma Same(s: State)
      requires Inv(s) && Shape(s) && Accounted(s) && Ran(s, State()) && Inv(State())
      ensures Sound() && (Open(s) ==> Open(State()))
    {
      FinishShape(State(), Settled(State()));
      SameAccounted(s, State());
    }

    /** The compute queue runs its oldest copy. */
    method RunCompute()
      requires Sound() && compute != []
      modifies this`mem, this`compute
      ensures Sound() && (old(Valid()) ==> Valid()) && State() == ComputeStep(old(State()))
          && Ran(old(State()), State())
    {
      ghost var s := State();
      ComputeStepKeeps(s);
      mem, compute := Do(compute[0], mem), compute[1..];
      Same(s);
    }

    /** The side queue runs any one of its copies. */
    method RunSide(k: nat)
      requires Sound() && k < |side|
      modifies this`mem, this`side
      ensures Sound() && (old(Valid()) ==> Valid()) && State() == SideStep(old(State()), k)
          && Ran(old(State()), State())
    {
      ghost var s := State();
      SideStepKeeps(s, k);
      mem, side := Do(side[k], mem), side[..k] + side[k + 1..];
      Same(s);
    }

    /** One piece of one claimed block lands. */
    method LandPiece(i: nat, q: nat)
      requires Sound() && i < |claims| && q in claims[i].flying
      modifies this`mem, this`claims
      ensures Sound() && (old(Valid()) ==> Valid()) && State() == PieceStep(old(State()), i, q)
          && Ran(old(State()), State())
    {
      ghost var s := State();
      PieceStepKeeps(s, i, q);
      var c := claims[i];
      var a := Ram(c.layer, c.slot);
      mem := mem[a := At(mem, a)[q := Part(c.layer, c.expert, q, File)]];
      claims := claims[i := c.(flying := c.flying - {q})];
      Same(s);
    }

    /** One device step, or none. */
    method DeviceStep()
      requires Sound()
      modifies this`mem, this`compute, this`side, this`claims
      ensures Sound() && (old(Valid()) ==> Valid()) && Ran(old(State()), State())
    {
      var which: nat :| which >= 0;
      if which == 0 && compute != [] {
        RunCompute();
      } else if which == 1 && side != [] {
        var c :| 0 <= c < |side|;
        RunSide(c);
      } else if exists i | 0 <= i < |claims| :: claims[i].flying != {} {
        var i :| 0 <= i < |claims| && claims[i].flying != {};
        var q :| q in claims[i].flying;
        LandPiece(i, q);
      }
    }

    /** Any number of device steps, in any order. */
    method Devices()
      requires Sound()
      modifies this`mem, this`compute, this`side, this`claims
      ensures Sound() && (old(Valid()) ==> Valid()) && Ran(old(State()), State())
    {
      var steps: nat :| steps >= 0;
      for k := 0 to steps
        invariant Sound() && (old(Valid()) ==> Valid()) && Ran(old(State()), State())
      {
        DeviceStep();
      }
    }

    /** Waits for every read of one claim. */
    method Await(i: nat)
      requires Sound() && i < |claims|
      modifies this`mem, this`claims
      ensures Sound() && (old(Valid()) ==> Valid()) && Ran(old(State()), State()) && claims[i].flying == {}
    {
      while claims[i].flying != {}
        invariant Sound() && (old(Valid()) ==> Valid()) && Ran(old(State()), State())
        decreases claims[i].flying
      {
        var q :| q in claims[i].flying;
        LandPiece(i, q);
      }
    }

    /** The reads of a claim have all landed: its block is valid. */
    method Reaped(i: nat)
      requires Valid() && i < |claims| && claims[i].flying == {}
      modifies this`pools, this`claims
      ensures Valid() && claims == old(claims)[..i] + old(claims)[i + 1..]
      ensures old(claims)[i].layer < |pools| && old(claims)[i].slot < |old(pools)[old(claims)[i].layer].ram|
      ensures State() == Complete(old(State()), i) && OnlyRaised(old(pools), pools)
    {
      CompleteKeeps(State(), i);
      assert ClaimOk(pools, nExpert, Settled(State()), n, claims[i]);
      CompleteAccounted(State(), i);
      CompleteRaises(State(), i);
      var c := claims[i];
      var p := pools[c.layer];
      pools := pools[c.layer := p.(ram := p.ram[c.slot := p.ram[c.slot].(valid := true)])];
      claims := claims[..i] + claims[i + 1..];
    }

    // ------------------------------------------------------------ promotion

    /** The slot a promotion's victim goes to: a free one, else an evicted resident's, never the promoted block's own.
        */
    method VictimSlot(l: nat, slot: nat) returns (to: int, ghost chosen: int)
      requires l < |pools| && Shape(State())
      modifies this`pools
      ensures chosen == EMPTY || Evictable(old(State()), l, chosen)
      ensures to < 0 && chosen != slot ==> old(NoVictim(l))
      ensures |pools| == |old(pools)| && pools == old(pools)[l := pools[l]]
      ensures (to, pools[l]) == Destination(old(pools[l]), slot, chosen)
    {
      to, chosen := EMPTY, EMPTY;
      while pools[l].free != [] && to < 0
        invariant |pools| == |old(pools)| && pools == old(pools)[l := old(pools[l]).(free := pools[l].free)]
        invariant forall i | 0 <= i < |pools[l].free| :: pools[l].free[i] < |pools[l].ram|
        invariant to < 0
            ==> to == EMPTY && PopFree(pools[l].ram, pools[l].free) == PopFree(old(pools[l].ram), old(pools[l].free))
        invariant to >= 0 ==> (to, pools[l].free) == PopFree(old(pools[l].ram), old(pools[l].free))
        decreases |pools[l].free|
      {
        var p := pools[l];
        var f := p.free[|p.free| - 1];
        pools := pools[l := p.(free := p.free[..|p.free| - 1])];
        if p.ram[f].expert == EMPTY && !p.ram[f].pinned { to := f; }
      }
      if to < 0 {
        assert forall k :: Evictable(State(), l, k) == old(Evictable(State(), l, k));
        var v := ChooseVictim(l);
        to, chosen := v, v;
        if to == slot { to := EMPTY; }
        if to >= 0 && pools[l].ram[to].expert != EMPTY {
          pools := pools[l := pools[l].(expertSlot := pools[l].expertSlot[pools[l].ram[to].expert := EMPTY])];
        }
      }
    }

    /** The VRAM tier has slots and nobody in them. */
    static ghost predicate Vacant(p: Pool) {
      p.gpu != [] && forall g | 0 <= g < |p.gpu| :: p.gpu[g].expert == EMPTY
    }

    static ghost predicate Occupied(p: Pool) {
      exists g :: 0 <= g < |p.gpu| && p.gpu[g].expert >= 0
    }

    /** The first block a vacant tier is offered comes into it. */
    static ghost predicate FirstIn(p: Pool, q: Pool, h: Handle, ready: bool, mayPromote: bool) {
      Vacant(p) && !p.lent ==>
        (h.onGpu && h.late) || (Vacant(q) && !q.lent && (mayPromote ==> !ready))
    }

    /** The VRAM slot a promotion takes: of the sampled ones an empty one, else one no handle of this fetch uses. */
    method SampleVram(l: nat) returns (victim: int)
      requires l < |pools|
      ensures victim == EMPTY || (0 <= victim < |pools[l].gpu|
        && (pools[l].gpu[victim].expert >= 0 ==> pools[l].gpu[victim].used < fetchEpoch))
      ensures Vacant(pools[l]) ==> victim != EMPTY
    {
      var p := pools[l];
      victim := EMPTY;
      for k := 0 to if |p.gpu| == 0 then 0 else VRAM_SAMPLES
        invariant victim == EMPTY
            || (0 <= victim < |p.gpu| && (p.gpu[victim].expert >= 0 ==> p.gpu[victim].used < fetchEpoch))
        invariant Vacant(p) ==> k == 0
      {
        var s :| 0 <= s < |p.gpu|;
        if p.gpu[s].expert == EMPTY { return s; }
        if p.gpu[s].used >= fetchEpoch { continue; }
        var colder: bool := *;   // by age, else by frequency
        if victim == EMPTY || colder { victim := s; }
      }
      var worth: bool := *;      // a resident is displaced by a more frequent newcomer only
      if victim != EMPTY && p.gpu[victim].expert != EMPTY && !worth { victim := EMPTY; }
    }

    /** The promoted expert's block is in its RAM slot, and nothing reads that slot back. */
    ghost predicate Promotable(l: nat, e: nat, slot: nat)
      reads this
    {
      && NoLanding(State(), l) && IsRam(State(), l, slot) && IsExpert(State(), l, e)
      && e < |pools[l].expertSlot| && pools[l].expertSlot[e] == slot
      && pools[l].ram[slot].valid && pools[l].ram[slot].expert == e
    }

    /** The victim leaves the VRAM map; its bytes are queued to the staging ring, or straight to its RAM slot. */
    method Displace(l: nat, slot: nat, victim: nat) returns (to: int, ring: int, ghost c: Choice)
      requires Shape(State()) && l < |pools| && slot < |pools[l].ram| && victim < |pools[l].gpu|
      modifies this`pools, this`ringBusy, this`compute
      ensures c.victim == victim && c.ring == ring && (c.dest == EMPTY || Evictable(old(State()), l, c.dest))
      ensures old(pools[l]).gpu[victim].expert >= 0 && to < 0 && c.dest != slot ==> old(NoVictim(l))
      ensures ring != EMPTY ==> d2d && to >= 0 && 0 <= ring < |old(ringBusy)| && !old(ringBusy)[ring]
      ensures |pools| == |old(pools)| && pools == old(pools)[l := pools[l]]
      ensures (to, pools[l]) == Departing(old(pools[l]), slot, c)
      ensures ringBusy == if ring >= 0 then old(ringBusy)[ring := true] else old(ringBusy)
      ensures compute == old(compute) + WayOut(l, victim, to, ring)
    {
      var v := pools[l].gpu[victim].expert;
      to, ring := EMPTY, EMPTY;
      ghost var chosen := EMPTY;
      if v != EMPTY {
        pools := pools[l := pools[l].(gExpertSlot := pools[l].gExpertSlot[v := EMPTY])];
        assert forall k :: Evictable(State(), l, k) == old(Evictable(State(), l, k));
        to, chosen := VictimSlot(l, slot);
        if to >= 0 {
          pools := pools[l := pools[l].(ram := pools[l].ram[to := RamSlot(v, false, false, pools[l].ram[to].pinned)])];
          if d2d { ring := RingTake(); }
          compute := compute + [Copy(Vram(l, victim), if ring >= 0 then Ring(ring) else Ram(l, to), false)];
        }
      }
      c := Choice(victim, chosen, ring);
    }

    /** The upload is queued over the victim, and the promotion noted for its settle. */
    method QueueUpload(l: nat, e: nat, slot: nat, victim: nat, v: int, to: int, ring: int)
      requires l < |pools| && victim < |pools[l].gpu| && slot < |pools[l].ram| && e < |pools[l].gExpertSlot|
      modifies this`pools, this`pendingSwaps, this`pendingRelease, this`compute
      ensures State() == Enter(old(State()), l, e, slot, victim, v, to, ring)
    {
      pendingSwaps := pendingSwaps + [Swap(l, e, slot, v, to, ring)];
      var p := pools[l];
      compute := compute + [Copy(Ram(l, slot), Vram(l, victim), !p.ram[slot].soa)];
      pools := pools[l := p.(gpu := p.gpu[victim := GpuSlot(e, true, tick)],
                             gExpertSlot := p.gExpertSlot[e := victim], ver := p.ver + 1)];
      pendingRelease := pendingRelease + [Release(l, e, slot)];
    }

    /** Starts a RAM block's way into VRAM. Nothing is waited for: the victim's way out and the upload are queued. */
    method StartPromotion(l: nat, e: nat, slot: nat) returns (ok: bool, ghost c: Choice)
      requires Shape(State()) && Promotable(l, e, slot)
      modifies this`pools, this`ringBusy, this`pendingSwaps, this`pendingRelease, this`compute
      ensures !ok ==> State() == old(State()) && (pools[l].lent || !Vacant(pools[l]))
      ensures ok ==> MayPromote(old(State()), l, e, slot, c) && State() == Promote(old(State()), l, e, slot, c)
      ensures ok ==> |pendingSwaps| == |old(pendingSwaps)| + 1
      ensures ok ==> var w := pendingSwaps[|old(pendingSwaps)|];
        w.victim >= 0 && w.to < 0 && c.dest != slot ==> old(NoVictim(l))
    {
      c := Choice(0, EMPTY, EMPTY);
      if pools[l].lent { return false, c; }
      var victim := SampleVram(l);
      if victim == EMPTY { return false, c; }
      var v := pools[l].gpu[victim].expert;
      var to, ring;
      to, ring, c := Displace(l, slot, victim);
      QueueUpload(l, e, slot, victim, v, to, ring);
      ok := true;
    }

    /** A promotion whose source slot cannot come back as its own victim's destination. The victim is housed: it has no
        slot only if no listed one is empty and none may be refilled, or the promoted block's own was sampled. */
    method TryPromote(l: nat, e: nat, slot: nat) returns (ok: bool)
      requires Valid() && Promotable(l, e, slot)
      requires Sheltered(State(), l, slot)
      modifies this`pools, this`ringBusy, this`pendingSwaps, this`pendingRelease, this`compute
      ensures Valid()
      ensures !ok ==> State() == old(State()) && (pools[l].lent || !Vacant(pools[l]))
      ensures ok ==> exists c ::
          MayPromote(old(State()), l, e, slot, c) && State() == Promote(old(State()), l, e, slot, c)
                      && IsPromotion(old(State()), State(), l, e, slot, c, Displaced(old(pools[l]), slot, c).0)
      ensures ok ==> e < |pools[l].gExpertSlot| && pools[l].gExpertSlot[e] >= 0
                     && Housed(old(State()), State(), l, e, slot, pools[l].gExpertSlot[e])
      ensures ok ==> var w := pendingSwaps[|old(pendingSwaps)|];
        w.victim >= 0 && w.to < 0 ==> old(NoVictim(l)) || old(Evictable(State(), l, slot))
    {
      ghost var s, c := State(), Choice(0, EMPTY, EMPTY);
      ok, c := StartPromotion(l, e, slot);
      if ok { Promoted(s, l, e, slot, c); }
    }

    lemma Promoted(s: State, l: nat, e: nat, slot: nat, c: Choice)
      requires Inv(s) && Open(s) && Shape(s) && Accounted(s) && MayPromote(s, l, e, slot, c)
      requires Sheltered(s, l, slot)
      requires State() == Promote(s, l, e, slot, c)
      ensures Valid() && IsPromotion(s, State(), l, e, slot, c, Displaced(s.pools[l], slot, c).0)
      ensures Housed(s, State(), l, e, slot, c.victim) && pools[l].gExpertSlot[e] == c.victim
    {
      PromoteKeeps(s, l, e, slot, c);
      assert LayerOk(Settled(s), s.n, s.nExpert, s.landing, s.swaps, l, s.pools[l]);
      PromotionHouses(s, l, e, slot, c);
      var to := PromoteFacts(s, l, e, slot, c);
      FinishShape(State(), Settled(State()));
      PromoteAccounted(s, State(), l, e, slot, c, to);
    }

    /** How many blocks a fetch may promote. */
    method SetMaxPromotions(k: nat)
      modifies this`maxPromotions
      ensures maxPromotions == k && State() == old(State()) && (old(Valid()) ==> Valid())
    {
      maxPromotions := k;
    }

    // ------------------------------------------------------------ fetch

    lemma Bookkept(s: State)
      requires Inv(s) && Open(s) && Shape(s) && Accounted(s) && SameBlocks(s, State())
      ensures Valid()
    {
      SameBlocksKeeps(s, State());
      FinishShape(State(), Settled(State()));
      forall l | 0 <= l < |s.pools|
          ensures pools[l].expertSlot == s.pools[l].expertSlot && |pools[l].ram| == |s.pools[l].ram| {
        assert IsLayer(s, l);
      }
      forall l, k | 0 <= l < |s.pools| && 0 <= k < |s.pools[l].ram|
          ensures pools[l].ram[k].valid == s.pools[l].ram[k].valid {
        assert IsLayer(s, l);
      }
      SameAccounted(s, State());
    }

    /** The expert is in VRAM: its matmul runs there. */
    method ServeVram(l: nat, e: nat, g: nat) returns (h: Handle)
      requires Valid() && IsGpu(State(), l, g) && e < nExpert && pools[l].gpu[g].expert == e && tick >= fetchEpoch
      modifies this`pools
      ensures Valid() && Spares(old(State()), State(), l, e)
      ensures State() == old(State()).(pools := pools) && Kept(old(State()), State(), l)
      ensures h == Handle(true, g, false) && Serves(State(), pending, l, e, h)
    {
      ghost var s := State();
      pools := pools[l := pools[l].(gpu := pools[l].gpu[g := pools[l].gpu[g].(used := tick)])];
      Bookkept(s);
      UsedSpares(s, State(), l, e, g);
      h := Handle(true, g, false);
    }

    /** The slot belongs to the fetch under way: nothing may be admitted into it. */
    method Protect(k: nat)
      requires Valid()
      modifies this`live, this`tick
      ensures Valid() && live == old(live) + [k] && tick == old(tick) + 1
      ensures State() == old(State()).(live := live, tick := tick)
    {
      ghost var s := State();
      tick := tick + 1;
      live := live + [k];
      Bookkept(s);
    }

    /** Its block is being read already: the fetch will wait for it. */
    method ServeInFlight(l: nat, e: nat, k: nat) returns (h: Handle)
      requires Valid() && IsRam(State(), l, k) && IsExpert(State(), l, e)
      requires e < |pools[l].expertSlot| && pools[l].expertSlot[e] == k && pools[l].ram[k].expert == e
          && !pools[l].ram[k].valid
      requires forall i | 0 <= i < |claims| && claims[i].layer == l && claims[i].expert == e ::
          claims[i].kind == Speculative
      modifies this`live, this`tick, this`pending
      ensures Valid() && Spares(old(State()), State(), l, e)
      ensures State() == old(State()).(live := live, tick := tick)
      ensures pending == old(pending) + [Awaited(e, k)]
      ensures h == Handle(false, k, false) && Serves(State(), pending, l, e, h)
          && Expected(State(), pending, l, Awaited(e, k))
      ensures Kept(old(State()), State(), l)
    {
      ListKeeps(State(), State().(live := live + [k], tick := tick + 1), l, k);
      Protect(k);
      pending := pending + [Awaited(e, k)];
      h := Handle(false, k, false);
      InFlight(l, e, k);
      assert pending[|old(pending)|] == Awaited(e, k);
    }

    /** A mapped slot that is not valid: a speculative read is on its way into it, or a failed fetch abandoned it. */
    lemma InFlight(l: nat, e: nat, k: nat)
      requires Sound() && IsExpert(State(), l, e) && e < |pools[l].expertSlot| && pools[l].expertSlot[e] == k
      requires k < |pools[l].ram| && !pools[l].ram[k].valid
      requires forall i | 0 <= i < |claims| && claims[i].layer == l && claims[i].expert == e ::
          claims[i].kind == Speculative
      ensures Reading(claims, Speculative, l, e, k) || Lost(l, e, k) in abandoned
      ensures !pools[l].ram[k].soa
    {
      assert PoolAccounted(claims, abandoned, l, pools[l], nExpert);
      if Lost(l, e, k) in abandoned {
        assert LostOk(State(), Lost(l, e, k));
      } else {
        assert Inbound(claims, l, e, k);
        var i :| 0 <= i < |claims| && claims[i].layer == l && claims[i].expert == e && claims[i].slot == k;
        assert ClaimOk(pools, nExpert, Settled(State()), n, claims[i]);
      }
    }

    /** Its block is in RAM: promoted if the tier takes it, else computed from RAM, in the file's layout. */
    method ServeRam(l: nat, e: nat, k: nat, mayPromote: bool) returns (h: Handle)
      requires Valid() && Promotable(l, e, k) && pools[l].gExpertSlot[e] < 0 && !InRelease(pendingRelease, l, k)
          && tick >= fetchEpoch && k in live
      modifies this`pools, this`live, this`tick, this`ringBusy, this`pendingSwaps, this`pendingRelease, this`compute,
               this`mem
      ensures Valid() && Spares(old(State()), State(), l, e) && Roomy(old(State()), State(), l)
      ensures Serves(State(), pending, l, e, h) && (h.onGpu ==> h.late && mayPromote)
          && (!h.onGpu ==> h.slot == k && pools[l].ram[k].valid)
      ensures FirstIn(old(pools[l]), pools[l], h, true, mayPromote)
    {
      ghost var s := State();
      Protect(k);
      ghost var s' := State();
      ListKeeps(s, s', l, k);
      var ok := false;
      if mayPromote { ok, h := ServePromoted(l, e, k); }
      if !ok { h := ServeConverted(l, e, k); }
      SparesBefore(s, s', State(), l, e);
      KeptFirst(s, s', State(), l);
    }

    /** Computed from RAM: the block is there, in the file's layout. */
    method ServeConverted(l: nat, e: nat, k: nat) returns (h: Handle)
      requires Valid() && Promotable(l, e, k) && !InRelease(pendingRelease, l, k) && k in live
      modifies this`pools, this`mem
      ensures Valid() && Spares(old(State()), State(), l, e) && tick == old(tick)
      ensures Roomy(old(State()), State(), l)
      ensures h == Handle(false, k, false) && Serves(State(), pending, l, e, h) && pools[l].ram[k].valid
      ensures pools[l].gpu == old(pools[l]).gpu && pools[l].lent == old(pools[l]).lent
    {
      ghost var s := State();
      ToFileLayout(l, k);
      ConvertSpares(s, l, k, e);
      ConvertRoom(s, l, k);
      KeptIsRoomy(s, State(), l);
      h := Handle(false, k, false);
    }

    /** Handed back as the VRAM copy on its way up. */
    method ServePromoted(l: nat, e: nat, k: nat) returns (ok: bool, h: Handle)
      requires Valid() && Promotable(l, e, k) && pools[l].gExpertSlot[e] < 0 && k in live && tick >= fetchEpoch
      modifies this`pools, this`ringBusy, this`pendingSwaps, this`pendingRelease, this`compute
      ensures Valid() && (!ok ==> State() == old(State()) && (pools[l].lent || !Vacant(pools[l])))
      ensures ok ==> h.onGpu && h.late && Spares(old(State()), State(), l, e) && Serves(State(), pending, l, e, h)
      ensures ok ==> Roomy(old(State()), State(), l)
    {
      ghost var s := State();
      h := Handle(false, k, false);
      ok := TryPromote(l, e, k);
      if ok {
        ServedLate(s, l, e, k);
        h := Handle(true, pools[l].gExpertSlot[e], true);
      }
    }

    lemma {:induction false} ServedLate(s: State, l: nat, e: nat, k: nat)
      requires TiersOk(s, Settled(s)) && s.tick >= s.epoch && IsExpert(s, l, e) && e < |s.pools[l].gExpertSlot|
          && s.pools[l].gExpertSlot[e] < 0 && k in s.live
      requires exists c :: MayPromote(s, l, e, k, c) && State() == Promote(s, l, e, k, c)
                      && IsPromotion(s, State(), l, e, k, c, Displaced(s.pools[l], k, c).0)
      ensures Spares(s, State(), l, e) && e < |pools[l].gExpertSlot| && pools[l].gExpertSlot[e] >= 0
      ensures Serves(State(), pending, l, e, Handle(true, pools[l].gExpertSlot[e], true)) && Roomy(s, State(), l)
    {
      var c :| MayPromote(s, l, e, k, c) && State() == Promote(s, l, e, k, c)
                      && IsPromotion(s, State(), l, e, k, c, Displaced(s.pools[l], k, c).0);
      assert LayerOk(Settled(s), s.n, s.nExpert, s.landing, s.swaps, l, s.pools[l]);
      PromotionSpares(s, State(), l, e, k, c, Displaced(s.pools[l], k, c).0);
      PromotionRoom(s, State(), l, e, k, c, Displaced(s.pools[l], k, c).0);
    }

    /** A block read back from VRAM, turned into the file's arrangement in place. */
    method ToFileLayout(l: nat, k: nat)
      requires Valid() && MayConvert(State(), l, k)
      modifies this`pools, this`mem
      ensures Valid() && State() == Convert(old(State()), l, k)
    {
      ghost var s := State();
      var p := pools[l];
      if p.ram[k].soa {
        mem := mem[Ram(l, k) := Converted(At(mem, Ram(l, k)))];
        pools := pools[l := p.(ram := p.ram[k := p.ram[k].(soa := false)])];
      }
      ConvertKeeps(s, l, k);
      ConvertAccounted(s, l, k);
    }

    /** A slot refilled: whoever it held is unmapped, and the expert's reads start. */
    method TakeSlot(kind: Kind, l: nat, e: nat) returns (v: int)
      requires Valid() && IsExpert(State(), l, e) && NoLanding(State(), l) && e < |pools[l].gExpertSlot|
          && pools[l].gExpertSlot[e] < 0
      modifies this`pools, this`claims
      ensures Valid()
      ensures v < 0 ==> State() == old(State()) && NoVictim(l)
      ensures v >= 0 ==> MayClaim(old(State()), l, v, e) && State() == ClaimSlot(old(State()), kind, l, v, e)
    {
      hide Inv, Accounted;
      ghost var s := State();
      v := ChooseVictim(l);
      if v == EMPTY { return; }
      var p := pools[l];
      if p.ram[v].expert != EMPTY { p := p.(expertSlot := p.expertSlot[p.ram[v].expert := EMPTY]); }
      p := p.(ram := p.ram[v := RamSlot(e, false, p.ram[v].soa, p.ram[v].pinned)], expertSlot := p.expertSlot[e := v]);
      assert p == Refilled(s.pools[l], v, e);
      pools := pools[l := p];
      claims := claims + [Claim(kind, l, e, v, Pieces(n))];
      Claimed(s, kind, l, v, e);
    }

    /** A miss: a slot is claimed and its reads start. */
    method ServeMiss(l: nat, e: nat) returns (ok: bool, h: Handle)
      requires Valid() && IsExpert(State(), l, e) && NoLanding(State(), l) && e < |pools[l].gExpertSlot|
          && pools[l].gExpertSlot[e] < 0
      modifies this`pools, this`live, this`tick, this`claims
      ensures !ok ==> State() == old(State()) && NoVictim(l)
      ensures Valid() && Spares(old(State()), State(), l, e)
      ensures ok ==> !h.onGpu && Serves(State(), pending, l, e, h) && !pools[l].ram[h.slot].valid
      ensures ok ==> claims == old(claims) + [Claim(Demand, l, e, h.slot, Pieces(n))] && Roomy(old(State()), State(), l)
      ensures pools[l].gpu == old(pools[l]).gpu && pools[l].lent == old(pools[l]).lent
    {
      ghost var s := State();
      h := Handle(false, 0, false);
      var v := TakeSlot(Demand, l, e);
      if v < 0 { SparesStill(s, State(), l, e); return false, h; }
      Protect(v);
      MissSpares(s, l, v, e);
      return true, Handle(false, v, false);
    }

    lemma MissSpares(s: State, l: nat, v: nat, e: nat)
      requires Inv(s) && Valid() && MayClaim(s, l, v, e)
      requires State() == ClaimSlot(s, Demand, l, v, e).(live := s.live + [v], tick := s.tick + 1)
      ensures Spares(s, State(), l, e) && Serves(State(), pending, l, e, Handle(false, v, false))
          && !pools[l].ram[v].valid
      ensures Roomy(s, State(), l)
    {
      ClaimRoom(s, State(), Demand, l, v, e);
      assert LayerOk(Settled(s), s.n, s.nExpert, s.landing, s.swaps, l, s.pools[l]);
      ClaimSpares(s, State(), l, v, e);
      assert claims[|s.claims|].slot == v;
    }

    lemma Claimed(s: State, kind: Kind, l: nat, v: nat, e: nat)
      requires Inv(s) && Open(s) && Shape(s) && Accounted(s) && MayClaim(s, l, v, e)
          && State() == ClaimSlot(s, kind, l, v, e)
      ensures Valid()
    {
      ClaimKeeps(s, kind, l, v, e);
      assert LayerOk(Settled(s), s.n, s.nExpert, s.landing, s.swaps, l, s.pools[l]);
      ClaimAccounted(s, kind, l, v, e);
    }

    // ------------------------------------------------------------ settling

    /** Waits for the side queue, whichever order it runs in. */
    method DrainSide()
      requires Sound()
      modifies this`mem, this`side
      ensures Sound() && (old(Valid()) ==> Valid()) && side == []
    {
      while side != []
        invariant Sound() && (old(Valid()) ==> Valid())
        decreases |side|
      {
        var k :| 0 <= k < |side|;
        RunSide(k);
      }
    }

    /** The staging entries of the read-backs that have landed are free again. */
    method FreeLanded()
      modifies this`ringBusy, this`landing
      ensures State() == Land(old(State()))
    {
      var i := 0;
      while i < |landing|
        invariant i <= |landing| && landing == old(landing) && ringBusy == FreeRings(old(ringBusy), landing[..i])
      {
        FreeRingsSnoc(old(ringBusy), landing[..i], landing[i]);
        assert landing[..i] + [landing[i]] == landing[..i + 1];
        if 0 <= landing[i].ring < |ringBusy| { ringBusy := ringBusy[landing[i].ring := false]; }
        i := i + 1;
      }
      assert landing[..i] == landing;
      landing := [];
    }

    /** Waits for the read-backs and frees their staging entries. */
    method LandSwaps()
      requires Sound()
      modifies this`mem, this`side, this`landing, this`ringBusy
      ensures Sound() && (old(Valid()) ==> Valid()) && landing == [] && side == []
    {
      DrainSide();
      ghost var t := State();
      FreeLanded();
      LandKeeps(t);
      Landed(t);
    }

    lemma Landed(t: State)
      requires Inv(t) && Shape(t) && Accounted(t) && State() == Land(t) && Inv(State()) && (Open(t) ==> Open(State()))
      ensures Sound() && (Open(t) ==> Valid())
    {
      FinishShape(State(), Settled(State()));
      SameAccounted(t, State());
    }

    /** Waits for the compute queue: the uploads and the staging copies are done, so no slot is protected for them. */
    method Synchronize()
      requires Sound()
      modifies this`mem, this`compute, this`pendingRelease
      ensures Sound() && State() == Sync(old(State()))
    {
      ghost var s := State();
      while compute != []
        invariant Sound() && State() == s.(mem := mem, compute := compute) && Settled(State()) == Settled(s)
        decreases |compute|
      {
        ComputeStepKeeps(State());
        RunCompute();
      }
      pendingRelease := [];
      SyncKeeps(s);
      SameAccounted(s, State());
    }

    /** A RAM slot given up: its map entry is dropped if it is this slot's, and the slot joins the free list. */
    method ReleaseSlot(l: nat, k: nat)
      requires l < |pools| && k < |pools[l].ram| && pools[l].ram[k].expert < |pools[l].expertSlot|
      modifies this`pools
      ensures pools == old(pools)[l := Released(old(pools[l]), k)]
    {
      var p := pools[l];
      var e := p.ram[k].expert;
      if e != EMPTY && 0 <= e && p.expertSlot[e] == k { p := p.(expertSlot := p.expertSlot[e := EMPTY]); }
      p := p.(ram := p.ram[k := RamSlot(EMPTY, false, false, false)]);
      if |p.free| < |p.ram| { p := p.(free := p.free + [k]); }
      pools := pools[l := p];
    }

    /** finish_swap's first half: the promoted expert's RAM slot is freed while the expert is VRAM-resident. */
    method FreePromoted(w: Swap)
      requires w.layer < |pools| && w.from < |pools[w.layer].ram| && PoolShape(pools[w.layer], nExpert)
          && w.promoted < nExpert
      modifies this`pools
      ensures pools == old(pools)[w.layer := Freed(old(pools[w.layer]), w)]
    {
      var p := pools[w.layer];
      if p.ram[w.from].expert == w.promoted && p.expertSlot[w.promoted] == w.from && InVram(p, w.promoted) {
        ReleaseSlot(w.layer, w.from);
      }
    }

    static ghost predicate Placeable(p: Pool, w: Swap) {
      && 0 <= w.to < |p.ram| && p.ram[w.to].expert < |p.expertSlot|
      && 0 <= w.victim < |p.expertSlot| && w.victim < |p.gExpertSlot| && p.gExpertSlot[w.victim] < |p.gpu|
    }

    /** finish_swap's second half, with the read-back of a staged victim that was mapped. */
    method PlaceVictim(w: Swap)
      requires w.layer < |pools| && w.to < |pools[w.layer].ram| && w.ring < |ringBusy|
      requires w.to >= 0 ==> Placeable(pools[w.layer], w)
      requires Judge(pools[w.layer], w) != CannotHappen
      modifies this`pools, this`ringBusy, this`landing, this`side
      ensures var staged := w.ring >= 0 && Judge(old(pools[w.layer]), w) == Mapped;
        && pools == old(pools)[w.layer := Finished(old(pools[w.layer]), w)]
        && ringBusy == (if w.ring >= 0 && !staged then old(ringBusy)[w.ring := false] else old(ringBusy))
        && landing == (if staged then old(landing) + [w] else old(landing))
        && side == (if staged then old(side) + [Copy(Ring(w.ring), Ram(w.layer, w.to), false)] else old(side))
    {
      var p := pools[w.layer];
      if w.to < 0 {
        if w.ring >= 0 { ringBusy := ringBusy[w.ring := false]; }
      } else if p.expertSlot[w.victim] >= 0 || InVram(p, w.victim) {
        if w.ring >= 0 { ringBusy := ringBusy[w.ring := false]; }
        ReleaseSlot(w.layer, w.to);
      } else {
        pools := pools[w.layer := p.(expertSlot := p.expertSlot[w.victim := w.to],
                                     ram := p.ram[w.to := RamSlot(w.victim, true, true, p.ram[w.to].pinned)])];
        if w.ring >= 0 {
          side := side + [Copy(Ring(w.ring), Ram(w.layer, w.to), false)];
          landing := landing + [w];
        }
      }
    }

    /** The metadata of the oldest pending swap; its read-back is queued if its victim is staged and was mapped. */
    method FinishSwap()
      requires Sound() && pendingSwaps != [] && compute == [] && pendingRelease == []
      modifies this`pools, this`pendingSwaps, this`ringBusy, this`landing, this`side
      ensures Sound() && HeadInRange(old(State())) && State() == FinishHead(old(State()))
      ensures Conserves(old(pools), pools) && SameVram(old(pools), pools)
      ensures var w := old(pendingSwaps)[0]; w.to != EMPTY ==> w.layer < |pools| && Resident(pools[w.layer], w.victim)
    {
      ghost var s := State();
      FinishReady(s);
      FinishVram(s);
      FinishOldest();
    }

    method FinishOldest()
      requires HeadInRange(State())
      requires pendingSwaps[0].to >= 0
          ==> Placeable(Freed(pools[pendingSwaps[0].layer], pendingSwaps[0]), pendingSwaps[0])
      requires Judge(Freed(pools[pendingSwaps[0].layer], pendingSwaps[0]), pendingSwaps[0]) != CannotHappen
      requires |Freed(pools[pendingSwaps[0].layer], pendingSwaps[0]).ram| == |pools[pendingSwaps[0].layer].ram|
      modifies this`pools, this`pendingSwaps, this`ringBusy, this`landing, this`side
      ensures State() == FinishHead(old(State()))
    {
      hide Finished, Freed, Judge, Released;
      ghost var p1 := Freed(pools[pendingSwaps[0].layer], pendingSwaps[0]);
      var w := pendingSwaps[0];
      FreePromoted(w);
      assert pools[w.layer] == p1;
      PlaceVictim(w);
      pendingSwaps := pendingSwaps[1..];
      assert pools == old(pools)[w.layer := Finished(p1, w)];
    }

    lemma FinishReady(s: State)
      requires Inv(s) && Shape(s) && Accounted(s) && s.swaps != [] && s.compute == [] && s.release == []
      ensures HeadInRange(s)
          && (s.swaps[0].to >= 0 ==> Placeable(Freed(s.pools[s.swaps[0].layer], s.swaps[0]), s.swaps[0]))
      ensures Judge(Freed(s.pools[s.swaps[0].layer], s.swaps[0]), s.swaps[0]) != CannotHappen
      ensures |Freed(s.pools[s.swaps[0].layer], s.swaps[0]).ram| == |s.pools[s.swaps[0].layer].ram|
      ensures var t := FinishHead(s); Inv(t) && Shape(t) && Accounted(t) && Conserves(s.pools, t.pools)
      ensures var w := s.swaps[0]; w.to != EMPTY ==> Resident(FinishHead(s).pools[w.layer], w.victim)
    {
      FinishFacts(s, Settled(s));
      JudgeFacts(s, Settled(s));
      assert SwapOk(s.pools, s.nExpert, s.ringBusy, Settled(s), s.n, s.swaps[0]);
      FreedLayer(s, Settled(s));
      FinishKeeps(s);
      FinishAccounted(s);
      FinishConserves(s);
    }

    /** Every pending swap, oldest first. */
    method FinishSwaps()
      requires Sound() && compute == [] && pendingRelease == []
      modifies this`pools, this`pendingSwaps, this`ringBusy, this`landing, this`side
      ensures Valid() && pendingSwaps == [] && Conserves(old(pools), pools) && SameVram(old(pools), pools)
      ensures forall i | 0 <= i < |old(pendingSwaps)| :: Placed(pools, old(pendingSwaps)[i])
    {
      ghost var todo, done := pendingSwaps, 0;
      while pendingSwaps != []
        invariant Sound() && Conserves(old(pools), pools) && SameVram(old(pools), pools)
        invariant done <= |todo| && pendingSwaps == todo[done..]
        invariant forall i | 0 <= i < done :: Placed(pools, todo[i])
        decreases |pendingSwaps|
      {
        ghost var before := pools;
        FinishSwap();
        PlacedKept(before, pools, todo, done);
        done := done + 1;
      }
    }

    /** Full settle: every copy has landed and every swap is finished. */
    method SettlePromotions()
      requires Valid()
      modifies this`pools, this`pendingSwaps, this`pendingRelease, this`ringBusy, this`landing, this`mem,
               this`compute, this`side
      ensures Valid() && AllSettled(State()) && Conserves(old(pools), pools) && SameVram(old(pools), pools)
      ensures old(AllSettled(State())) ==> State() == old(State())
      ensures forall l | 0 <= l < |pools| :: TiersDisjoint(pools[l])
      ensures forall i | 0 <= i < |old(pendingSwaps)| :: Placed(pools, old(pendingSwaps)[i])
    {
      if pendingRelease == [] && pendingSwaps == [] && landing == [] {
        NothingQueued(State());
      } else {
        Synchronize();
        FinishSwaps();
        LandSwaps();
      }
      SettledDisjoint(State());
    }

    /** A promotion and the settle after it: the block is in VRAM, and every resident stays resident while a listed slot
        is empty. Otherwise one may be lost: the owner of the slot refilled for the victim, or the victim itself, when
        no slot may be refilled or the promoted block's own was sampled. */
    method PromoteAndSettle(l: nat, e: nat, slot: nat) returns (ok: bool, ghost w: Swap)
      requires Valid() && Promotable(l, e, slot)
      requires Sheltered(State(), l, slot)
      modifies this`pools, this`ringBusy, this`pendingSwaps, this`pendingRelease, this`compute, this`landing, this`mem,
               this`side
      ensures Valid() && AllSettled(State()) && |pools| == |old(pools)|
      ensures forall m | 0 <= m < |pools| :: TiersDisjoint(pools[m])
      ensures !ok ==> Conserves(old(pools), pools)
      ensures ok ==> e < |pools[l].gExpertSlot| && pools[l].gExpertSlot[e] >= 0
      ensures ok ==> LosesOnly(old(State()), pools, l, w)
      ensures ok && w.victim >= 0 && w.to < 0 ==> old(NoVictim(l)) || old(Evictable(State(), l, slot))
    {
      hide Inv, Accounted, LosesOnly;
      ghost var s := State();
      ok := TryPromote(l, e, slot);
      w := Swap(l, e, slot, EMPTY, EMPTY, EMPTY);
      if ok {
        w := pendingSwaps[|s.swaps|];
        SettleAfter(s, l, e, slot, w);
      } else {
        SettlePromotions();
      }
    }

    /** The settle after a promotion that began in s and was noted as w. */
    method SettleAfter(ghost s: State, l: nat, e: nat, slot: nat, ghost w: Swap)
      requires Valid() && Noted(s, State(), l, e, slot, w)
      modifies this`pools, this`pendingSwaps, this`pendingRelease, this`ringBusy, this`landing, this`mem,
               this`compute, this`side
      ensures Valid() && AllSettled(State()) && |pools| == |old(pools)| && SameVram(old(pools), pools)
      ensures forall m | 0 <= m < |pools| :: TiersDisjoint(pools[m])
      ensures LosesOnly(s, pools, l, w)
    {
      hide Inv, Accounted;
      ghost var t := State();
      SettlePromotions();
      Costs(s, t, l, e, slot, w);
    }

    /** A promotion took s to t, and w is its note. */
    static ghost predicate Noted(s: State, t: State, l: nat, e: nat, slot: nat, w: Swap) {
      && Shape(s) && l < |s.pools| == |t.pools| && e < |t.pools[l].gExpertSlot| && t.pools[l].gExpertSlot[e] >= 0
      && (exists c :: MayPromote(s, l, e, slot, c) && t == Promote(s, l, e, slot, c)
                   && IsPromotion(s, t, l, e, slot, c, Displaced(s.pools[l], slot, c).0))
      && Housed(s, t, l, e, slot, t.pools[l].gExpertSlot[e]) && |t.swaps| == |s.swaps| + 1 && w == t.swaps[|s.swaps|]
    }

    lemma Costs(s: State, t: State, l: nat, e: nat, slot: nat, w: Swap)
      requires Noted(s, t, l, e, slot, w) && Conserves(t.pools, pools) && Placed(pools, w)
      ensures LosesOnly(s, pools, l, w)
    {
      var c :| MayPromote(s, l, e, slot, c) && t == Promote(s, l, e, slot, c)
               && IsPromotion(s, t, l, e, slot, c, Displaced(s.pools[l], slot, c).0);
      hide Displaced, Promote;
      SettledCosts(s, t, l, e, slot, c, w, pools);
    }

    /** The decode loop's settle: the read-backs queued one layer ago are waited for, this layer's are queued. */
    method SettlePromotionsLayer()
      requires Valid()
      modifies this`pools, this`pendingSwaps, this`pendingRelease, this`ringBusy, this`landing, this`mem,
               this`compute, this`side
      ensures Valid() && compute == [] && pendingRelease == [] && pendingSwaps == [] && Conserves(old(pools), pools)
          && SameVram(old(pools), pools)
      ensures forall l | 0 <= l < |pools| :: TiersDisjoint(pools[l])
      ensures forall i | 0 <= i < |old(pendingSwaps)| :: Placed(pools, old(pendingSwaps)[i])
    {
      if !d2d {
        SettlePromotions();
      } else if pendingRelease == [] && pendingSwaps == [] && landing == [] {
        NothingQueued(State());
      } else {
        SettleLanded();
      }
      SettledDisjoint(State());
    }

    method SettleLanded()
      requires Valid()
      modifies this`pools, this`pendingSwaps, this`pendingRelease, this`ringBusy, this`landing, this`mem,
               this`compute, this`side
      ensures Valid() && compute == [] && pendingRelease == [] && pendingSwaps == [] && Conserves(old(pools), pools)
          && SameVram(old(pools), pools)
      ensures forall i | 0 <= i < |old(pendingSwaps)| :: Placed(pools, old(pendingSwaps)[i])
    {
      Synchronize();
      if landing != [] { LandSwaps(); }
      FinishSwaps();
    }

    /** Before a layer's pool is used: its read-backs have landed. */
    method LandLayer(l: nat)
      requires Valid()
      modifies this`mem, this`side, this`landing, this`ringBusy
      ensures Valid() && NoLanding(State(), l) && (landing == old(landing) || landing == [])
      ensures old(landing) == [] ==> State() == old(State())
    {
      for i := 0 to |landing|
        invariant State() == old(State())
        invariant forall j | 0 <= j < i :: landing[j].layer != l
      {
        if landing[i].layer == l { LandSwaps(); return; }
      }
    }

    /** One expert of a fetch: in VRAM, on its way already, in RAM, or a miss. */
    method ServeOne(l: nat, e: nat, mayPromote: bool) returns (ok: bool, h: Handle, ready: bool)
      requires Valid() && IsExpert(State(), l, e) && NoLanding(State(), l) && Clear(State(), l, e) && tick >= fetchEpoch
      requires pools[l].expertSlot[e] >= 0 ==> pools[l].expertSlot[e] in live
      requires forall i | 0 <= i < |claims| && claims[i].layer == l && claims[i].expert == e ::
          claims[i].kind == Speculative
      modifies this`pools, this`live, this`tick, this`claims, this`pending, this`ringBusy, this`pendingSwaps,
               this`pendingRelease, this`compute, this`mem
      ensures Valid() && Spares(old(State()), State(), l, e) && old(pending) <= pending
      ensures pending == old(pending)
          || (pending == old(pending) + [Awaited(e, h.slot)] && Expected(State(), pending, l, Awaited(e, h.slot)))
      ensures !ok ==> State() == old(State()) && NoVictim(l) && pending == old(pending)
      ensures ok ==> Serves(State(), pending, l, e, h) && (ready ==> h.onGpu || pools[l].ram[h.slot].valid)
      ensures ok && old(pools[l]).gExpertSlot[e] >= 0 ==> h == Handle(true, old(pools[l]).gExpertSlot[e], false)
      ensures ok && old(pools[l]).gExpertSlot[e] < 0 && h.onGpu ==> h.late
      ensures ok && h.onGpu && h.late ==> mayPromote
      ensures ok ==> Roomy(old(State()), State(), l) && (pending != old(pending) ==> !ready)
      ensures ok ==> claims == if !ready && pending == old(pending)
                               then old(claims) + [Claim(Demand, l, e, h.slot, Pieces(n))] else old(claims)
      ensures ok ==> FirstIn(old(pools[l]), pools[l], h, ready, mayPromote)
      ensures old(pools[l]).gExpertSlot[e] >= 0 ==> ok && Kept(old(State()), State(), l)
      ensures ok && old(pools[l]).gExpertSlot[e] < 0 && old(pools[l]).expertSlot[e] >= 0 && !h.onGpu
          ==> h.slot == old(pools[l]).expertSlot[e]
    {
      LayerFacts(l, e);
      ok := true;
      var p := pools[l];
      var g := p.gExpertSlot[e];
      if g >= 0 && p.gpu[g].valid && p.gpu[g].expert == e {
        h := ServeVram(l, e, g);
        KeptIsRoomy(old(State()), State(), l);
        return true, h, true;
      }
      ok, h, ready := ServeElsewhere(l, e, mayPromote);
    }

    /** Not in VRAM: on its way already, in RAM, or a miss. */
    method ServeElsewhere(l: nat, e: nat, mayPromote: bool) returns (ok: bool, h: Handle, ready: bool)
      requires Valid() && IsExpert(State(), l, e) && NoLanding(State(), l) && Clear(State(), l, e) && tick >= fetchEpoch
      requires pools[l].gExpertSlot[e] < 0
      requires pools[l].expertSlot[e] >= 0 ==> pools[l].expertSlot[e] in live
      requires forall i | 0 <= i < |claims| && claims[i].layer == l && claims[i].expert == e ::
          claims[i].kind == Speculative
      modifies this`pools, this`live, this`tick, this`claims, this`pending, this`ringBusy, this`pendingSwaps,
               this`pendingRelease, this`compute, this`mem
      ensures Valid() && Spares(old(State()), State(), l, e) && old(pending) <= pending
      ensures pending == old(pending)
          || (pending == old(pending) + [Awaited(e, h.slot)] && Expected(State(), pending, l, Awaited(e, h.slot)))
      ensures !ok ==> State() == old(State()) && NoVictim(l) && pending == old(pending)
      ensures ok ==> Serves(State(), pending, l, e, h) && (ready ==> h.onGpu || pools[l].ram[h.slot].valid)
      ensures ok && h.onGpu ==> h.late && mayPromote
      ensures ok ==> Roomy(old(State()), State(), l) && (pending != old(pending) ==> !ready)
      ensures ok ==> claims == if !ready && pending == old(pending)
                               then old(claims) + [Claim(Demand, l, e, h.slot, Pieces(n))] else old(claims)
      ensures ok ==> FirstIn(old(pools[l]), pools[l], h, ready, mayPromote)
      ensures ok && old(pools[l]).expertSlot[e] >= 0 && !h.onGpu ==> h.slot == old(pools[l]).expertSlot[e]
    {
      hide Inv, Accounted;
      LayerFacts(l, e);
      ok := true;
      var p := pools[l];
      var k := p.expertSlot[e];
      if k >= 0 && p.ram[k].expert == e && !p.ram[k].valid {
        h := ServeInFlight(l, e, k);
        KeptIsRoomy(old(State()), State(), l);
        return true, h, false;
      }
      if k >= 0 && p.ram[k].expert == e && p.ram[k].valid {
        h := ServeRam(l, e, k, mayPromote);
        return true, h, true;
      }
      ok, h := ServeMiss(l, e);
      ready := false;
    }

    /** A map entry never lies: what it points to names the expert and, in VRAM, holds it. */
    lemma LayerFacts(l: nat, e: nat)
      requires Sound() && IsExpert(State(), l, e)
      ensures PoolShape(pools[l], nExpert) && MapsOk(pools[l], nExpert)
      ensures pools[l].gExpertSlot[e] >= 0 ==> !pools[l].lent && InVram(pools[l], e)
      ensures forall k | 0 <= k < |pools[l].ram| :: RamOk(Settled(State()), n, landing, l, k, pools[l].ram[k])
      ensures forall g | 0 <= g < |pools[l].gpu| :: GpuOk(Settled(State()), n, l, g, pools[l].gpu[g], pools[l].lent)
    {
      assert LayerOk(Settled(State()), n, nExpert, landing, pendingSwaps, l, pools[l]);
      if pools[l].gExpertSlot[e] >= 0 {
        assert GpuOk(Settled(State()), n, l, pools[l].gExpertSlot[e], pools[l].gpu[pools[l].gExpertSlot[e]],
            pools[l].lent);
      }
    }

    /** The VRAM residents of a fetch are stamped in use. */
    method StampVram(l: nat, ids: seq<nat>)
      requires l < |pools| && |pools[l].gExpertSlot| == nExpert && forall i | 0 <= i < |ids| :: ids[i] < nExpert
      requires forall e | 0 <= e < nExpert :: pools[l].gExpertSlot[e] < |pools[l].gpu|
      modifies this`pools
      ensures |pools| == |old(pools)| && pools == old(pools)[l := pools[l]] && SamePool(old(pools[l]), pools[l])
      ensures pools[l].ram == old(pools[l]).ram
      ensures forall i | 0 <= i < |ids| && pools[l].gExpertSlot[ids[i]] >= 0 ::
          pools[l].gpu[pools[l].gExpertSlot[ids[i]]].used >= tick
    {
      ghost var p := pools[l];
      for i := 0 to |ids|
        invariant |pools| == |old(pools)| && pools == old(pools)[l := pools[l]] && SamePool(p, pools[l])
        invariant pools[l].ram == p.ram
        invariant forall j | 0 <= j < i && p.gExpertSlot[ids[j]] >= 0 ::
            pools[l].gpu[p.gExpertSlot[ids[j]]].used >= tick
      {
        var g := pools[l].gExpertSlot[ids[i]];
        if g >= 0 { pools := pools[l := pools[l].(gpu := pools[l].gpu[g := pools[l].gpu[g].(used := tick)])]; }
      }
    }

    /** The RAM residents of a fetch are listed as in use. */
    method ListRam(l: nat, ids: seq<nat>)
      requires l < |pools| && |pools[l].expertSlot| == nExpert && forall i | 0 <= i < |ids| :: ids[i] < nExpert
      modifies this`live
      ensures forall i | 0 <= i < |ids| && pools[l].expertSlot[ids[i]] >= 0 :: pools[l].expertSlot[ids[i]] in live
      ensures forall k | k in live :: Residents(pools[l], ids, k)
    {
      live := [];
      for i := 0 to |ids|
        invariant forall k | k in live :: Residents(pools[l], ids, k)
        invariant forall j | 0 <= j < i && pools[l].expertSlot[ids[j]] >= 0 :: pools[l].expertSlot[ids[j]] in live
      {
        if pools[l].expertSlot[ids[i]] >= 0 { live := live + [pools[l].expertSlot[ids[i]]]; }
      }
    }

    /** This fetch's residents are marked before anything is promoted or claimed. */
    method Premark(l: nat, ids: seq<nat>)
      requires Valid() && FetchReady(State(), l, ids)
      modifies this`pools, this`live, this`tick, this`fetchEpoch
      ensures Valid() && tick == fetchEpoch
      ensures State() == old(State()).(pools := pools, live := live, tick := tick, epoch := fetchEpoch)
      ensures |pools| == |old(pools)| && pools == old(pools)[l := pools[l]] && SamePool(old(pools[l]), pools[l])
      ensures forall i | 0 <= i < |ids| :: Guarded(pools[l], ids[i], live, fetchEpoch)
      ensures pools[l].ram == old(pools[l]).ram && forall k | k in live :: Residents(pools[l], ids, k)
    {
      hide Inv, Accounted;
      ghost var s := State();
      tick := tick + 1;
      fetchEpoch := tick;
      assert PoolShape(pools[l], nExpert) && forall i | 0 <= i < |ids| :: ids[i] < nExpert by { InLayer(s, l, ids); }
      StampVram(l, ids);
      ListRam(l, ids);
      Marked(s, l);
    }

    static lemma InLayer(s: State, l: nat, ids: seq<nat>)
      requires Shape(s) && FetchReady(s, l, ids)
      ensures PoolShape(s.pools[l], s.nExpert) && forall i | 0 <= i < |ids| :: ids[i] < s.nExpert
    {
      forall i | 0 <= i < |ids| ensures ids[i] < s.nExpert { assert IsExpert(s, l, ids[i]); }
    }

    lemma Marked(s: State, l: nat)
      requires Inv(s) && Open(s) && Shape(s) && Accounted(s) && l < |s.pools|
      requires State() == s.(pools := pools, live := live, tick := tick, epoch := fetchEpoch)
      requires |pools| == |s.pools| && pools == s.pools[l := pools[l]] && SamePool(s.pools[l], pools[l])
      ensures Valid()
    {
      Bookkept(s);
    }

    lemma FirstTurn(p: Pool, s: State, l: nat, ids: seq<nat>)
      requires FetchReady(s, l, ids) && Shape(s) && p == s.pools[l] && |pools| == |s.pools| && SamePool(p, pools[l])
      requires forall i | 0 <= i < |ids| :: Guarded(pools[l], ids[i], live, fetchEpoch)
      requires pendingRelease == s.release && claims == s.claims && nExpert == s.nExpert
      ensures forall i | 0 <= i < |ids| :: Waiting(p, State(), l, ids[i])
      ensures OwnReads(State(), l, [])
    {
      forall i | 0 <= i < |ids| ensures Waiting(p, State(), l, ids[i]) {
        assert Unread(s, l, ids[i]) && Guarded(pools[l], ids[i], live, fetchEpoch);
      }
    }

    /** Between and during turns the devices run; every handle and every expert still waiting is as it was. */
    lemma Turn(p: Pool, s: State, held: seq<Awaited>, l: nat, ids: seq<nat>, e: nat, out: seq<Handle>,
            ready: seq<bool>, i: nat)
      requires MapsOkAt(s, l) && MapsOkAt(State(), l) && Spares(s, State(), l, e) && held <= pending
      requires |out| == |ready| && i <= |ids| && |out| <= |ids|
      requires forall j | 0 <= j < |out| :: Given(p, s, held, l, ids[j], out[j], ready[j])
      requires forall j | i <= j < |ids| :: Waiting(p, s, l, ids[j]) && ids[j] != e
      ensures forall j | 0 <= j < |out| :: Given(p, State(), pending, l, ids[j], out[j], ready[j])
      ensures forall j | i <= j < |ids| :: Waiting(p, State(), l, ids[j])
    {
      forall j | 0 <= j < |out| ensures Given(p, State(), pending, l, ids[j], out[j], ready[j]) {
        GivenStill(p, s, State(), held, pending, l, e, ids[j], out[j], ready[j]);
      }
      forall j | i <= j < |ids| ensures Waiting(p, State(), l, ids[j]) {
        WaitingStill(p, s, State(), l, e, ids[j]);
      }
    }

    /** The fetch under way, after its first i experts. */
    ghost predicate Serving(p: Pool, l: nat, ids: seq<nat>, i: nat, out: seq<Handle>, ready: seq<bool>)
      reads this
    {
      ServingAt(p, State(), pending, l, ids, i, out, ready)
    }

    /** The reads of the fetch under way are its misses', and of `room` slots it may refill no more are gone than
        experts without a safe place in VRAM have been served. */
    ghost predicate Within(p: Pool, l: nat, ids: seq<nat>, out: seq<Handle>, ready: seq<bool>, room: nat)
      reads this
    {
      && OwnMisses(claims, pending, l, ids, out, ready)
      && l < |pools| && room <= |Free(State(), l)| + Needs(p, ids[..|out|])
    }

    /** The other layers are as they were. */
    static ghost predicate OnlyLayer(p: seq<Pool>, q: seq<Pool>, l: nat) {
      l < |p| == |q| && forall m | 0 <= m < |p| && m != l :: q[m] == p[m]
    }

    /** The fetch's marks are set and nothing is served yet. */
    method FetchOpen(l: nat, ids: seq<nat>)
      requires Valid() && FetchReady(State(), l, ids)
      modifies this`mem, this`side, this`landing, this`ringBusy, this`pending, this`pools, this`live, this`tick,
               this`fetchEpoch
      ensures Valid() && Serving(old(pools[l]), l, ids, 0, [], []) && NoNewStrays(old(pools), pools)
      ensures OnlyLayer(old(pools), pools, l)
      ensures Within(old(pools[l]), l, ids, [], [], |Spare(old(State()), l, ids)|)
      ensures Unused(old(pools[l]), l, [], [])
    {
      ghost var s := State();
      LandLayer(l);
      assert Spare(State(), l, ids) == Spare(s, l, ids);
      FetchMark(l, ids);
    }

    method FetchMark(l: nat, ids: seq<nat>)
      requires Valid() && FetchReady(State(), l, ids) && NoLanding(State(), l)
      modifies this`pending, this`pools, this`live, this`tick, this`fetchEpoch
      ensures Valid() && Serving(old(pools[l]), l, ids, 0, [], []) && NoNewStrays(old(pools), pools)
      ensures OnlyLayer(old(pools), pools, l)
      ensures Within(old(pools[l]), l, ids, [], [], |Spare(old(State()), l, ids)|)
      ensures Unused(old(pools[l]), l, [], [])
    {
      hide Inv, Accounted;
      pending := [];
      ghost var s := State();
      Premark(l, ids);
      StampStrays(s.pools, pools, l);
      FirstTurn(s.pools[l], s, l, ids);
      SpareIsFree(s, State(), l, ids);
      assert ids[..0] == [];
      forall j | 0 <= j < |ids| ensures ids[j] < nExpert { assert IsExpert(s, l, ids[j]); }
    }

    /** Starts a fetch: a handle for every expert, the missing ones' reads under way, promotions queued. Nothing is
        waited for but the layer's own read-backs. While there is budget a vacant tier takes a block that is there. It
        cannot fail while there are as many slots to spare as experts without a safe place in VRAM; if it fails, what it
        abandons is exactly what its misses so far took. */
    method FetchBegin(l: nat, ids: seq<nat>) returns (ok: bool, out: seq<Handle>, ready: seq<bool>)
      requires Valid() && FetchReady(State(), l, ids)
      modifies this`pools, this`live, this`pendingRelease, this`pendingSwaps, this`landing, this`ringBusy, this`tick,
               this`fetchEpoch, this`claims, this`abandoned, this`fetchLayer, this`pending, this`mem, this`compute,
               this`side
      ensures Valid() && l < |pools|
      ensures ok ==> fetchLayer == l && Serving(old(pools[l]), l, ids, |ids|, out, ready)
      ensures ok ==> LateCount(out) <= maxPromotions
      ensures ok ==> Apart(out)
      ensures ok && maxPromotions > 0 && Vacant(old(pools[l])) && !old(pools[l]).lent ==>
        LateCount(out) > 0 || forall i | 0 <= i < |ready| :: !ready[i]
      ensures NoNewStrays(old(pools), pools) && OnlyLayer(old(pools), pools, l)
      ensures ok ==> abandoned == old(abandoned)
      ensures |Spare(old(State()), l, ids)| >= Needs(old(pools[l]), ids) ==> ok
      ensures !ok ==> NoVictim(l) && OnlyAhead() && |out| == |ready| < |ids|
      ensures !ok ==> abandoned == old(abandoned) + MissSlots(pending, l, ids, out, ready)
    {
      hide Inv, Accounted, Vacant, LateCount, Needs, Spare, OwnMisses, Free, NoNewStrays, ServingAt;
      ghost var p, room := pools[l], |Spare(State(), l, ids)|;
      FetchOpen(l, ids);
      ghost var q := pools;
      ok, out, ready := ServeNoted(p, l, ids, room);
      StraysTrans(old(pools), q, pools);
    }

    /** Only reads ahead are under way. */
    ghost predicate OnlyAhead()
      reads this
    {
      forall i | 0 <= i < |claims| :: claims[i].kind == Speculative
    }

    method GiveUp(l: nat, ids: seq<nat>)
      requires Valid() && Failed(l, ids)
      modifies this`claims, this`abandoned
      ensures Valid() && NoVictim(l) && OnlyAhead() && abandoned == old(abandoned) + Taken(old(claims))
    {
      ghost var s := State();
      GiveUpReads(l, ids);
      forall k ensures !Evictable(State(), l, k) { assert !Evictable(s, l, k); }
    }

    /** The fetch returns before its reads are submitted: the slots it claimed stay claimed and nothing fills them. */
    method GiveUpReads(l: nat, ids: seq<nat>)
      requires Valid() && OwnReads(State(), l, ids)
      modifies this`claims, this`abandoned
      ensures Valid() && State() == old(State()).(claims := claims, abandoned := abandoned)
      ensures OnlyAhead() && abandoned == old(abandoned) + Taken(old(claims))
    {
      hide Inv, Accounted;
      while exists i | 0 <= i < |claims| :: claims[i].kind == Demand
        invariant Valid() && OwnReads(State(), l, ids)
            && State() == old(State()).(claims := claims, abandoned := abandoned)
        invariant abandoned + Taken(claims) == old(abandoned) + Taken(old(claims))
        decreases |claims|
      {
        var i :| 0 <= i < |claims| && claims[i].kind == Demand;
        TakenLess(claims, i);
        GiveUpOne(l, ids, i);
      }
      assert Taken(claims) == {};
    }

    method GiveUpOne(l: nat, ghost ids: seq<nat>, i: nat)
      requires Valid() && OwnReads(State(), l, ids) && i < |claims| && claims[i].kind == Demand
      modifies this`claims, this`abandoned
      ensures Valid() && State() == TierReads.GiveUp(old(State()), i) && OwnReads(State(), l, ids)
    {
      ghost var s := State();
      GiveUpKeeps(s, i);
      OwnReadsLess(s, l, ids, i);
      abandoned := abandoned + {Lost(claims[i].layer, claims[i].expert, claims[i].slot)};
      claims := claims[..i] + claims[i + 1..];
    }

    /** No slot of the layer may be refilled, so a miss could not be served; the reads claimed so far are the fetch's.
        */
    ghost predicate Failed(l: nat, ids: seq<nat>)
      reads this
    {
      NoVictim(l) && OwnReads(State(), l, ids)
    }

    method ServeNoted(ghost p: Pool, l: nat, ids: seq<nat>, ghost room: nat)
      returns (ok: bool, out: seq<Handle>, ready: seq<bool>)
      requires Valid() && Serving(p, l, ids, 0, [], []) && Within(p, l, ids, [], [], room)
      modifies this`pools, this`live, this`tick, this`claims, this`pending, this`ringBusy, this`pendingSwaps,
               this`pendingRelease, this`compute, this`mem, this`side, this`fetchLayer, this`abandoned
      ensures Valid() && l < |pools| && NoNewStrays(old(pools), pools) && OnlyLayer(old(pools), pools, l)
      ensures ok ==> fetchLayer == l && Serving(p, l, ids, |ids|, out, ready) && LateCount(out) <= maxPromotions
      ensures ok ==> Apart(out) && abandoned == old(abandoned)
      ensures !ok ==> NoVictim(l) && OnlyAhead() && |out| == |ready| < |ids| && room < Needs(p, ids)
      ensures ok && old(Unused(p, l, [], [])) ==> Unused(p, l, out, ready)
      ensures !ok ==> abandoned == old(abandoned) + MissSlots(pending, l, ids, out, ready)
    {
      hide Inv, Accounted, Shape;
      ok, out, ready := ServeAll(p, l, ids, room);
      if ok {
        Note(p, l, ids, out, ready);
      } else {
        TakenAreMisses(claims, pending, l, ids, out, ready);
        GiveUp(l, ids);
      }
    }

    /** The layer fetch_end() will wait on. */
    method Note(ghost p: Pool, l: nat, ids: seq<nat>, ghost out: seq<Handle>, ghost ready: seq<bool>)
      requires Valid() && Serving(p, l, ids, |ids|, out, ready)
      modifies this`fetchLayer
      ensures Valid() && Serving(p, l, ids, |ids|, out, ready) && fetchLayer == l && Apart(out)
    {
      ServingApart(p, l, ids, out, ready);
      fetchLayer := l;
    }

    /** The experts in order; promotions stop at the step's budget. Those served before it failed keep their handles. */
    method ServeAll(ghost p: Pool, l: nat, ids: seq<nat>, ghost room: nat)
      returns (ok: bool, out: seq<Handle>, ready: seq<bool>)
      requires Valid() && Serving(p, l, ids, 0, [], []) && Within(p, l, ids, [], [], room)
      modifies this`pools, this`live, this`tick, this`claims, this`pending, this`ringBusy, this`pendingSwaps,
               this`pendingRelease, this`compute, this`mem, this`side
      ensures Valid() && l < |pools| && NoNewStrays(old(pools), pools) && OnlyLayer(old(pools), pools, l)
      ensures ok ==> Serving(p, l, ids, |ids|, out, ready) && LateCount(out) <= maxPromotions
      ensures !ok ==> Failed(l, ids) && OwnMisses(claims, pending, l, ids, out, ready)
      ensures !ok ==> |out| < |ids| && room < Needs(p, ids)
      ensures ok && old(Unused(p, l, [], [])) ==> Unused(p, l, out, ready)
    {
      hide Inv, Accounted, Needs, Free, OwnMisses;
      out, ready, ok := [], [], true;
      var promoted := 0;
      for i := 0 to |ids|
        invariant NoNewStrays(old(pools), pools) && OnlyLayer(old(pools), pools, l)
        invariant Valid() && Serving(p, l, ids, i, out, ready) && Within(p, l, ids, out, ready, room)
        invariant promoted == LateCount(out) <= maxPromotions
        invariant old(Unused(p, l, [], [])) ==> Unused(p, l, out, ready)
      {
        ghost var before := pools;
        ok, out, ready, promoted := ServeWithin(p, l, ids, i, out, ready, promoted, room);
        StraysTrans(old(pools), before, pools);
        if !ok { return; }
      }
    }

    /** If the tier was vacant and may be promoted into, somebody was promoted unless nobody was there to be. */
    ghost predicate Unused(p: Pool, l: nat, out: seq<Handle>, ready: seq<bool>)
      reads this
    {
      LateCount(out) == 0 && maxPromotions > 0 && Vacant(p) && !p.lent ==>
        && l < |pools| && Vacant(pools[l]) && !pools[l].lent
        && forall j | 0 <= j < |ready| :: !ready[j]
    }

    method ServeWithin(ghost p: Pool, l: nat, ids: seq<nat>, i: nat, out: seq<Handle>, ready: seq<bool>, promoted: nat,
            ghost room: nat)
      returns (ok: bool, out': seq<Handle>, ready': seq<bool>, promoted': nat)
      requires Valid() && i < |ids| && Serving(p, l, ids, i, out, ready) && promoted == LateCount(out) <= maxPromotions
      requires Within(p, l, ids, out, ready, room)
      modifies this`pools, this`live, this`tick, this`claims, this`pending, this`ringBusy, this`pendingSwaps,
               this`pendingRelease, this`compute, this`mem, this`side
      ensures Valid() && l < |pools| && NoNewStrays(old(pools), pools) && OnlyLayer(old(pools), pools, l)
      ensures ok ==> Serving(p, l, ids, i + 1, out', ready') && promoted' == LateCount(out') <= maxPromotions
      ensures ok ==> Within(p, l, ids, out', ready', room)
      ensures !ok ==> Failed(l, ids) && OwnMisses(claims, pending, l, ids, out', ready')
      ensures !ok ==> |out'| < |ids| && room < Needs(p, ids)
      ensures ok && old(Unused(p, l, out, ready)) ==> Unused(p, l, out', ready')
    {
      hide Inv, Accounted, Needs, Free, OwnMisses;
      var h, r;
      ok, h, r := ServeNext(p, l, ids, i, out, ready, promoted < maxPromotions, room);
      if !ok { return false, out, ready, promoted; }
      LateMore(out, h);
      promoted' := if h.onGpu && h.late then promoted + 1 else promoted;
      out', ready' := out + [h], ready + [r];
    }

    /** No two experts of a fetch share a slot. */
    lemma ServingApart(p: Pool, l: nat, ids: seq<nat>, out: seq<Handle>, ready: seq<bool>)
      requires Serving(p, l, ids, |ids|, out, ready)
      ensures Apart(out)
    {
      forall i, j | 0 <= i < j < |ids| && out[i].onGpu == out[j].onGpu ensures out[i].slot != out[j].slot {
        ServedApart(State(), pending, l, ids[i], out[i], ids[j], out[j]);
      }
    }

    lemma MapsHere(l: nat)
      requires Sound() && l < |pools|
      ensures MapsOkAt(State(), l)
    {
      assert LayerOk(Settled(State()), n, nExpert, landing, pendingSwaps, l, pools[l]);
    }

    /** The devices' own progress disturbs no handle and no expert of the fetch. */
    lemma Idled(p: Pool, s: State, l: nat, ids: seq<nat>, i: nat, out: seq<Handle>, ready: seq<bool>)
      requires MapsOkAt(s, l) && MapsOkAt(State(), l) && Ran(s, State())
          && ServingAt(p, s, pending, l, ids, i, out, ready)
      ensures Serving(p, l, ids, i, out, ready)
    {
      var e := |p.expertSlot| + nExpert;   // no expert's turn
      SparesStill(s, State(), l, e);
      Turn(p, s, pending, l, ids, e, out, ready, i);
      PendingStill(s, State(), pending, pending, l, e);
      forall j | 0 <= j < |claims|
        ensures claims[j].kind == Speculative
            || (claims[j].kind == Demand && claims[j].layer == l && claims[j].expert in ids[..i])
      {
        assert claims[j].kind == s.claims[j].kind;
      }
    }

    /** One more expert served. */
    lemma Advanced(p: Pool, s: State, held: seq<Awaited>, l: nat, ids: seq<nat>, i: nat, out: seq<Handle>,
            ready: seq<bool>, h: Handle, r: bool)
      requires MapsOkAt(s, l) && MapsOkAt(State(), l) && ServingAt(p, s, held, l, ids, i, out, ready) && i < |ids|
      requires pending == held
          || (pending == held + [Awaited(ids[i], h.slot)] && Expected(State(), pending, l, Awaited(ids[i], h.slot)))
      requires nExpert == s.nExpert && Spares(s, State(), l, ids[i]) && Given(p, State(), pending, l, ids[i], h, r)
      ensures Serving(p, l, ids, i + 1, out + [h], ready + [r])
    {
      Turn(p, s, held, l, ids, ids[i], out, ready, i + 1);
      OwnReadsGrow(s, State(), l, ids, i);
      PendingStill(s, State(), held, pending, l, ids[i]);
    }

    /** The devices run, then the next expert is served. */
    method ServeNext(ghost p: Pool, l: nat, ids: seq<nat>, i: nat, ghost out: seq<Handle>, ghost ready: seq<bool>,
            mayPromote: bool, ghost room: nat)
      returns (ok: bool, h: Handle, r: bool)
      requires Valid() && i < |ids| && Serving(p, l, ids, i, out, ready) && Within(p, l, ids, out, ready, room)
      modifies this`pools, this`live, this`tick, this`claims, this`pending, this`ringBusy, this`pendingSwaps,
               this`pendingRelease, this`compute, this`mem, this`side
      ensures Valid() && l < |pools| && NoNewStrays(old(pools), pools) && OnlyLayer(old(pools), pools, l)
      ensures ok && h.onGpu && h.late ==> mayPromote
      ensures ok ==> FirstIn(old(pools[l]), pools[l], h, r, mayPromote)
      ensures ok ==> Serving(p, l, ids, i + 1, out + [h], ready + [r])
      ensures ok ==> Within(p, l, ids, out + [h], ready + [r], room)
      ensures !ok ==> Failed(l, ids) && OwnMisses(claims, pending, l, ids, out, ready) && room < Needs(p, ids)
    {
      hide Inv, Accounted, Needs, Free, OwnMisses;
      Idle(p, l, ids, i, out, ready, room);
      ghost var s, held := State(), pending;
      OwnReadsMine(s, l, ids, i);
      assert Waiting(p, s, l, ids[i]);
      ok, h, r := ServeOne(l, ids[i], mayPromote);
      MapsHere(l);
      SparesStrays(s, State(), l, ids[i]);
      if ok {
        Advanced(p, s, held, l, ids, i, out, ready, h, r);
        RoomTaken(p, s, held, l, ids, out, ready, h, r, room);
      } else {
        OwnReadsAll(State(), l, ids, i);
        OutOfRoom(p, l, ids, out, ready, room);
      }
    }

    /** The devices run between two experts' turns. */
    method Idle(ghost p: Pool, l: nat, ids: seq<nat>, i: nat, ghost out: seq<Handle>, ghost ready: seq<bool>,
            ghost room: nat)
      requires Valid() && i <= |ids| && Serving(p, l, ids, i, out, ready) && Within(p, l, ids, out, ready, room)
      modifies this`mem, this`compute, this`side, this`claims
      ensures Valid() && Serving(p, l, ids, i, out, ready) && Within(p, l, ids, out, ready, room)
      ensures MapsOkAt(State(), l)
    {
      hide Needs;
      ghost var s := State();
      MapsHere(l);
      Devices();
      MapsHere(l);
      Idled(p, s, l, ids, i, out, ready);
      MissesRan(s.claims, claims, pending, l, ids, out, ready);
      assert Free(State(), l) == Free(s, l);
    }

    /** A turn takes no slot of a safe VRAM resident's fetch, one at most of any other's. */
    lemma RoomTaken(p: Pool, s: State, held: seq<Awaited>, l: nat, ids: seq<nat>, out: seq<Handle>, ready: seq<bool>,
            h: Handle, r: bool, room: nat)
      requires OwnMisses(s.claims, held, l, ids, out, ready) && |out| < |ids| && Distinct(ids)
      requires l < |s.pools| && room <= |Free(s, l)| + Needs(p, ids[..|out|])
      requires pending == held || (!r && pending == held + [Awaited(ids[|out|], h.slot)])
      requires claims == if !r && pending == held then s.claims + [Claim(Demand, l, ids[|out|], h.slot, Pieces(n))]
                         else s.claims
      requires l < |pools| && Roomy(s, State(), l) && (!Needy(p, ids[|out|]) ==> Kept(s, State(), l))
      ensures Within(p, l, ids, out + [h], ready + [r], room)
    {
      hide Free, Needs;
      MissesNext(s.claims, held, claims, pending, l, ids, out, ready, h, r, Pieces(n));
      RoomLeft(s, State(), l);
      NeedsNext(p, ids, |out|);
    }

    /** No slot is left and an expert without a safe place in VRAM needs one. */
    lemma OutOfRoom(p: Pool, l: nat, ids: seq<nat>, out: seq<Handle>, ready: seq<bool>, room: nat)
      requires Within(p, l, ids, out, ready, room) && NoVictim(l) && |out| < |ids| && Needy(p, ids[|out|])
      ensures room < Needs(p, ids)
    {
      assert Free(State(), l) == {};
      NeedsNext(p, ids, |out|);
      NeedsGrow(p, ids, |out| + 1);
    }

    /** The claim's reads are waited for and its block becomes valid. */
    method Reap(i: nat)
      requires Valid() && i < |claims|
      modifies this`pools, this`claims, this`mem
      ensures Valid() && |claims| == |old(claims)| - 1 && Reaping(old(State()), State(), pending)
      ensures SameMaps(old(pools), pools) && OnlyRaised(old(pools), pools)
    {
      hide OnlyRaised, SameMaps, Reaping, Complete;
      ghost var s := State();
      Await(i);
      ghost var t := State();
      Reaped(i);
      ReapFacts(s, t, i, pending);
      CompleteRaises(t, i);
    }

    /** As part of a wait that began in state s. */
    method ReapSince(ghost s: State, i: nat)
      requires Valid() && i < |claims| && Reaping(s, State(), pending)
      modifies this`pools, this`claims, this`mem
      ensures Valid() && |claims| == |old(claims)| - 1 && Reaping(s, State(), pending) && SameMaps(old(pools), pools)
      ensures OnlyRaised(old(pools), pools)
    {
      Reap(i);
      ReapingTrans(s, old(State()), State(), pending);
    }

    predicate Wanted(c: Claim)
      reads this
    {
      c.kind == Speculative && c.layer == fetchLayer && Awaited(c.expert, c.slot) in pending
    }

    /** Speculative reads are reaped, in the order they land, until none is for an expert the fetch waits for. */
    method SettleFor()
      requires Valid()
      modifies this`pools, this`claims, this`mem
      ensures Valid() && Reaping(old(State()), State(), pending) && SameMaps(old(pools), pools)
      ensures OnlyRaised(old(pools), pools) && forall c | c in claims :: !Wanted(c)
    {
      ghost var s := State();
      RanServes(s, s, pending);
      while exists i | 0 <= i < |claims| :: Wanted(claims[i])
        invariant Valid() && Reaping(s, State(), pending) && SameMaps(s.pools, pools) && OnlyRaised(s.pools, pools)
        decreases |claims|
      {
        var i :| 0 <= i < |claims| && claims[i].kind == Speculative;   // whichever lands first
        ghost var before := pools;
        ReapSince(s, i);
        OnlyRaisedTrans(s.pools, before, pools);
      }
    }

    /** Every read of one kind is waited for; its block becomes valid. */
    method ReapAll(kind: Kind)
      requires Valid()
      modifies this`pools, this`claims, this`mem
      ensures Valid() && Reaping(old(State()), State(), pending) && SameMaps(old(pools), pools)
      ensures forall i | 0 <= i < |claims| :: claims[i].kind != kind
      ensures OnlyRaised(old(pools), pools)
    {
      ghost var s := State();
      RanServes(s, s, pending);
      while exists i | 0 <= i < |claims| :: claims[i].kind == kind
        invariant Valid() && Reaping(s, State(), pending) && SameMaps(s.pools, pools) && OnlyRaised(s.pools, pools)
        decreases |claims|
      {
        var i :| 0 <= i < |claims| && claims[i].kind == kind;
        ghost var before := pools;
        ReapSince(s, i);
        OnlyRaisedTrans(s.pools, before, pools);
      }
    }

    /** An abandoned slot's block is read again; every piece has landed. */
    method ReadBlock(l: nat, e: nat, k: nat)
      requires Valid() && Lost(l, e, k) in abandoned
      modifies this`claims, this`mem, this`abandoned
      ensures Valid() && Ran(ReadAgain(old(State()), Lost(l, e, k)), State()) && claims[|old(claims)|].flying == {}
    {
      ghost var s, b := State(), Lost(l, e, k);
      ReadAgainKeeps(s, b);
      claims := claims + [Claim(Batch, l, e, k, Pieces(n))];
      abandoned := abandoned - {b};
      assert State() == ReadAgain(s, b);
      Await(|claims| - 1);
    }

    /** The block of a slot a failed fetch abandoned is read now, and waited for. */
    method ReadNow(l: nat, e: nat, k: nat)
      requires Valid() && Lost(l, e, k) in abandoned
      modifies this`pools, this`claims, this`mem, this`abandoned
      ensures Valid() && Reaping(old(State()), State(), pending) && SameMaps(old(pools), pools)
      ensures abandoned == old(abandoned) - {Lost(l, e, k)} && OnlyRaised(old(pools), pools)
    {
      ghost var s, b := State(), Lost(l, e, k);
      assert LostsOk(s);
      hide Inv, Accounted, OnlyRaised, Reaping, SameMaps;
      ReadBlock(l, e, k);
      ReadAgainReaps(s, b, State(), pending);
      Reaped(|claims| - 1);
    }

    /** After the first i blocks the fetch waits for: exactly the abandoned ones have been read again. */
    ghost predicate Settling(s: State, i: nat, again: seq<Awaited>)
      reads this
    {
      && i <= |pending| && Reaping(s, State(), pending) && SameMaps(s.pools, pools)
          && (forall c | c in claims :: !Wanted(c))
      && abandoned == s.abandoned - AllLost(fetchLayer, pending[..i])
      && (forall j | 0 <= j < i :: pending[j] in again <==> LostFor(fetchLayer, pending[j]) in s.abandoned)
      && (forall a | a in again :: LostFor(fetchLayer, a) in s.abandoned)
    }

    /** The next block the fetch waits for: read again if it is still not there. */
    method SettleOne(ghost s: State, i: nat, again: seq<Awaited>) returns (more: seq<Awaited>)
      requires Valid() && i < |pending| && Settling(s, i, again)
      requires fetchLayer < |pools| && PendingServed(s, pending, fetchLayer)
      modifies this`pools, this`claims, this`mem, this`abandoned
      ensures Valid() && Settling(s, i + 1, more) && OnlyRaised(old(pools), pools)
    {
      hide OnlyRaised;
      NothingRaised(pools);
      var a := pending[i];
      StillExpected(s, i, again, a);
      more := again;
      if !pools[fetchLayer].ram[a.slot].valid {
        ghost var t, lost := State(), abandoned;
        ReadNow(fetchLayer, a.expert, a.slot);
        more := again + [a];
        Resettled(s, t, i, again);
      }
    }

    lemma StillExpected(s: State, i: nat, again: seq<Awaited>, a: Awaited)
      requires Sound() && Settling(s, i, again) && fetchLayer < |pools| && a in pending
          && PendingServed(s, pending, fetchLayer)
      ensures a.slot < |pools[fetchLayer].ram|
      ensures pools[fetchLayer].ram[a.slot].valid <==> LostFor(fetchLayer, a) !in abandoned
    {
      assert Expected(s, pending, fetchLayer, a);
      ExpectedArrived(State(), pending, fetchLayer, a);
    }

    /** What was settled before one more block was read again stays settled. */
    lemma Resettled(s: State, t: State, i: nat, again: seq<Awaited>)
      requires i < |pending| && Reaping(s, t, pending) && SameMaps(s.pools, t.pools)
          && LostFor(fetchLayer, pending[i]) in t.abandoned
      requires forall c | c in t.claims :: !Wanted(c)
      requires t.abandoned == s.abandoned - AllLost(fetchLayer, pending[..i])
      requires forall j | 0 <= j < i :: pending[j] in again <==> LostFor(fetchLayer, pending[j]) in s.abandoned
      requires forall a | a in again :: LostFor(fetchLayer, a) in s.abandoned
      requires Reaping(t, State(), pending) && SameMaps(t.pools, pools)
          && abandoned == t.abandoned - {LostFor(fetchLayer, pending[i])}
      ensures Settling(s, i + 1, again + [pending[i]])
    {
      ReapingTrans(s, t, State(), pending);
      NoneAwaited(t, State(), pending, fetchLayer);
    }

    /** What the fetch waits for is there; what a failed fetch abandoned is read again, and nothing else is. */
    method SettlePending() returns (again: seq<Awaited>)
      requires Valid() && fetchLayer < |pools| && PendingServed(State(), pending, fetchLayer)
      modifies this`pools, this`claims, this`mem, this`abandoned
      ensures Valid() && |pools| == |old(pools)| && Settling(old(State()), |pending|, again)
      ensures OnlyRaised(old(pools), pools)
    {
      ghost var s := State();
      SettleFor();
      again := [];
      for i := 0 to |pending|
        invariant Valid() && |pools| == |old(pools)| && Settling(s, i, again) && OnlyRaised(s.pools, pools)
      {
        ghost var before := pools;
        again := SettleOne(s, i, again);
        OnlyRaisedTrans(s.pools, before, pools);
      }
    }

    /** Ends a fetch: everything it handed out is there. Reads do not get lost, so what is read again here is exactly
        what an earlier fetch that failed had abandoned. */
    method FetchEnd() returns (ok: bool, again: seq<Awaited>)
      requires Valid() && fetchLayer < |pools| && NoLanding(State(), fetchLayer)
      requires PendingServed(State(), pending, fetchLayer) && forall c | c in claims :: c.kind in {Speculative, Demand}
      modifies this`pools, this`claims, this`mem, this`pending, this`abandoned
      ensures ok && Valid() && pending == [] && StillServes(old(State()), State(), old(pending))
          && SameMaps(old(pools), pools)
      ensures forall c | c in claims :: c.kind == Speculative
      ensures Delivers(old(State()), State(), old(pending), fetchLayer)
      ensures forall a | a in old(pending) :: a in again <==> LostFor(fetchLayer, a) in old(abandoned)
      ensures abandoned == old(abandoned) - AllLost(fetchLayer, old(pending))
      ensures OnlyRaised(old(pools), pools)
      ensures forall l: nat, x: nat | x < nExpert && Flying(old(State()), Speculative, l, x) ::
        Underway(State(), Speculative, l, x)
    {
      ghost var s := State();
      ok := true;
      again := WaitAll();
      AllHere(s, again);
      StillUnderway(s);
      pending := [];
    }

    lemma StillUnderway(s: State)
      requires Inv(s) && Shape(s) && Accounted(s) && Sound() && Reaping(s, State(), pending)
      requires OnlyRaised(s.pools, pools) && SameMaps(s.pools, pools)
      ensures forall l: nat, x: nat | x < nExpert && Flying(s, Speculative, l, x) ::
        Underway(State(), Speculative, l, x)
    {
      forall l: nat, x: nat | x < nExpert && Flying(s, Speculative, l, x)
        ensures Underway(State(), Speculative, l, x)
      {
        FlyingStays(s, State(), pending, Speculative, l, x);
      }
    }

    lemma AllHere(s: State, again: seq<Awaited>)
      requires Sound() && Settling(s, |pending|, again) && NoLanding(State(), fetchLayer)
      requires PendingServed(State(), pending, fetchLayer) && forall c | c in claims :: c.kind == Speculative
      ensures Delivers(s, State(), pending, fetchLayer)
    {
      forall id: nat, h | Serves(s, pending, fetchLayer, id, h) ensures Arrived(State(), fetchLayer, id, h) {
        AllArrived(State(), pending, fetchLayer, id, h);
      }
    }

    method WaitAll() returns (again: seq<Awaited>)
      requires Valid() && fetchLayer < |pools| && NoLanding(State(), fetchLayer)
      requires PendingServed(State(), pending, fetchLayer) && forall c | c in claims :: c.kind in {Speculative, Demand}
      modifies this`pools, this`claims, this`mem, this`abandoned
      ensures Valid() && Settling(old(State()), |pending|, again) && NoLanding(State(), fetchLayer)
      ensures PendingServed(State(), pending, fetchLayer) && forall c | c in claims :: c.kind == Speculative
      ensures OnlyRaised(old(pools), pools)
    {
      ghost var s := State();
      again := SettlePending();
      ghost var t := State();
      ReapAll(Demand);
      AllDrained(s, t, again);
      OnlyRaisedTrans(s.pools, t.pools, pools);
    }

    /** The fetch's own reads have been waited for too. */
    lemma AllDrained(s: State, t: State, again: seq<Awaited>)
      requires Reaping(s, t, pending) && SameMaps(s.pools, t.pools) && Reaping(t, State(), pending)
          && SameMaps(t.pools, pools)
      requires abandoned == t.abandoned
      requires PendingServed(s, pending, fetchLayer) && NoLanding(s, fetchLayer)
      requires forall c | c in t.claims && c.kind == Speculative && c.layer == fetchLayer ::
          Awaited(c.expert, c.slot) !in pending
      requires (forall c | c in s.claims :: c.kind in {Speculative, Demand}) && forall i | 0 <= i < |claims| ::
          claims[i].kind != Demand
      ensures Reaping(s, State(), pending) && SameMaps(s.pools, pools) && NoLanding(State(), fetchLayer)
      ensures PendingServed(State(), pending, fetchLayer) && forall c | c in claims :: c.kind == Speculative
      ensures forall c | c in claims && c.layer == fetchLayer :: Awaited(c.expert, c.slot) !in pending
    {
      ReapingTrans(s, t, State(), pending);
      NoneAwaited(t, State(), pending, fetchLayer);
      forall a | a in pending
          ensures Expected(State(), pending, fetchLayer, a) { assert Expected(s, pending, fetchLayer, a); }
    }

    // ------------------------------------------------------------ speculative reads

    /** What prefetching keeps of a fetch under way: its handles, and that its layer has no read-back to land. */
    static ghost predicate Undisturbed(s: State, t: State, awaited: seq<Awaited>) {
      && StillServes(s, t, awaited) && SameVram(s.pools, t.pools) && t.abandoned == s.abandoned
      && (forall l: nat | NoLanding(s, l) :: NoLanding(t, l))
      && ((forall c | c in s.claims :: c.kind in {Speculative, Demand})
          ==> (forall c | c in t.claims :: c.kind in {Speculative, Demand}))
    }

    static lemma UndisturbedTrans(s: State, t: State, u: State, awaited: seq<Awaited>)
      requires Undisturbed(s, t, awaited) && Undisturbed(t, u, awaited)
      ensures Undisturbed(s, u, awaited)
    {
      StillTrans(s, t, u, awaited);
    }

    method Tick()
      requires Valid()
      modifies this`tick
      ensures Valid() && State() == old(State()).(tick := tick)
    {
      ghost var s := State();
      tick := tick + 1;
      Bookkept(s);
    }

    /** One predicted expert: read ahead unless it is resident, inbound or in VRAM, or no slot may be refilled. */
    method Speculate(l: nat, e: nat)
      requires Valid() && l < |pools| && NoLanding(State(), l)
      modifies this`pools, this`claims, this`tick
      ensures Valid() && Undisturbed(old(State()), State(), pending) && NoLanding(State(), l)
      ensures Reads(old(State()), State(), Speculative) && SoughtNow(old(State()), State(), l, e)
    {
      ghost var s := State();
      RanServes(s, s, pending);
      NoReads(s, s, Speculative);
      if e >= nExpert { return; }
      LayerFacts(l, e);
      var p := pools[l];
      if p.gExpertSlot[e] >= 0 { return; }
      if p.expertSlot[e] >= 0 && p.ram[p.expertSlot[e]].expert == e { return; }
      SpeculateMiss(l, e);
    }

    method SpeculateMiss(l: nat, e: nat)
      requires Valid() && IsExpert(State(), l, e) && NoLanding(State(), l) && e < |pools[l].gExpertSlot|
          && pools[l].gExpertSlot[e] < 0
      modifies this`pools, this`claims, this`tick
      ensures Valid() && Undisturbed(old(State()), State(), pending) && NoLanding(State(), l)
      ensures Reads(old(State()), State(), Speculative) && SoughtNow(old(State()), State(), l, e)
    {
      hide Inv, Accounted, Flying, Unnamed;
      ghost var s := State();
      RanServes(s, s, pending);
      var v := TakeSlot(Speculative, l, e);
      if v < 0 { NoReads(s, s, Speculative); return; }
      ClaimUndisturbed(s, l, v, e, pending);
      ClaimReads(s, Speculative, l, v, e);
      ghost var t := State();
      Tick();
      NoReads(t, State(), Speculative);
      TickUndisturbed(t, tick, pending);
      UndisturbedTrans(s, t, State(), pending);
    }

    static lemma ClaimUndisturbed(s: State, l: nat, v: nat, e: nat, awaited: seq<Awaited>)
      requires MayClaim(s, l, v, e)
      ensures Undisturbed(s, ClaimSlot(s, Speculative, l, v, e), awaited)
          && NoLanding(ClaimSlot(s, Speculative, l, v, e), l)
    {
      ClaimServes(s, l, v, e, awaited);
    }

    static lemma TickUndisturbed(s: State, tick: nat, awaited: seq<Awaited>)
      ensures Undisturbed(s, s.(tick := tick), awaited)
    {
      RanServes(s, s.(tick := tick), awaited);
    }

    /** pf_reap(0): what has landed is marked valid, nothing is waited for. */
    method ReapLanded()
      requires Valid()
      modifies this`pools, this`claims
      ensures Valid() && Undisturbed(old(State()), State(), pending) && OnlyRaised(old(pools), pools)
    {
      ghost var s := State();
      RanServes(s, s, pending);
      while exists i | 0 <= i < |claims| :: claims[i].kind == Speculative && claims[i].flying == {}
        invariant Valid() && Undisturbed(s, State(), pending) && OnlyRaised(s.pools, pools)
        decreases |claims|
      {
        var i :| 0 <= i < |claims| && claims[i].kind == Speculative && claims[i].flying == {};
        ghost var before := pools;
        ReapReady(s, i);
        OnlyRaisedTrans(s.pools, before, pools);
      }
    }

    method ReapReady(ghost s: State, i: nat)
      requires Valid() && i < |claims| && claims[i].flying == {} && Undisturbed(s, State(), pending)
      modifies this`pools, this`claims
      ensures Valid() && |claims| == |old(claims)| - 1 && Undisturbed(s, State(), pending)
      ensures OnlyRaised(old(pools), pools)
    {
      ghost var t := State();
      Reaped(i);
      CompleteRaises(t, i);
      CompleteServes(t, i, pending);
      UndisturbedTrans(s, t, State(), pending);
    }

    /** An expert not in VRAM and without its block in RAM is on its way, or no slot may be refilled for it. */
    static ghost predicate SoughtNow(s: State, t: State, l: nat, e: nat) {
      OutOfVram(s, l, e) && Blockless(s, Speculative, l, e) ==> Sought(t, Speculative, l, e)
    }

    /** Reads ahead for the layers to come, beside a fetch under way: a prediction that is not in VRAM and that no RAM
        slot names is on its way afterwards, unless no slot of its layer may be refilled. */
    method PrefetchBegin(sets: seq<(nat, seq<nat>)>)
      requires Valid()
      modifies this`pools, this`claims, this`tick, this`mem, this`compute, this`side, this`landing, this`ringBusy
      ensures Valid() && Undisturbed(old(State()), State(), pending)
      ensures forall l: nat, e: nat |
        Predicted(sets, l, e) && OutOfVram(old(State()), l, e) && Unnamed(old(State()), l, e) ::
        Flying(State(), Speculative, l, e) || NoVictim(l)
    {
      hide Inv, Accounted, Undisturbed, Reads, Flying, Unnamed, SoughtNow;
      ghost var s := State();
      ReapLanded();
      ghost var t := State();
      NoReads(t, t, Speculative);
      for k := 0 to |sets|
        invariant Valid() && Undisturbed(s, State(), pending) && Reads(t, State(), Speculative)
        invariant forall a | 0 <= a < k :: AllSought(t, State(), sets[a].0, sets[a].1, |sets[a].1|)
      {
        ghost var u := State();
        PrefetchSet(s, t, sets[k].0, sets[k].1);
        forall a | 0 <= a < k ensures AllSought(t, State(), sets[a].0, sets[a].1, |sets[a].1|) {
          StillSought(t, u, State(), sets[a].0, sets[a].1, |sets[a].1|);
        }
      }
      forall l: nat, e: nat | Predicted(sets, l, e) && OutOfVram(s, l, e) && Unnamed(s, l, e)
        ensures Sought(State(), Speculative, l, e)
      {
        var a, b :| 0 <= a < |sets| && 0 <= b < |sets[a].1| && sets[a].0 == l && sets[a].1[b] == e;
        RaisedNames(s, t, l, e);
        assert AllSought(t, State(), sets[a].0, sets[a].1, |sets[a].1|);
      }
    }

    static ghost predicate Predicted(sets: seq<(nat, seq<nat>)>, l: nat, e: nat) {
      exists a, b :: 0 <= a < |sets| && 0 <= b < |sets[a].1| && sets[a].0 == l && sets[a].1[b] == e
    }

    /** The first i of a layer's predictions. */
    static ghost predicate AllSought(s: State, t: State, l: nat, ids: seq<nat>, i: nat) {
      forall b | 0 <= b < i && b < |ids| && OutOfVram(s, l, ids[b]) && Unnamed(s, l, ids[b]) ::
        Sought(t, Speculative, l, ids[b])
    }

    static lemma StillSought(s: State, t: State, u: State, l: nat, ids: seq<nat>, i: nat)
      requires AllSought(s, t, l, ids, i) && Reads(t, u, Speculative)
      ensures AllSought(s, u, l, ids, i)
    {
      forall b | 0 <= b < i && b < |ids| && Sought(t, Speculative, l, ids[b])
        ensures Sought(u, Speculative, l, ids[b])
      {
        SoughtStill(t, u, Speculative, l, ids[b]);
      }
    }

    method PrefetchSet(ghost s: State, ghost t: State, l: nat, ids: seq<nat>)
      requires Valid() && Undisturbed(s, State(), pending) && Reads(t, State(), Speculative)
      modifies this`pools, this`claims, this`tick, this`mem, this`compute, this`side, this`landing, this`ringBusy
      ensures Valid() && Undisturbed(s, State(), pending)
      ensures Reads(old(State()), State(), Speculative) && Reads(t, State(), Speculative)
      ensures AllSought(t, State(), l, ids, |ids|)
    {
      hide Inv, Accounted, Undisturbed, Reads, Flying, Unnamed, SoughtNow, AllSought, Sought;
      ghost var was := State();
      LandLayer(l);
      LandedLayer(s, was, pending);
      ReadsTrans(t, was, State(), Speculative);
      SoughtNone(t, State(), l, ids);
      if l >= |pools| { OutOfLayers(t, State(), l, ids); return; }
      for i := 0 to |ids|
        invariant Valid() && Undisturbed(s, State(), pending) && l < |pools| && NoLanding(State(), l)
        invariant Reads(was, State(), Speculative) && Reads(t, State(), Speculative)
        invariant AllSought(t, State(), l, ids, i)
      {
        ghost var u := State();
        Speculate(l, ids[i]);
        UndisturbedTrans(s, u, State(), pending);
        ReadsTrans(was, u, State(), Speculative);
        ReadsTrans(t, u, State(), Speculative);
        SoughtOneMore(t, u, State(), l, ids, i);
      }
    }

    lemma LandedLayer(s: State, t: State, awaited: seq<Awaited>)
      requires Undisturbed(s, t, awaited)
      requires State() == t.(mem := mem, side := side, landing := landing, ringBusy := ringBusy)
      requires landing == t.landing || landing == []
      ensures Undisturbed(s, State(), awaited) && Reads(t, State(), Speculative)
    {
      RanServes(t, State(), awaited);
      NoReads(t, State(), Speculative);
    }

    static lemma SoughtNone(s: State, t: State, l: nat, ids: seq<nat>)
      ensures AllSought(s, t, l, ids, 0)
    {
    }

    static lemma OutOfLayers(s: State, t: State, l: nat, ids: seq<nat>)
      requires l >= |t.pools| && Reads(s, t, Speculative)
      ensures AllSought(s, t, l, ids, |ids|)
    {
    }

    static lemma SoughtOneMore(s: State, t: State, u: State, l: nat, ids: seq<nat>, i: nat)
      requires AllSought(s, t, l, ids, i) && i < |ids| && Reads(s, t, Speculative) && Reads(t, u, Speculative)
      requires l < |t.pools| && SoughtNow(t, u, l, ids[i])
      ensures AllSought(s, u, l, ids, i + 1)
    {
      StillSought(s, t, u, l, ids, i);
    }

    // ------------------------------------------------------------ outside the decode loop

    /** Where an expert is: in VRAM, else its RAM slot if that holds it. */
    method Find(l: nat, e: nat) returns (inVram: bool, s: int)
      requires Sound() && IsExpert(State(), l, e)
      ensures |pools[l].expertSlot| == |pools[l].gExpertSlot| == nExpert
      ensures inVram <==> pools[l].gExpertSlot[e] >= 0
      ensures s == EMPTY || (0 <= s < |pools[l].ram| && s == pools[l].expertSlot[e] && pools[l].ram[s].valid
          && pools[l].ram[s].expert == e)
      ensures s == EMPTY ==> var k := pools[l].expertSlot[e]; !(0 <= k < |pools[l].ram| && pools[l].ram[k].valid)
    {
      LayerFacts(l, e);
      var p := pools[l];
      var g := p.gExpertSlot[e];
      inVram := g >= 0 && p.gpu[g].valid && p.gpu[g].expert == e;
      s := p.expertSlot[e];
      if s >= 0 && !(p.ram[s].expert == e && p.ram[s].valid) { s := EMPTY; }
    }

    /** Promotes what the VRAM tier takes of a list of RAM residents. */
    method PromoteAll(l: nat, ids: seq<nat>)
      requires Valid() && l < |pools| && NoLanding(State(), l) && tick >= fetchEpoch
      requires FreshTier(pools[l], fetchEpoch) || AllListed(pools[l], ids, live)
      modifies this`pools, this`ringBusy, this`pendingSwaps, this`pendingRelease, this`compute
      ensures Valid() && Refills(old(pools), pools, l, fetchEpoch)
      ensures StayHomed(old(State()), State(), l) && OnlyInto(old(pools[l]), pools[l], ids)
      ensures TakesOne(old(pools[l]), pools[l], ids, |ids|)
    {
      hide Inv, Accounted, Homed, Vacant, InRam, Occupied;
      NothingRefilled(pools, l, fetchEpoch);
      for i := 0 to |ids|
        invariant Valid() && Refills(old(pools), pools, l, fetchEpoch)
        invariant TakesOne(old(pools[l]), pools[l], ids, i)
        invariant FreshTier(old(pools[l]), fetchEpoch) || AllListed(pools[l], ids, live)
        invariant StayHomed(old(State()), State(), l) && OnlyInto(old(pools[l]), pools[l], ids)
      {
        ghost var before := pools;
        PromoteOne(l, ids, i, ids[i]);
        TakesMore(old(pools[l]), before[l], pools[l], ids, i);
        RefillsTrans(old(pools), before, pools, l, fetchEpoch);
      }
    }

    /** Somebody came into the tier; or it is as it was, and if it was vacant none of the first i had its block in RAM.
        */
    static ghost predicate TakesOne(p: Pool, q: Pool, ids: seq<nat>, i: nat) {
      Occupied(q) || (q == p && (Vacant(p) && !p.lent ==> forall j | 0 <= j < i && j < |ids| :: !InRam(p, ids[j])))
    }

    static lemma TakesMore(p: Pool, q: Pool, r: Pool, ids: seq<nat>, i: nat)
      requires TakesOne(p, q, ids, i) && i < |ids| && TakesOne(q, r, [ids[i]], 1)
      ensures TakesOne(p, r, ids, i + 1)
    {
      assert [ids[i]][0] == ids[i];
      if r == q && Occupied(q) { assert Occupied(r); }
    }

    static ghost predicate StayHomed(s: State, t: State, l: nat) {
      forall x: nat | Homed(s, l, x) :: Homed(t, l, x)
    }

    /** Who came into VRAM is one of these. */
    static ghost predicate OnlyInto(p: Pool, q: Pool, ids: seq<nat>) {
      |q.gExpertSlot| == |p.gExpertSlot| && forall x: nat | x < |p.gExpertSlot| && p.gExpertSlot[x] < 0 ::
        q.gExpertSlot[x] < 0 || x in ids
    }

    method PromoteOne(l: nat, ghost ids: seq<nat>, ghost i: nat, e: nat)
      requires Valid() && l < |pools| && NoLanding(State(), l) && tick >= fetchEpoch && i < |ids| && e == ids[i]
      requires FreshTier(pools[l], fetchEpoch) || AllListed(pools[l], ids, live)
      modifies this`pools, this`ringBusy, this`pendingSwaps, this`pendingRelease, this`compute
      ensures Valid() && Refills(old(pools), pools, l, fetchEpoch)
      ensures AllListed(old(pools[l]), ids, live) ==> AllListed(pools[l], ids, live)
      ensures StayHomed(old(State()), State(), l) && OnlyInto(old(pools[l]), pools[l], [e])
      ensures TakesOne(old(pools[l]), pools[l], [e], 1)
    {
      hide Homed;
      NothingRefilled(pools, l, fetchEpoch);
      assert PoolShape(pools[l], nExpert);
      if e >= nExpert { return; }
      var inVram, s := Find(l, e);
      if s < 0 { return; }
      PromoteFound(l, e, s);
    }

    method PromoteFound(l: nat, e: nat, k: nat)
      requires Valid() && Promotable(l, e, k) && Sheltered(State(), l, k) && tick >= fetchEpoch
      modifies this`pools, this`ringBusy, this`pendingSwaps, this`pendingRelease, this`compute
      ensures Valid() && Refills(old(pools), pools, l, fetchEpoch)
      ensures |pools[l].expertSlot| == |old(pools)[l].expertSlot|
      ensures forall x: nat | Listed(old(pools)[l], x, live) :: Listed(pools[l], x, live)
      ensures StayHomed(old(State()), State(), l) && OnlyInto(old(pools[l]), pools[l], [e])
      ensures Occupied(pools[l]) || (State() == old(State()) && (pools[l].lent || !Vacant(pools[l])))
    {
      NothingRefilled(pools, l, fetchEpoch);
      ghost var before := State();
      var ok := TryPromote(l, e, k);
      if ok {
        PromotedAll(before, l, e, k);
        PromotedHere(before, l, e, k);
      }
    }

    lemma PromotedAll(s: State, l: nat, e: nat, k: nat)
      requires TiersOk(s, Settled(s)) && l < |s.pools| && s.tick >= s.epoch
      requires exists c :: MayPromote(s, l, e, k, c) && State() == Promote(s, l, e, k, c)
                      && IsPromotion(s, State(), l, e, k, c, Displaced(s.pools[l], k, c).0)
      ensures Refills(s.pools, pools, l, s.epoch) && live == s.live && |pools[l].expertSlot| == |s.pools[l].expertSlot|
      ensures forall x: nat | Listed(s.pools[l], x, s.live) :: Listed(pools[l], x, live)
    {
      var c :| MayPromote(s, l, e, k, c) && State() == Promote(s, l, e, k, c)
                      && IsPromotion(s, State(), l, e, k, c, Displaced(s.pools[l], k, c).0);
      assert LayerOk(Settled(s), s.n, s.nExpert, s.landing, s.swaps, l, s.pools[l]);
    }

    lemma PromotedHere(s: State, l: nat, e: nat, k: nat)
      requires TiersOk(s, Settled(s)) && l < |s.pools| && s.tick >= s.epoch
      requires exists c :: MayPromote(s, l, e, k, c) && State() == Promote(s, l, e, k, c)
                      && IsPromotion(s, State(), l, e, k, c, Displaced(s.pools[l], k, c).0)
      ensures StayHomed(s, State(), l) && l < |pools|
      ensures OnlyInto(s.pools[l], pools[l], [e]) && Occupied(pools[l])
    {
      var c :| MayPromote(s, l, e, k, c) && State() == Promote(s, l, e, k, c)
                      && IsPromotion(s, State(), l, e, k, c, Displaced(s.pools[l], k, c).0);
      assert LayerOk(Settled(s), s.n, s.nExpert, s.landing, s.swaps, l, s.pools[l]);
      PromotedIn(s, State(), l, e, k, c, Displaced(s.pools[l], k, c).0);
    }

    static lemma PromotedIn(s: State, t: State, l: nat, e: nat, k: nat, c: Choice, to: int)
      requires MayPromote(s, l, e, k, c) && IsPromotion(s, t, l, e, k, c, to) && s.tick >= s.epoch
      requires MapsOk(s.pools[l], s.nExpert)
      ensures StayHomed(s, t, l) && OnlyInto(s.pools[l], t.pools[l], [e]) && Occupied(t.pools[l])
    {
      assert t.pools[l].gpu[c.victim].expert == e;
      forall x: nat | Homed(s, l, x) ensures Homed(t, l, x) { WarmPromoted(s, t, l, e, k, c, to, x); }
    }

    /** The layer's VRAM is a prefill's: nobody is resident there. */
    static ghost predicate LentOut(p: Pool) {
      p.lent && forall e | 0 <= e < |p.gExpertSlot| :: p.gExpertSlot[e] == EMPTY
    }

    /** Lends the VRAM tiers of some layers to a prefill: every copy lands first, then those layers forget their VRAM.
        */
    method LendBegin(layers: seq<nat>)
      requires Valid()
      modifies this`pools, this`pendingSwaps, this`pendingRelease, this`ringBusy, this`landing, this`mem,
               this`compute, this`side
      ensures Valid() && AllSettled(State()) && |pools| == |old(pools)|
      ensures forall i | 0 <= i < |layers| && layers[i] < |pools| :: LentOut(pools[layers[i]])
      ensures forall l: nat, e: nat | l < |pools| && l !in layers && Resident(old(pools)[l], e) :: Resident(pools[l], e)
      ensures forall l: nat | l < |pools| && l !in layers ::
        pools[l].gpu == old(pools)[l].gpu && pools[l].gExpertSlot == old(pools)[l].gExpertSlot
    {
      SettlePromotions();
      LendAll(layers);
    }

    method LendAll(layers: seq<nat>)
      requires Valid() && AllSettled(State())
      modifies this`pools
      ensures Valid() && AllSettled(State()) && |pools| == |old(pools)|
      ensures forall i | 0 <= i < |layers| && layers[i] < |pools| :: LentOut(pools[layers[i]])
      ensures forall l | 0 <= l < |pools| && l !in layers :: pools[l] == old(pools)[l]
    {
      hide Inv, Accounted, Shape, LentOut;
      for i := 0 to |layers|
        invariant Valid() && AllSettled(State()) && |pools| == |old(pools)|
        invariant forall l | 0 <= l < |pools| && l !in layers :: pools[l] == old(pools)[l]
        invariant forall j | 0 <= j < i && layers[j] < |pools| :: LentOut(pools[layers[j]])
      {
        if layers[i] < |pools| { Lend(layers[i]); }
      }
    }

    method Lend(l: nat)
      requires Valid() && AllSettled(State()) && l < |pools|
      modifies this`pools
      ensures Valid() && pools == old(pools)[l := Lent(old(pools[l]))] && LentOut(pools[l])
    {
      ghost var s := State();
      pools := pools[l := Lent(pools[l])];
      LendKeeps(s, l);
      LendAccounted(s, l);
    }

    method Return(l: nat)
      requires Valid() && l < |pools|
      modifies this`pools
      ensures Valid() && pools == old(pools)[l := old(pools[l]).(lent := false)]
      ensures old(pools[l]).lent ==> FreshTier(pools[l], fetchEpoch) && (pools[l].gpu != [] ==> Vacant(pools[l]))
    {
      ghost var s := State();
      ReturnKeeps(s, l);
      ReturnAccounted(s, l);
      LentEmpty(l);
      assert PoolShape(pools[l], nExpert);
      pools := pools[l := pools[l].(lent := false)];
    }

    /** A lent tier holds nobody. */
    lemma LentEmpty(l: nat)
      requires Sound() && l < |pools|
      ensures pools[l].lent ==> forall g | 0 <= g < |pools[l].gpu| :: pools[l].gpu[g].expert < 0
    {
      assert LayerOk(Settled(State()), n, nExpert, landing, pendingSwaps, l, pools[l]);
      forall g | 0 <= g < |pools[l].gpu| && pools[l].lent ensures pools[l].gpu[g].expert < 0 {
        assert GpuOk(Settled(State()), n, l, g, pools[l].gpu[g], pools[l].lent);
      }
    }

    static ghost predicate NoneLent(pools: seq<Pool>, layers: seq<nat>) {
      forall l | l in layers && l < |pools| :: !pools[l].lent
    }

    /** The i-th of the layers is lent, and listed for the first time. */
    static ghost predicate FirstLent(pools: seq<Pool>, layers: seq<nat>, i: nat) {
      i < |layers| && layers[i] < |pools| && pools[layers[i]].lent && layers[i] !in layers[..i]
    }

    /** Takes the lent tiers back, empty, and refills them from RAM. A refill never evicts anybody, and leaves each tier
        with nothing a promotion may displace. It does not wait for read-backs itself: they must have landed when the
        tiers were lent. */
    method LendEnd(layers: seq<nat>, candidates: seq<seq<nat>>)
      requires Valid() && landing == [] && tick >= fetchEpoch && |candidates| == |layers|
      modifies this`pools, this`ringBusy, this`pendingSwaps, this`pendingRelease, this`compute
      ensures Valid() && Conserves(old(pools), pools) && Returned(old(pools), pools, fetchEpoch)
      ensures NoneLent(pools, layers) && forall l | 0 <= l < |pools| && l !in layers :: pools[l] == old(pools)[l]
      ensures forall i | 0 <= i < |layers| && FirstLent(old(pools), layers, i) ::
        TakenUp(old(pools)[layers[i]], pools[layers[i]], candidates[i])
    {
      hide Inv, Accounted, Shape, TakenUp;
      for i := 0 to |layers|
        invariant Valid() && Conserves(old(pools), pools) && Returned(old(pools), pools, fetchEpoch)
        invariant NoneLent(pools, layers[..i])
        invariant forall l | 0 <= l < |pools| && l !in layers[..i] :: pools[l] == old(pools)[l]
        invariant forall j | 0 <= j < i && FirstLent(old(pools), layers, j) ::
          TakenUp(old(pools)[layers[j]], pools[layers[j]], candidates[j])
      {
        assert layers[..i + 1] == layers[..i] + [layers[i]];
        if layers[i] < |pools| && pools[layers[i]].lent {
          ghost var before := pools;
          TakeBack(layers[i], candidates[i]);
          assert NoneLent(pools, layers[..i + 1]);
          ReturnedOneMore(old(pools), before, pools, layers[i], fetchEpoch);
          ConservesTrans(old(pools), before, pools);
        }
      }
    }

    /** A tier taken back with slots in it, and a candidate in RAM, has somebody in it again. */
    static ghost predicate TakenUp(p: Pool, q: Pool, candidates: seq<nat>) {
      p.gpu != [] && (exists c :: c in candidates && InRam(p, c)) ==> Occupied(q)
    }

    method TakeBack(l: nat, candidates: seq<nat>)
      requires Valid() && landing == [] && tick >= fetchEpoch && l < |pools| && pools[l].lent
      modifies this`pools, this`ringBusy, this`pendingSwaps, this`pendingRelease, this`compute
      ensures Valid() && Conserves(old(pools), pools) && pools == old(pools)[l := pools[l]]
      ensures !pools[l].lent && FreshTier(pools[l], fetchEpoch)
      ensures TakenUp(old(pools[l]), pools[l], candidates)
    {
      Return(l);
      ghost var q := pools;
      PromoteAll(l, candidates);
      ReturnRefills(old(pools), q, pools, l, fetchEpoch);
    }

    static lemma ConservesTrans(p: seq<Pool>, q: seq<Pool>, r: seq<Pool>)
      requires Conserves(p, q) && Conserves(q, r)
      ensures Conserves(p, r)
    {
    }

    static lemma ReturnRefills(p: seq<Pool>, q: seq<Pool>, r: seq<Pool>, l: nat, epoch: nat)
      requires l < |p| && q == p[l := p[l].(lent := false)] && FreshTier(q[l], epoch) && Refills(q, r, l, epoch)
      ensures Conserves(p, r) && |r| == |p| && r == p[l := r[l]] && !r[l].lent && FreshTier(r[l], epoch)
    {
      assert r == p[l := r[l]];
    }

    ghost predicate NotInVram(l: nat, ids: seq<nat>)
      requires l < |pools|
      reads this
    {
      forall i | 0 <= i < |ids| ::
          ids[i] < nExpert && ids[i] < |pools[l].gExpertSlot| && pools[l].gExpertSlot[ids[i]] < 0
    }

    /** Blocking reads into RAM slots, for experts VRAM does not hold. */
    method Prefetch(l: nat, ids: seq<nat>)
      requires Valid() && l < |pools| && NotInVram(l, ids)
      modifies this`pools, this`claims, this`mem, this`side, this`landing, this`ringBusy
      ensures Valid() && SameVram(old(pools), pools)
      ensures forall i | 0 <= i < |claims| :: claims[i].kind != Batch
    {
      PrefetchStart(l, ids);
      ghost var q := pools;
      ReapAll(Batch);
      SameMapsVram(q, pools);
    }

    /** The slots are claimed and the reads start. */
    method PrefetchStart(l: nat, ids: seq<nat>)
      requires Valid() && l < |pools| && NotInVram(l, ids)
      modifies this`pools, this`claims, this`mem, this`side, this`landing, this`ringBusy
      ensures Valid() && SameVram(old(pools), pools)
      ensures old(landing) == [] ==> landing == [] && side == old(side) && FirstSought(old(State()), State(), l, ids)
    {
      LandLayer(l);
      StartReads(l, ids);
    }

    /** The first expert no slot names has a read coming if there was a slot to refill. */
    static ghost predicate FirstSought(s: State, t: State, l: nat, ids: seq<nat>) {
      ids != [] && Unnamed(s, l, ids[0]) && (exists k :: Evictable(s, l, k)) ==> Flying(t, Batch, l, ids[0])
    }

    method StartReads(l: nat, ids: seq<nat>)
      requires Valid() && l < |pools| && NotInVram(l, ids) && NoLanding(State(), l)
      modifies this`pools, this`claims
      ensures Valid() && SameVram(old(pools), pools) && FirstSought(old(State()), State(), l, ids)
    {
      hide Flying, Unnamed, Reads;
      for i := 0 to |ids|
        invariant Valid() && SameVram(old(pools), pools)
        invariant i > 0 ==> FirstSought(old(State()), State(), l, ids)
        invariant i == 0 ==> State() == old(State())
      {
        ghost var before, s := pools, State();
        assert before[l].gExpertSlot == old(pools[l]).gExpertSlot;
        ReadOne(l, ids[i]);
        SameVramTrans(old(pools), before, pools);
        if i > 0 { FirstFlies(old(State()), s, State(), l, ids); }
      }
    }

    method ReadOne(l: nat, e: nat)
      requires Valid() && IsExpert(State(), l, e) && NoLanding(State(), l) && e < |pools[l].gExpertSlot|
          && pools[l].gExpertSlot[e] < 0
      modifies this`pools, this`claims
      ensures Valid() && SameVram(old(pools), pools) && Reads(old(State()), State(), Batch)
      ensures FirstSought(old(State()), State(), l, [e])
    {
      hide Inv, Accounted;
      ghost var before := State();
      NoReads(before, before, Batch);
      var inVram, s := Find(l, e);
      if s < 0 {
        s := TakeSlot(Batch, l, e);
        if s >= 0 { ClaimReads(before, Batch, l, s, e); }
      }
    }

    static lemma FirstFlies(s: State, t: State, u: State, l: nat, ids: seq<nat>)
      requires FirstSought(s, t, l, ids) && Reads(t, u, Batch)
      ensures FirstSought(s, u, l, ids)
    {
    }

    /** A batch of the restore: those of the wanted experts VRAM does not have yet start to be read. */
    method ReadMissing(l: nat, wanted: seq<nat>) returns (ids: seq<nat>)
      requires Valid() && l < |pools| && landing == []
      modifies this`pools, this`claims, this`mem, this`side, this`landing, this`ringBusy
      ensures Valid() && SameVram(old(pools), pools) && landing == [] && side == old(side)
      ensures forall e | e in wanted && e < nExpert ::
          e in ids <==> e < |old(pools[l]).gExpertSlot| && old(pools[l]).gExpertSlot[e] < 0
      ensures Brings(old(State()), l, wanted) ==> wanted[0] in ids && Flying(State(), Batch, l, wanted[0])
    {
      ids := Missing(l, wanted);
      PrefetchStart(l, ids);
    }

    method Missing(l: nat, wanted: seq<nat>) returns (ids: seq<nat>)
      requires Valid() && l < |pools|
      ensures NotInVram(l, ids)
      ensures forall e | e in wanted && e < nExpert ::
          e in ids <==> e < |pools[l].gExpertSlot| && pools[l].gExpertSlot[e] < 0
      ensures wanted != [] && OutOfVram(State(), l, wanted[0]) ==> ids != [] && ids[0] == wanted[0]
    {
      ids := [];
      for i := 0 to |wanted|
        invariant NotInVram(l, ids)
        invariant forall e | e in wanted[..i] && e < nExpert ::
            e in ids <==> e < |pools[l].gExpertSlot| && pools[l].gExpertSlot[e] < 0
        invariant i > 0 && OutOfVram(State(), l, wanted[0]) ==> ids != [] && ids[0] == wanted[0]
        invariant i == 0 ==> ids == []
      {
        if wanted[i] < nExpert {
          LayerFacts(l, wanted[i]);
          var g := pools[l].gExpertSlot[wanted[i]];
          if !(g >= 0 && pools[l].gpu[g].valid && pools[l].gpu[g].expert == wanted[i]) { ids := ids + [wanted[i]]; }
        }
      }
    }

    /** One batch of the restore: promoted, and the next layer's batch read beside the uploads; the same layer's only
        after they have landed. */
    method RestoreStep(cur: nat, ids: seq<nat>, nxt: nat, wanted: seq<nat>) returns (next: seq<nat>)
      requires Valid() && landing == [] && tick >= fetchEpoch && cur < |pools| && nxt < |pools|
      requires FreshTier(pools[cur], fetchEpoch)
      modifies this`pools, this`claims, this`mem, this`side, this`landing, this`ringBusy, this`pendingSwaps,
               this`pendingRelease, this`compute
      ensures Valid() && AllSettled(State()) && Restores(old(pools), pools, fetchEpoch)
      ensures forall i | 0 <= i < |claims| :: claims[i].kind != Batch
      ensures StayOccupied(old(pools), pools)
      ensures var p := old(pools)[cur];
        Vacant(p) && !p.lent && (exists e :: e in ids && InRam(p, e)) ==> Occupied(pools[cur])
    {
      hide Inv, Accounted, Vacant, InRam, Occupied;
      PromoteAll(cur, ids);
      RefillRestores(old(pools), pools, cur, fetchEpoch);
      ghost var q := pools;
      PromotedOccupied(old(pools), q, cur, ids);
      next := ReadBeside(cur, nxt, wanted);
      SameVramRestores(q, pools, fetchEpoch);
      RestoresTrans(old(pools), q, pools, fetchEpoch);
      SameVramOccupied(q, pools);
    }

    static ghost predicate StayOccupied(p: seq<Pool>, q: seq<Pool>) {
      |q| == |p| && forall l | 0 <= l < |p| && Occupied(p[l]) :: Occupied(q[l])
    }

    static lemma SameVramOccupied(p: seq<Pool>, q: seq<Pool>)
      requires SameVram(p, q)
      ensures StayOccupied(p, q)
    {
    }

    static lemma PromotedOccupied(p: seq<Pool>, q: seq<Pool>, l: nat, ids: seq<nat>)
      requires l < |p| == |q| && q == p[l := q[l]] && TakesOne(p[l], q[l], ids, |ids|)
      ensures StayOccupied(p, q)
      ensures Vacant(p[l]) && !p[l].lent && (exists e :: e in ids && InRam(p[l], e)) ==> Occupied(q[l])
    {
    }

    method ReadBeside(cur: nat, nxt: nat, wanted: seq<nat>) returns (next: seq<nat>)
      requires Valid() && landing == [] && nxt < |pools|
      modifies this`pools, this`claims, this`mem, this`side, this`landing, this`ringBusy, this`pendingSwaps,
               this`pendingRelease, this`compute
      ensures Valid() && AllSettled(State()) && SameVram(old(pools), pools)
      ensures forall i | 0 <= i < |claims| :: claims[i].kind != Batch
      ensures nxt == cur && old(AllSettled(State())) && Brings(old(State()), nxt, wanted) ==>
        wanted[0] in next && InRam(pools[nxt], wanted[0])
    {
      next := SettleBeside(nxt == cur, nxt, wanted);
      ghost var p := pools;
      FinishReads(nxt);
      SameVramTrans(old(pools), p, pools);
    }

    method SettleBeside(first: bool, l: nat, wanted: seq<nat>) returns (next: seq<nat>)
      requires Valid() && landing == [] && l < |pools|
      modifies this`pools, this`claims, this`mem, this`side, this`landing, this`ringBusy, this`pendingSwaps,
               this`pendingRelease, this`compute
      ensures Valid() && AllSettled(State()) && SameVram(old(pools), pools)
      ensures first && old(AllSettled(State())) && Brings(old(State()), l, wanted) ==>
        wanted[0] in next && Flying(State(), Batch, l, wanted[0])
    {
      if first { SettlePromotions(); }
      ghost var q := pools;
      next := ReadMissing(l, wanted);
      SameVramTrans(old(pools), q, pools);
      if !first {
        ghost var r := pools;
        SettlePromotions();
        SameVramTrans(old(pools), r, pools);
      }
    }

    method FinishReads(ghost l: nat)
      requires Valid() && AllSettled(State())
      modifies this`pools, this`claims, this`mem
      ensures Valid() && AllSettled(State()) && SameVram(old(pools), pools)
      ensures forall i | 0 <= i < |claims| :: claims[i].kind != Batch
      ensures forall x: nat | x < nExpert && Flying(old(State()), Batch, l, x) :: InRam(pools[l], x)
    {
      ghost var s := State();
      ReapAll(Batch);
      forall x: nat | x < nExpert && Flying(s, Batch, l, x) ensures InRam(pools[l], x) {
        FlyingLands(s, State(), pending, Batch, l, x);
      }
      SameMapsVram(old(pools), pools);
    }

    static lemma SameVramTrans(p: seq<Pool>, q: seq<Pool>, r: seq<Pool>)
      requires SameVram(p, q) && SameVram(q, r)
      ensures SameVram(p, r)
    {
    }

    /** The tiers are filled back with what they held before the prefill, batch by batch, until the time is up. No batch
        displaces what an earlier one or the refill brought, and a vacant tier whose batch comes first gets somebody.
        `began`: the cache once the refill has settled. */
    method LendRestore(batches: seq<(nat, seq<nat>)>) returns (ghost began: State)
      requires Valid() && tick >= fetchEpoch
      requires AllFresh(pools, batches, fetchEpoch)
      modifies this`pools, this`claims, this`mem, this`side, this`landing, this`ringBusy, this`pendingSwaps,
               this`pendingRelease, this`compute
      ensures Valid() && AllSettled(State()) && Restores(old(pools), pools, fetchEpoch)
      ensures forall m | 0 <= m < |pools| :: TiersDisjoint(pools[m])
      ensures AllSettled(began) && SameVram(old(pools), began.pools)
      ensures batches != [] && FirstBrought(began, batches[0].0, batches[0].1) ==> Occupied(pools[batches[0].0])
    {
      SettlePromotions();
      began := State();
      SameVramRestores(old(pools), pools, fetchEpoch);
      if batches != [] {
        ghost var q := pools;
        StillFresh(old(pools), q, batches, fetchEpoch);
        RestoreAll(batches);
        RestoresTrans(old(pools), q, pools, fetchEpoch);
      }
      SettledDisjoint(State());
    }

    /** A vacant tier may be promoted into, and the first expert wanted for it can be brought. */
    static ghost predicate FirstBrought(s: State, l: nat, wanted: seq<nat>) {
      Brings(s, l, wanted) && Vacant(s.pools[l]) && !s.pools[l].lent
    }

    /** The batch about to be promoted has the expert in RAM, and the tier is still vacant. */
    static ghost predicate FirstReady(p: Pool, ids: seq<nat>, wanted: seq<nat>) {
      wanted != [] && wanted[0] in ids && InRam(p, wanted[0]) && Vacant(p) && !p.lent
    }

    lemma BroughtReady(s: State, l: nat, wanted: seq<nat>, ids: seq<nat>)
      requires FirstBrought(s, l, wanted) && SameVram(s.pools, pools) && wanted[0] in ids && InRam(pools[l], wanted[0])
      ensures FirstReady(pools[l], ids, wanted)
    {
    }

    static ghost predicate AllFresh(pools: seq<Pool>, batches: seq<(nat, seq<nat>)>, epoch: nat) {
      forall b | b in batches :: b.0 < |pools| && FreshTier(pools[b.0], epoch)
    }

    static lemma StillFresh(p: seq<Pool>, q: seq<Pool>, batches: seq<(nat, seq<nat>)>, epoch: nat)
      requires AllFresh(p, batches, epoch) && Restores(p, q, epoch)
      ensures AllFresh(q, batches, epoch)
    {
    }

    method RestoreAll(batches: seq<(nat, seq<nat>)>)
      requires Valid() && AllSettled(State()) && tick >= fetchEpoch && batches != []
      requires AllFresh(pools, batches, fetchEpoch)
      modifies this`pools, this`claims, this`mem, this`side, this`landing, this`ringBusy, this`pendingSwaps,
               this`pendingRelease, this`compute
      ensures Valid() && AllSettled(State()) && Restores(old(pools), pools, fetchEpoch)
      ensures FirstBrought(old(State()), batches[0].0, batches[0].1) ==> Occupied(pools[batches[0].0])
    {
      hide Inv, Accounted, InRam, Occupied, Vacant;
      assert batches[0] in batches;
      ghost var began := State();
      var ids := ReadBeside(batches[0].0, batches[0].0, batches[0].1);
      if FirstBrought(began, batches[0].0, batches[0].1) {
        BroughtReady(began, batches[0].0, batches[0].1, ids);
      }
      SameVramRestores(old(pools), pools, fetchEpoch);
      var outOfTime, i := false, 0;
      while i < |batches| && !outOfTime
        invariant i <= |batches| && Valid() && AllSettled(State()) && Restores(old(pools), pools, fetchEpoch)
        invariant FirstBrought(old(State()), batches[0].0, batches[0].1) ==>
          if i > 0 then Occupied(pools[batches[0].0]) else FirstReady(pools[batches[0].0], ids, batches[0].1)
        invariant i == 0 ==> !outOfTime
        decreases |batches| - i
      {
        outOfTime := *;
        ghost var before := pools;
        StillFresh(old(pools), pools, batches, fetchEpoch);
        ids := RestoreNext(batches, i, ids, outOfTime);
        RestoresTrans(old(pools), before, pools, fetchEpoch);
        i := i + 1;
      }
    }

    method RestoreNext(batches: seq<(nat, seq<nat>)>, i: nat, ids: seq<nat>, outOfTime: bool) returns (next: seq<nat>)
      requires Valid() && AllSettled(State()) && tick >= fetchEpoch && i < |batches|
      requires AllFresh(pools, batches, fetchEpoch)
      modifies this`pools, this`claims, this`mem, this`side, this`landing, this`ringBusy, this`pendingSwaps,
               this`pendingRelease, this`compute
      ensures Valid() && AllSettled(State()) && Restores(old(pools), pools, fetchEpoch)
      ensures StayOccupied(old(pools), pools)
      ensures var p := old(pools)[batches[i].0];
        Vacant(p) && !p.lent && (exists e :: e in ids && InRam(p, e)) ==> Occupied(pools[batches[i].0])
    {
      assert batches[i] in batches;
      if i + 1 < |batches| && !outOfTime {
        assert batches[i + 1] in batches;
        next := RestoreStep(batches[i].0, ids, batches[i + 1].0, batches[i + 1].1);
      } else {
        next := RestoreStep(batches[i].0, ids, batches[i].0, []);
      }
    }

    /** A prompt's experts copied into RAM from the prefill's staging, the first ones promoted. */
    method Warm(l: nat, items: seq<nat>, nVram: nat)
      requires Valid() && tick >= fetchEpoch
      modifies this`pools, this`claims, this`mem, this`side, this`landing, this`ringBusy, this`pendingSwaps,
               this`pendingRelease, this`compute, this`live, this`tick
      ensures Valid() && |pools| == |old(pools)|
      ensures l < |pools| && items != [] ==> NoneLeft(Host)
      ensures l < |pools| && Distinct(items) && |Free(old(State()).(live := []), l)| >= |items| ==>
        forall e | e in items && e < nExpert && Plain(old(pools[l]), e) :: InRam(pools[l], e)
      ensures Promising(old(State()), l, items, nVram) && Vacant(old(pools[l])) && !old(pools[l]).lent ==>
        Occupied(pools[l])
      ensures l < |pools| ==> |pools[l].gExpertSlot| == |old(pools[l]).gExpertSlot|
      ensures l < |pools| ==> forall e: nat | e < |pools[l].gExpertSlot| && pools[l].gExpertSlot[e] >= 0 ::
        old(pools[l]).gExpertSlot[e] >= 0 || exists i :: 0 <= i < nVram && i < |items| && items[i] == e
    {
      hide Inv, Accounted, Homed, Plain;
      ghost var before := State();
      if l < |pools| && items != [] {
        var promote := Stage(l, items, nVram);
        ghost var staged := State();
        PromoteAll(l, promote);
        if Promising(before, l, items, nVram) && Vacant(before.pools[l]) && !before.pools[l].lent {
          FirstHomed(staged, l, items[0]);
        }
        assert NoneLeft(Host);
        forall e: nat | Homed(State(), l, e) ensures InRam(pools[l], e) { HomedInRam(l, e); }
        Forget();
      }
    }

    static lemma FirstHomed(s: State, l: nat, e: nat)
      requires Homed(s, l, e) && forall i | 0 <= i < |s.claims| :: s.claims[i].kind != Host
      ensures InRam(s.pools[l], e)
    {
    }

    lemma HomedInRam(l: nat, e: nat)
      requires Homed(State(), l, e) && NoneLeft(Host)
      ensures InRam(pools[l], e)
    {
    }

    /** The copies are done and the blocks valid; what is to be promoted is still listed as in use. */
    method Stage(l: nat, items: seq<nat>, nVram: nat) returns (promote: seq<nat>)
      requires Valid() && l < |pools|
      modifies this`pools, this`claims, this`mem, this`side, this`landing, this`ringBusy, this`live, this`tick
      ensures Valid() && |pools| == |old(pools)| && NoLanding(State(), l) && tick >= old(tick)
          && AllListed(pools[l], promote, live)
      ensures NoneLeft(Host) && AmongFirst(promote, items, nVram) && VramStays(old(pools), pools, l)
      ensures Distinct(items) && |Free(old(State()).(live := []), l)| >= |items| ==>
        forall e | e in items && e < nExpert && Plain(old(pools[l]), e) :: Homed(State(), l, e)
      ensures FirstOffered(old(State()), State(), l, items, nVram, promote)
      ensures pools[l].lent == old(pools[l]).lent
    {
      hide Inv, Accounted, Homed, Plain;
      ghost var p, room := pools[l], |Free(State().(live := []), l)|;
      ghost var before := State();
      LandLayer(l);
      assert Free(State().(live := []), l) == Free(before.(live := []), l);
      PromisingStill(before, State(), l, items, nVram);
      promote := AdmitAll(l, items, nVram);
      ghost var s := State();
      HostDone(l);
      assert forall e | e in items :: exists j :: 0 <= j < |items| && items[j] == e;
    }

    static lemma PromisingStill(s: State, t: State, l: nat, items: seq<nat>, nVram: nat)
      requires t == s.(mem := t.mem, side := t.side, landing := t.landing, ringBusy := t.ringBusy)
      ensures Promising(s, l, items, nVram) ==> Promising(t, l, items, nVram)
    {
      if Promising(s, l, items, nVram) {
        var k :| Evictable(s.(live := []), l, k);
        assert Evictable(t.(live := []), l, k);
      }
    }

    static lemma OfferedStill(s: State, t: State, u: State, l: nat, items: seq<nat>, i: nat, nVram: nat,
            promote: seq<nat>, more: seq<nat>)
      requires FirstOffered(s, t, l, items, nVram, promote) && 0 < i < |items| && promote <= more
      requires u == t || Warmed(t, u, l, items[i])
      ensures FirstOffered(s, u, l, items, nVram, more)
    {
      if Distinct(items) { assert items[i] != items[0]; }
    }

    method HostDone(l: nat)
      requires Valid() && l < |pools|
      modifies this`pools, this`claims, this`mem
      ensures Valid() && SameMaps(old(pools), pools) && NoneLeft(Host)
      ensures pools[l].lent == old(pools[l]).lent
      ensures forall x: nat | x < nExpert && Homed(old(State()), l, x) :: Homed(State(), l, x)
    {
      ghost var s := State();
      ReapAll(Host);
      hide Inv, Accounted, Homed;
      forall x: nat | x < nExpert && Homed(s, l, x) ensures Homed(State(), l, x) {
        HostReaped(s, l, x);
      }
    }

    lemma HostReaped(s: State, l: nat, x: nat)
      requires Inv(s) && Shape(s) && Accounted(s) && Sound() && Homed(s, l, x) && x < nExpert
      requires Reaping(s, State(), pending) && OnlyRaised(s.pools, pools) && live == s.live && NoneLeft(Host)
      ensures Homed(State(), l, x)
    {
      WarmReaped(s, State(), pending, l, x);
    }

    ghost predicate NoneLeft(kind: Kind)
      reads this
    {
      forall i | 0 <= i < |claims| :: claims[i].kind != kind
    }

    /** Nothing is listed as in use any more. */
    method Forget()
      requires Valid()
      modifies this`live
      ensures Valid() && live == []
    {
      ghost var s := State();
      live := [];
      Bookkept(s);
    }

    /** The first expert, if it is plain and a slot may be refilled, is offered to VRAM. */
    static ghost predicate FirstOffered(s: State, t: State, l: nat, items: seq<nat>, nVram: nat, promote: seq<nat>) {
      Promising(s, l, items, nVram) ==> items[0] in promote && Homed(t, l, items[0])
    }

    static ghost predicate Promising(s: State, l: nat, items: seq<nat>, nVram: nat) {
      && items != [] && Distinct(items) && nVram > 0 && l < |s.pools|
      && items[0] < s.nExpert && Plain(s.pools[l], items[0])
      && exists k :: Evictable(s.(live := []), l, k)
    }

    /** Each is one of the first n. */
    static ghost predicate AmongFirst(xs: seq<nat>, items: seq<nat>, n: nat) {
      forall x | x in xs :: exists i :: 0 <= i < n && i < |items| && items[i] == x
    }

    method AdmitAll(l: nat, items: seq<nat>, nVram: nat) returns (promote: seq<nat>)
      requires Valid() && l < |pools| && NoLanding(State(), l)
      modifies this`pools, this`claims, this`live, this`tick
      ensures Valid() && |pools| == |old(pools)| && tick >= old(tick) && AllListed(pools[l], promote, live)
      ensures Warming(old(pools[l]), |Free(old(State()).(live := []), l)|, State(), l, items, |items|)
      ensures AmongFirst(promote, items, nVram) && FirstOffered(old(State()), State(), l, items, nVram, promote)
    {
      hide Inv, Accounted, Warming, Warmed, Homed, Plain;
      ghost var p, room := pools[l], |Free(State().(live := []), l)|;
      Forget();
      WarmStarts(p, room, State(), l, items);
      promote := [];
      for i := 0 to |items|
        invariant Valid() && |pools| == |old(pools)| && NoLanding(State(), l) && tick >= old(tick)
        invariant AllListed(pools[l], promote, live) && AmongFirst(promote, items, nVram)
        invariant Warming(p, room, State(), l, items, i)
        invariant i == 0 ==> State() == old(State()).(live := [])
        invariant i > 0 ==> FirstOffered(old(State()), State(), l, items, nVram, promote)
      {
        ghost var before := State();
        ghost var listed := promote;
        promote := Admit(l, items[i], promote, i < nVram);
        WarmNext(p, room, before, State(), l, items, i);
        if i > 0 { OfferedStill(old(State()), before, State(), l, items, i, nVram, listed, promote); }
      }
    }

    /** The slot has the expert's block already, or has just been taken for it, its own having none. */
    static ghost predicate Hosted(s: State, t: State, l: nat, e: nat, k: nat) {
      && l < |s.pools| && e < |s.pools[l].expertSlot|
      && var own := s.pools[l].expertSlot[e];
      && if t == s then own == k && IsRam(s, l, k) && s.pools[l].ram[k].valid && s.pools[l].ram[k].expert == e
         else MayClaim(s, l, k, e) && t == ClaimSlot(s, Host, l, k, e)
              && !(0 <= own < |s.pools[l].ram| && s.pools[l].ram[own].valid)
    }

    static lemma PlainAbsent(p: Pool, e: nat)
      requires e < |p.gExpertSlot| && p.gExpertSlot[e] < |p.gpu| && (p.gExpertSlot[e] >= 0 ==> InVram(p, e))
      ensures Plain(p, e) ==> p.gExpertSlot[e] < 0
    {
    }

    lemma HostedWarms(s: State, u: State, l: nat, e: nat, k: nat)
      requires Hosted(s, u, l, e, k) && PoolShape(s.pools[l], s.nExpert) && MapsOk(s.pools[l], s.nExpert)
      requires State() == u.(live := u.live + [k], tick := tick)
      ensures Warmed(s, State(), l, e) && (Plain(s.pools[l], e) ==> Homed(State(), l, e))
    {
      if u == s { WarmFound(s, State(), l, e, k); } else { WarmTaken(s, State(), l, k, e); }
    }

    /** The expert's RAM slot, taken if it has none; EMPTY if VRAM has the expert or no slot may be refilled. */
    method HostSlot(l: nat, e: nat, ghost listed: seq<nat>) returns (s: int)
      requires Valid() && IsExpert(State(), l, e) && NoLanding(State(), l)
      modifies this`pools, this`claims
      ensures Valid() && |pools| == |old(pools)|
          && (s >= 0 ==> e < |pools[l].expertSlot| && pools[l].expertSlot[e] == s)
      ensures AllListed(old(pools[l]), listed, live)
          ==> AllListed(pools[l], listed, if s >= 0 then live + [s] else live)
      ensures s < 0 ==> State() == old(State()) && (OutOfVram(State(), l, e) ==> NoVictim(l))
      ensures s >= 0 ==> Hosted(old(State()), State(), l, e, s)
    {
      var inVram;
      inVram, s := Find(l, e);
      if inVram { return EMPTY; }
      if s < 0 { s := TakeSlot(Host, l, e); }
    }

    /** One warmed expert: its slot, found or taken, is listed as in use; a wanted one joins those to promote. */
    method Admit(l: nat, e: nat, listed: seq<nat>, wanted: bool) returns (promote: seq<nat>)
      requires Valid() && l < |pools| && NoLanding(State(), l)
      modifies this`pools, this`claims, this`live, this`tick
      ensures Valid() && |pools| == |old(pools)| && tick >= old(tick)
      ensures AllListed(old(pools[l]), listed, old(live)) ==> AllListed(pools[l], promote, live)
      ensures State() == old(State()) || Warmed(old(State()), State(), l, e)
      ensures e < nExpert && Plain(old(pools[l]), e) ==> Homed(State(), l, e) || old(NoVictim(l))
      ensures promote == listed || (wanted && promote == listed + [e])
      ensures wanted && e < nExpert && Plain(old(pools[l]), e) && !old(NoVictim(l)) ==> promote == listed + [e]
    {
      hide Inv, Accounted, Warmed, Homed, Plain;
      if e >= nExpert { return listed; }
      LayerFacts(l, e);
      PlainAbsent(pools[l], e);
      ghost var before := State();
      var s := HostSlot(l, e, listed);
      if s < 0 { return listed; }
      ghost var hosted := State();
      Protect(s);
      HostedWarms(before, hosted, l, e, s);
      return if wanted then listed + [e] else listed;
    }

    /** One batched expert: served from a tier, else read into a free slot if one is found, else into the bounce. */
    method BatchOne(l: nat, e: nat, bounced: nat) returns (x: Source)
      requires Valid() && IsExpert(State(), l, e) && NoLanding(State(), l) && Unread(State(), l, e)
      modifies this`pools, this`claims, this`mem
      ensures Valid() && |pools| == |old(pools)| && OnlyAdds(old(pools[l]), pools[l]) && old(claims) <= claims
      ensures Sourced(State(), l, e, x) && (x.FromBounce? ==> x.index == bounced)
      ensures forall y: nat | y != e && Unread(old(State()), l, y) :: Unread(State(), l, y)
      ensures forall i | |old(claims)| <= i < |claims| :: claims[i].layer == l && claims[i].expert == e
      ensures GivenUp.Turned(old(State()), State(), l, e)
    {
      LayerFacts(l, e);
      var p := pools[l];
      var g := p.gExpertSlot[e];
      if g >= 0 && p.gpu[g].valid && p.gpu[g].expert == e { return FromVram(g); }
      var k := p.expertSlot[e];
      if k >= 0 && p.ram[k].expert == e && p.ram[k].valid {
        ghost var s := State();
        ToFileLayout(l, k);
        ConvertAdds(s, l, k);
        return FromRam(k);
      }
      var v := Adopt(l, e);
      return if v >= 0 then FromRam(v) else FromBounce(bounced);
    }

    /** An empty slot, if sampling finds one, takes the expert; its reads start. */
    method Adopt(l: nat, e: nat) returns (v: int)
      requires Valid() && IsExpert(State(), l, e) && NoLanding(State(), l) && e < |pools[l].gExpertSlot|
          && pools[l].gExpertSlot[e] < 0 && !GivenUp.InTiers(pools[l], e)
      modifies this`pools, this`claims
      ensures Valid() && |pools| == |old(pools)| && OnlyAdds(old(pools[l]), pools[l]) && old(claims) <= claims
      ensures State() == old(State()) || GivenUp.Adopts(old(State()), State(), l, e)
      ensures v >= 0 ==> Held(State(), l, e, v)
      ensures forall y: nat | y != e && Unread(old(State()), l, y) :: Unread(State(), l, y)
      ensures forall i | |old(claims)| <= i < |claims| :: claims[i].layer == l && claims[i].expert == e
    {
      ghost var s := State();
      var p := pools[l];
      if p.ram == [] { return EMPTY; }
      v :| 0 <= v < |p.ram|;
      if p.ram[v].expert != EMPTY || p.ram[v].pinned { return EMPTY; }
      assert PoolShape(p, nExpert);
      pools := pools[l := p.(ram := p.ram[v := RamSlot(e, false, false, p.ram[v].pinned)],
          expertSlot := p.expertSlot[e := v])];
      claims := claims + [Claim(Batch, l, e, v, Pieces(n))];
      assert GivenUp.MayAdopt(s, l, v, e) && State() == ClaimSlot(s, Batch, l, v, e);
      Claimed(s, Batch, l, v, e);
      AdoptAdds(s, l, v, e);
    }

    /** Every expert of a batch gets a source; what was read is there when the call returns. An expert out of range ends
        the call at once: what it adopted by then (`states`: the state before each expert) is marked valid although
        nothing was read. The tiers tell the truth all the same if nothing could be adopted (see GivenUpIff). */
    method FetchBatch(l: nat, ids: seq<nat>) returns (ok: bool, out: seq<Source>, ghost states: seq<State>)
      requires Valid() && l < |pools| && Distinct(ids) && forall i | 0 <= i < |ids| && ids[i] < nExpert ::
          Unread(State(), l, ids[i])
      requires NoneLeft(Batch)
      modifies this`pools, this`claims, this`mem, this`side, this`landing, this`ringBusy
      ensures ok <==> forall i | 0 <= i < |ids| :: ids[i] < nExpert
      ensures ok ==> Valid() && l < |pools| && |out| == |ids|
      ensures ok ==> forall i | 0 <= i < |ids| :: BatchArrived(State(), l, ids[i], out[i])
      ensures ok ==> NoneLeft(Batch) && VramStays(old(pools), pools, l) && AllNamed(pools[l], ids, out)
      ensures ok ==> forall y: nat | y !in ids && Unread(old(State()), l, y) :: Unread(State(), l, y)
      ensures !ok ==> 0 < |states| <= |ids| && ids[|states| - 1] >= nExpert
      ensures !ok ==> Abandoned(old(pools), old(claims), states, l, ids[..|states| - 1])
    {
      hide Inv, Accounted, Gathering, GivenUp.Gathers;
      BatchOpen(l, ids);
      ghost var s := State();
      states, out := [s], [];
      var bounced := 0;
      for i := 0 to |ids|
        invariant Valid() && Gathering(states, l, ids, i, out) && forall j | 0 <= j < i :: ids[j] < nExpert
        invariant states != [] && states[0] == s
      {
        if ids[i] >= nExpert {
          GatheredBatch(states, l, ids, i, out);
          Abandon();
          return false, [], states;
        }
        out := BatchNext(states, l, ids, i, out, bounced);
        states := states + [State()];
        if out[i].FromBounce? { bounced := bounced + 1; }
      }
      BatchEnd(states, l, ids, out);
      ok := true;
    }

    /** What the early return leaves: the batch's turns, from tiers and reads as they were, then every slot it took
        marked valid. */
    ghost predicate Abandoned(was: seq<Pool>, owed: seq<Claim>, states: seq<State>, l: nat, ids: seq<nat>)
      reads this
    {
      && GivenUp.Gathers(states, l, ids) && GivenUp.Fit(states[0], l, ids)
      && states[0].pools == was && states[0].claims == owed && EarlyMarked(states[|ids|], State())
    }

    /** The layer's VRAM tier is as it was. */
    static ghost predicate VramStays(p: seq<Pool>, q: seq<Pool>, l: nat) {
      l < |p| == |q| && q[l].gpu == p[l].gpu && q[l].gExpertSlot == p[l].gExpertSlot
    }

    /** The VRAM slots handed out name their experts. */
    static ghost predicate AllNamed(p: Pool, ids: seq<nat>, out: seq<Source>) {
      |out| == |ids| && forall i | 0 <= i < |ids| && out[i].FromVram? ::
          out[i].slot < |p.gpu| && p.gpu[out[i].slot].expert == ids[i]
    }

    /** The batch after its first i experts. */
    ghost predicate Gathering(states: seq<State>, l: nat, ids: seq<nat>, i: nat, out: seq<Source>)
      reads this
    {
      && l < |pools| && NoLanding(State(), l) && |out| == i <= |ids| && Distinct(ids)
      && GivenUp.Gathers(states, l, ids[..i]) && states[i] == State()
      && (forall j | 0 <= j < i :: Sourced(State(), l, ids[j], out[j]))
      && (forall j | i <= j < |ids| && ids[j] < nExpert :: Unread(State(), l, ids[j]))
      && VramStays(states[0].pools, pools, l) && states[0].release == pendingRelease
      && (forall y: nat | y !in ids && Unread(states[0], l, y) :: Unread(State(), l, y))
    }

    method BatchOpen(l: nat, ids: seq<nat>)
      requires Valid() && l < |pools| && Distinct(ids) && NoneLeft(Batch)
      requires forall i | 0 <= i < |ids| && ids[i] < nExpert :: Unread(State(), l, ids[i])
      modifies this`mem, this`side, this`landing, this`ringBusy
      ensures Valid() && Gathering([State()], l, ids, 0, [])
      ensures forall b: nat | b <= |ids| && (forall i | 0 <= i < b :: ids[i] < nExpert) ::
          GivenUp.Fit(State(), l, ids[..b])
    {
      LandLayer(l);
      assert ids[..0] == [];
    }

    lemma GatheredBatch(states: seq<State>, l: nat, ids: seq<nat>, i: nat, out: seq<Source>)
      requires Gathering(states, l, ids, i, out)
      ensures |states| == i + 1 && GivenUp.Gathers(states, l, ids[..i]) && states[i] == State()
    {
    }

    method BatchNext(ghost states: seq<State>, l: nat, ids: seq<nat>, i: nat, out: seq<Source>, bounced: nat)
      returns (more: seq<Source>)
      requires Valid() && Gathering(states, l, ids, i, out) && i < |ids| && ids[i] < nExpert
      modifies this`pools, this`claims, this`mem
      ensures Valid() && Gathering(states + [State()], l, ids, i + 1, more) && |more| == i + 1
    {
      hide Inv, Accounted, GivenUp.Turned;
      ghost var t := State();
      var x := BatchOne(l, ids[i], bounced);
      BatchStill(t, l, ids, i, out);
      more := out + [x];
      ghost var now := GivenUp.Longer(states, l, ids, i, State());
    }

    method BatchEnd(ghost states: seq<State>, l: nat, ids: seq<nat>, out: seq<Source>)
      requires Valid() && Gathering(states, l, ids, |ids|, out) && states != []
      modifies this`pools, this`claims, this`mem
      ensures Valid() && l < |pools| == |old(pools)| && |out| == |ids|
      ensures forall i | 0 <= i < |ids| :: BatchArrived(State(), l, ids[i], out[i])
      ensures NoneLeft(Batch) && VramStays(states[0].pools, pools, l) && AllNamed(pools[l], ids, out)
      ensures forall y: nat | y !in ids && Unread(states[0], l, y) :: Unread(State(), l, y)
    {
      hide Inv, Accounted;
      ghost var t := State();
      ReapAll(Batch);
      BatchDone(t, l, ids, out);
    }

    /** The adopted slots of a batch that was given up, as the early return leaves them. */
    method Abandon()
      requires Valid()
      modifies this`pools, this`claims
      ensures EarlyMarked(old(State()), State())
    {
      var all := claims;
      ghost var before := pools;
      InRange();
      claims := [];
      for i := 0 to |all|
        invariant AllMarked(before, pools, all[..i]) && forall c :: c in claims <==> c in all[..i] && c.kind != Batch
      {
        assert all[..i + 1] == all[..i] + [all[i]];
        MarkNext(before, all, i);
      }
      assert all[..|all|] == all;
    }

    lemma InRange()
      requires Sound()
      ensures forall i | 0 <= i < |claims| :: claims[i].layer < |pools| && claims[i].slot < |pools[claims[i].layer].ram|
    {
      forall i | 0 <= i < |claims| ensures claims[i].layer < |pools| && claims[i].slot < |pools[claims[i].layer].ram| {
        assert ClaimOk(pools, nExpert, Settled(State()), n, claims[i]);
      }
    }

    static ghost predicate AllMarked(p: seq<Pool>, q: seq<Pool>, claims: seq<Claim>) {
      |q| == |p| && forall l | 0 <= l < |p| :: MarkedPool(claims, l, p[l], q[l])
    }

    method MarkNext(ghost p: seq<Pool>, all: seq<Claim>, i: nat)
      requires i < |all| && AllMarked(p, pools, all[..i]) && all[i].layer < |p| && all[i].slot < |p[all[i].layer].ram|
      modifies this`pools, this`claims
      ensures AllMarked(p, pools, all[..i + 1])
      ensures claims == if all[i].kind == Batch then old(claims) else old(claims) + [all[i]]
    {
      ghost var q := pools;
      assert MarkedPool(all[..i], all[i].layer, p[all[i].layer], q[all[i].layer]);
      if all[i].kind == Batch { MarkValid(all[i].layer, all[i].slot); } else { claims := claims + [all[i]]; }
      forall l | 0 <= l < |pools| ensures MarkedPool(all[..i + 1], l, p[l], pools[l]) {
        MarkedMore(all, i, l, p[l], q[l], pools[l]);
      }
    }

    method MarkValid(l: nat, k: nat)
      requires l < |pools| && k < |pools[l].ram|
      modifies this`pools
      ensures var p := old(pools[l]); pools == old(pools)[l := p.(ram := p.ram[k := p.ram[k].(valid := true)])]
    {
      pools := pools[l := pools[l].(ram := pools[l].ram[k := pools[l].ram[k].(valid := true)])];
    }

    static lemma MarkedMore(all: seq<Claim>, i: nat, l: nat, p: Pool, q: Pool, r: Pool)
      requires i < |all| && MarkedPool(all[..i], l, p, q)
      requires r == if all[i].kind == Batch && all[i].layer == l && all[i].slot < |q.ram|
                    then q.(ram := q.ram[all[i].slot := q.ram[all[i].slot].(valid := true)]) else q
      ensures MarkedPool(all[..i + 1], l, p, r)
    {
      forall k | 0 <= k < |p.ram|
        ensures BatchInto(all[..i + 1], l, k)
            <==> BatchInto(all[..i], l, k) || (all[i].kind == Batch && all[i].layer == l && all[i].slot == k)
      {
        IntoMore(all, i, l, k);
      }
    }

    static lemma IntoMore(all: seq<Claim>, i: nat, l: nat, k: nat)
      requires i < |all|
      ensures BatchInto(all[..i + 1], l, k)
          <==> BatchInto(all[..i], l, k) || (all[i].kind == Batch && all[i].layer == l && all[i].slot == k)
    {
      if BatchInto(all[..i], l, k) {
        var j :| 0 <= j < i && all[..i][j].kind == Batch && all[..i][j].layer == l && all[..i][j].slot == k;
        assert all[..i + 1][j] == all[..i][j];
      }
      assert all[..i + 1][i] == all[i];
      forall j | 0 <= j < i ensures all[..i + 1][j] == all[..i][j] { }
    }

    lemma BatchStill(s: State, l: nat, ids: seq<nat>, i: nat, out: seq<Source>)
      requires l < |s.pools| && |pools| == |s.pools| && OnlyAdds(s.pools[l], pools[l]) && s.claims <= claims
          && |out| == i <= |ids|
      requires forall j | 0 <= j < i :: Sourced(s, l, ids[j], out[j])
      ensures forall j | 0 <= j < i :: Sourced(State(), l, ids[j], out[j])
    {
      forall j | 0 <= j < i ensures Sourced(State(), l, ids[j], out[j]) { AddsSourced(s, State(), l, ids[j], out[j]); }
    }

    lemma BatchDone(s: State, l: nat, ids: seq<nat>, out: seq<Source>)
      requires Sound() && NoLanding(State(), l) && |out| == |ids| && StillHeld(s, State()) && SameMaps(s.pools, pools)
      requires forall i | 0 <= i < |claims| :: claims[i].kind != Batch
      requires forall i | 0 <= i < |ids| :: Sourced(s, l, ids[i], out[i])
      ensures forall i | 0 <= i < |ids| :: BatchArrived(State(), l, ids[i], out[i])
    {
      forall i | 0 <= i < |ids| ensures BatchArrived(State(), l, ids[i], out[i]) {
        match out[i]
        case FromVram(g) => LayerFacts(l, ids[i]);
        case FromRam(k) =>
          assert Held(State(), l, ids[i], k);
          HostReads(State(), l, k);
        case FromBounce(_) =>
      }
    }

    // ------------------------------------------------------------ what a prefill copies from, and the graph reads

    /** The RAM-resident experts of a layer, by slot, in the file's layout; orphans and blocks in flight are skipped.
        The layer must be settled: nothing is waited for here. */
    method RamResidentSlices(l: nat) returns (out: map<nat, nat>)
      requires Valid() && l < |pools| && NoLanding(State(), l) && Unprotected(l)
      modifies this`pools, this`mem
      ensures Valid() && |pools| == |old(pools)| && SameMaps(old(pools), pools)
      ensures forall k: nat :: k in out <==> Offered(pools[l], k)
      ensures forall k | k in out ::
          k < |pools[l].ram| && out[k] == pools[l].ram[k].expert && Holds(At(mem, Ram(l, k)), n, l, out[k], File)
    {
      out := SliceAll(l);
      Readable(l, out);
    }

    /** No promotion still reads the layer's RAM slots. */
    ghost predicate Unprotected(l: nat)
      reads this
    {
      forall i | 0 <= i < |pendingRelease| :: pendingRelease[i].layer != l
    }

    method SliceAll(l: nat) returns (out: map<nat, nat>)
      requires Valid() && l < |pools| && NoLanding(State(), l) && Unprotected(l)
      modifies this`pools, this`mem
      ensures Valid() && |pools| == |old(pools)| && SameMaps(old(pools), pools) && Sliced(pools[l], |pools[l].ram|, out)
    {
      out := map[];
      var k := 0;
      while k < |pools[l].ram|
        invariant Valid() && |pools| == |old(pools)| && SameMaps(old(pools), pools)
            && |pools[l].ram| == |old(pools[l]).ram|
        invariant k <= |pools[l].ram| && Sliced(pools[l], k, out)
        decreases |old(pools[l]).ram| - k
      {
        ghost var before := pools;
        out := SliceAt(l, k, out);
        SameMapsTrans(old(pools), before, pools);
        k := k + 1;
      }
    }

    static lemma SameMapsTrans(p: seq<Pool>, q: seq<Pool>, r: seq<Pool>)
      requires SameMaps(p, q) && SameMaps(q, r)
      ensures SameMaps(p, r)
    {
    }

    method SliceAt(l: nat, k: nat, out: map<nat, nat>) returns (more: map<nat, nat>)
      requires Valid() && l < |pools| && k < |pools[l].ram| && Sliced(pools[l], k, out) && NoLanding(State(), l)
          && Unprotected(l)
      modifies this`pools, this`mem
      ensures Valid() && SameMaps(old(pools), pools) && |pools| == |old(pools)| && |pools[l].ram| == |old(pools[l]).ram|
      ensures Sliced(pools[l], k + 1, more)
    {
      if !Offered(pools[l], k) { return out; }
      ghost var p := pools[l];
      SliceFree(l, k);
      Slice(l, k);
      SlicedOn(p, pools[l], k, out);
      more := out[k := pools[l].ram[k].expert];
    }

    /** The slices of the first `limit` slots. */
    static ghost predicate Sliced(p: Pool, limit: nat, out: map<nat, nat>) {
      && (forall m: nat :: m in out <==> m < limit && Offered(p, m))
      && (forall m | m in out :: out[m] == p.ram[m].expert && !p.ram[m].soa)
    }

    static lemma SlicedOn(p: Pool, q: Pool, k: nat, out: map<nat, nat>)
      requires Sliced(p, k, out) && Offered(p, k) && q.expertSlot == p.expertSlot
          && q.ram == p.ram[k := p.ram[k].(soa := false)]
      ensures Sliced(q, k + 1, out[k := q.ram[k].expert])
    {
    }

    lemma Readable(l: nat, out: map<nat, nat>)
      requires Sound() && l < |pools| && NoLanding(State(), l)
      requires Sliced(pools[l], |pools[l].ram|, out)
      ensures forall k | k in out :: Holds(At(mem, Ram(l, k)), n, l, out[k], File)
    {
      forall k | k in out ensures Holds(At(mem, Ram(l, k)), n, l, out[k], File) { HostReads(State(), l, k); }
    }

    lemma SliceFree(l: nat, k: nat)
      requires l < |pools| && Offered(pools[l], k) && NoLanding(State(), l) && Unprotected(l)
      ensures MayConvert(State(), l, k)
    {
    }

    method Slice(l: nat, k: nat)
      requires Valid() && MayConvert(State(), l, k)
      modifies this`pools, this`mem
      ensures Valid() && SameMaps(old(pools), pools)
      ensures pools[l].ram == old(pools[l]).ram[k := old(pools[l]).ram[k].(soa := false)]
    {
      ToFileLayout(l, k);
    }

    /** A valid slot the map of its expert points to. */
    static predicate Offered(p: Pool, k: nat) {
      k < |p.ram| && p.ram[k].valid && 0 <= p.ram[k].expert < |p.expertSlot| && p.expertSlot[p.ram[k].expert] == k
    }

    /** The residency table the graph reads: exactly the VRAM residents, each with the slot that holds it. */
    method VramTable(l: nat) returns (slot: seq<nat>, mask: seq<bool>)
      requires Valid()
      ensures |slot| == nExpert && |mask| == nExpert
      ensures l < |pools| ==> |pools[l].gExpertSlot| == nExpert
      ensures forall e | 0 <= e < nExpert :: mask[e] <==> l < |pools| && pools[l].gExpertSlot[e] >= 0
      ensures forall e | 0 <= e < nExpert :: slot[e] == if mask[e] then pools[l].gExpertSlot[e] else 0
      ensures forall e | 0 <= e < nExpert && mask[e] :: Holds(At(Settled(State()), Vram(l, slot[e])), n, l, e, Device)
    {
      slot, mask := seq(nExpert, e => 0), seq(nExpert, e => false);
      if l >= |pools| { return; }
      assert PoolShape(pools[l], nExpert);
      for e := 0 to nExpert
        invariant |slot| == nExpert && |mask| == nExpert
        invariant forall x | 0 <= x < e :: mask[x] <==> pools[l].gExpertSlot[x] >= 0
        invariant forall x | 0 <= x < nExpert :: slot[x] == if mask[x] then pools[l].gExpertSlot[x] else 0
        invariant forall x | e <= x < nExpert :: !mask[x]
        invariant forall x | 0 <= x < e && mask[x] :: Holds(At(Settled(State()), Vram(l, slot[x])), n, l, x, Device)
      {
        LayerFacts(l, e);
        var g := pools[l].gExpertSlot[e];
        if !pools[l].lent && g >= 0 && pools[l].gpu[g].valid && pools[l].gpu[g].expert == e {
          slot, mask := slot[e := g], mask[e := true];
        }
      }
    }
  }
}
