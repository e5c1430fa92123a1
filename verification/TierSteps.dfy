/** What the cache does to its state, one host action or one device step at a time. */
module TierSteps {
  import opened Hardware
  import opened TierState

  // ---------------------------------------------------------------- the machine

  /** The compute queue runs its oldest copy. */
  function ComputeStep(s: State): State
    requires s.compute != []
  {
    s.(mem := Do(s.compute[0], s.mem), compute := s.compute[1..])
  }

  /** The side queue runs any one of its copies. */
  function SideStep(s: State, k: nat): State
    requires k < |s.side|
  {
    s.(mem := Do(s.side[k], s.mem), side := s.side[..k] + s.side[k + 1..])
  }

  /** One piece of a claimed block lands. */
  function PieceStep(s: State, i: nat, q: nat): State
    requires i < |s.claims|
  {
    var c := s.claims[i];
    var a := Ram(c.layer, c.slot);
    s.(mem := s.mem[a := At(s.mem, a)[q := Part(c.layer, c.expert, q, File)]],
       claims := s.claims[i := c.(flying := c.flying - {q})])
  }

  // ---------------------------------------------------------------- RAM slots

  function Unmapped(p: Pool, v: nat): Pool
    requires v < |p.ram| && p.ram[v].expert < |p.expertSlot|
  {
    if p.ram[v].expert >= 0 then p.(expertSlot := p.expertSlot[p.ram[v].expert := EMPTY]) else p
  }

  /** The slot is taken for an expert whose bytes are not there yet; whoever it held is forgotten. */
  function Refilled(p: Pool, v: nat, e: nat): Pool
    requires v < |p.ram| && p.ram[v].expert < |p.expertSlot| && e < |p.expertSlot|
  {
    var q := Unmapped(p, v);
    q.(ram := q.ram[v := RamSlot(e, false, false, q.ram[v].pinned)], expertSlot := q.expertSlot[e := v])
  }

  /** The victims choose_victim may return. */
  ghost predicate Evictable(s: State, l: nat, v: int) {
    && IsRam(s, l, v)
    && !s.pools[l].ram[v].pinned
    && (s.pools[l].ram[v].expert >= 0 ==> s.pools[l].ram[v].valid)
    && v !in s.live
    && !InRelease(s.release, l, v)
  }

  ghost predicate NoLanding(s: State, l: nat) {
    forall i | 0 <= i < |s.landing| :: s.landing[i].layer != l
  }

  function Pieces(n: nat): (r: set<nat>)
    ensures forall q: nat :: q in r <==> q < n
  {
    if n == 0 then {} else Pieces(n - 1) + {n - 1}
  }

  /** A slot is claimed for an expert and all its pieces start on their way. */
  function ClaimSlot(s: State, kind: Kind, l: nat, v: nat, e: nat): State
    requires l < |s.pools| && v < |s.pools[l].ram|
    requires s.pools[l].ram[v].expert < |s.pools[l].expertSlot| && e < |s.pools[l].expertSlot|
  {
    s.(pools := s.pools[l := Refilled(s.pools[l], v, e)], claims := s.claims + [Claim(kind, l, e, v, Pieces(s.n))])
  }

  /** A slot choose_victim returned, or one that holds nobody. */
  ghost predicate MayClaim(s: State, l: nat, v: nat, e: nat) {
    && Shape(s)
    && (Evictable(s, l, v) || (IsRam(s, l, v) && s.pools[l].ram[v].expert == EMPTY && !s.pools[l].ram[v].pinned))
        && IsExpert(s, l, e) && NoLanding(s, l)
    && s.pools[l].gExpertSlot[e] < 0
  }

  /** The last completion of a claim is reaped: the block is valid. */
  function Complete(s: State, i: nat): State
    requires i < |s.claims|
    requires s.claims[i].layer < |s.pools| && s.claims[i].slot < |s.pools[s.claims[i].layer].ram|
  {
    var c := s.claims[i];
    var p := s.pools[c.layer];
    s.(pools := s.pools[c.layer := p.(ram := p.ram[c.slot := p.ram[c.slot].(valid := true)])],
       claims := s.claims[..i] + s.claims[i + 1..])
  }

  /** to_file_layout: the host turns a block read back from VRAM into the file's arrangement, in place. */
  function Convert(s: State, l: nat, k: nat): State
    requires l < |s.pools| && k < |s.pools[l].ram|
  {
    var p := s.pools[l];
    if !p.ram[k].soa then s else
    s.(mem := s.mem[Ram(l, k) := Converted(At(s.mem, Ram(l, k)))],
       pools := s.pools[l := p.(ram := p.ram[k := p.ram[k].(soa := false)])])
  }

  ghost predicate MayConvert(s: State, l: nat, k: nat) {
    IsRam(s, l, k) && s.pools[l].ram[k].valid && s.pools[l].ram[k].expert >= 0 && NoLanding(s, l)
        && !InRelease(s.release, l, k)
  }

  // ---------------------------------------------------------------- promotion

  /** The free list popped from its end, stale entries skipped. */
  function PopFree(ram: seq<RamSlot>, free: seq<nat>): (r: (int, seq<nat>))
    requires forall i | 0 <= i < |free| :: free[i] < |ram|
    ensures r.0 == EMPTY || (0 <= r.0 < |ram| && ram[r.0].expert == EMPTY && !ram[r.0].pinned)
    ensures forall i | 0 <= i < |r.1| :: r.1[i] < |ram|
  {
    if free == [] then (EMPTY, []) else
      var f, rest := free[|free| - 1], free[..|free| - 1];
      if ram[f].expert == EMPTY && !ram[f].pinned then (f, rest) else PopFree(ram, rest)
  }

  /** Where a promotion's victim goes: a free slot, else `chosen` as choose_victim returned it -- which has already
      cleared that slot's layout flag -- unless it is the promoted block's own slot. */
  function Destination(p: Pool, slot: nat, chosen: int): (int, Pool)
    requires forall i | 0 <= i < |p.free| :: p.free[i] < |p.ram|
    requires chosen < |p.ram| && (chosen >= 0 ==> p.ram[chosen].expert < |p.expertSlot|)
  {
    var (f, rest) := PopFree(p.ram, p.free);
    var q := p.(free := rest);
    if f >= 0 then (f, q)
    else if chosen < 0 then (EMPTY, q)
    else
      var r := q.(ram := q.ram[chosen := q.ram[chosen].(soa := false)]);
      if chosen == slot then (EMPTY, r) else (chosen, Unmapped(r, chosen))
  }

  /** What a promotion leaves open: the sampled VRAM victim, the RAM victim and the ring entry it would take. */
  datatype Choice = Choice(victim: nat, dest: int, ring: int)

  ghost predicate MayPromote(s: State, l: nat, e: nat, slot: nat, c: Choice) {
    && Shape(s)
    && IsRam(s, l, slot) && IsExpert(s, l, e) && NoLanding(s, l)
    && s.pools[l].expertSlot[e] == slot && s.pools[l].ram[slot].valid && s.pools[l].ram[slot].expert == e
    && !s.pools[l].lent && IsGpu(s, l, c.victim)
    && (s.pools[l].gpu[c.victim].expert >= 0 ==> s.pools[l].gpu[c.victim].used < s.epoch)
    && (c.dest == EMPTY || Evictable(s, l, c.dest))
    && (c.ring == EMPTY || (0 <= c.ring < |s.ringBusy| && !s.ringBusy[c.ring]))
    && (c.ring != EMPTY ==> s.d2d)
  }

  /** The promoted block's own slot came back as the destination: its layout flag is lost before the upload reads it. */
  ghost predicate SelfVictim(p: Pool, slot: nat, c: Choice)
    requires c.victim < |p.gpu|
    requires forall i | 0 <= i < |p.free| :: p.free[i] < |p.ram|
  {
    p.gpu[c.victim].expert >= 0 && PopFree(p.ram, p.free).0 == EMPTY && c.dest == slot
  }

  /** Every pending swap's source is still protected: no settle is half done. */
  ghost predicate Open(s: State) {
    forall i | 0 <= i < |s.swaps| :: InRelease(s.release, s.swaps[i].layer, s.swaps[i].from)
  }

  /** The pool once the victim has left the VRAM map and a destination is chosen for it. */
  function Displaced(p: Pool, slot: nat, c: Choice): (int, Pool)
    requires c.victim < |p.gpu| && p.gpu[c.victim].expert < |p.gExpertSlot|
    requires forall i | 0 <= i < |p.free| :: p.free[i] < |p.ram|
    requires c.dest < |p.ram| && (c.dest >= 0 ==> p.ram[c.dest].expert < |p.expertSlot|)
  {
    var v := p.gpu[c.victim].expert;
    if v < 0 then (EMPTY, p) else Destination(p.(gExpertSlot := p.gExpertSlot[v := EMPTY]), slot, c.dest)
  }

  /** The victim's slot, if it has one, in flight: choose_victim skips it and lookups do not see it. */
  function Departing(p: Pool, slot: nat, c: Choice): (int, Pool)
    requires c.victim < |p.gpu| && p.gpu[c.victim].expert < |p.gExpertSlot|
    requires forall i | 0 <= i < |p.free| :: p.free[i] < |p.ram|
    requires c.dest < |p.ram| && (c.dest >= 0 ==> p.ram[c.dest].expert < |p.expertSlot|)
  {
    var (to, p1) := Displaced(p, slot, c);
    (to, if to >= 0 then p1.(ram := p1.ram[to := RamSlot(p.gpu[c.victim].expert, false, false, p1.ram[to].pinned)])
        else p1)
  }

  /** The victim's bytes queued to the staging ring, or straight to its RAM slot. */
  function WayOut(l: nat, victim: nat, to: int, ring: int): seq<Copy> {
    if to < 0 then [] else [Copy(Vram(l, victim), if ring >= 0 then Ring(ring) else Ram(l, to), false)]
  }

  /** The upload queued over the victim, and the promotion's entries; the layout flag is read here. */
  function Enter(s: State, l: nat, e: nat, slot: nat, victim: nat, v: int, to: int, ring: int): State
    requires l < |s.pools| && victim < |s.pools[l].gpu| && slot < |s.pools[l].ram| && e < |s.pools[l].gExpertSlot|
  {
    var p := s.pools[l];
    s.(pools := s.pools[l := p.(gpu := p.gpu[victim := GpuSlot(e, true, s.tick)],
                                gExpertSlot := p.gExpertSlot[e := victim], ver := p.ver + 1)],
       swaps := s.swaps + [Swap(l, e, slot, v, to, ring)],
       release := s.release + [Release(l, e, slot)],
       compute := s.compute + [Copy(Ram(l, slot), Vram(l, victim), !p.ram[slot].soa)])
  }

  /** promote(): the victim's way out first, then the upload, on one in-order queue. */
  function Promote(s: State, l: nat, e: nat, slot: nat, c: Choice): State
    requires l < |s.pools|
    requires c.victim < |s.pools[l].gpu| && s.pools[l].gpu[c.victim].expert < |s.pools[l].gExpertSlot|
    requires forall i | 0 <= i < |s.pools[l].free| :: s.pools[l].free[i] < |s.pools[l].ram|
    requires c.dest < |s.pools[l].ram| && (c.dest >= 0 ==> s.pools[l].ram[c.dest].expert < |s.pools[l].expertSlot|)
    requires slot < |s.pools[l].ram| && e < |s.pools[l].gExpertSlot|
    requires EMPTY <= c.ring < |s.ringBusy|
  {
    var (to, p) := Departing(s.pools[l], slot, c);
    var ring := if to >= 0 then c.ring else EMPTY;
    var r := s.(pools := s.pools[l := p],
                ringBusy := if ring >= 0 then s.ringBusy[ring := true] else s.ringBusy,
                compute := s.compute + WayOut(l, c.victim, to, ring));
    Enter(r, l, e, slot, c.victim, s.pools[l].gpu[c.victim].expert, to, ring)
  }

  // ---------------------------------------------------------------- settling

  /** The compute queue is waited for: nothing reads the protected slots any more. */
  function Sync(s: State): State {
    s.(mem := Drain(s.compute, s.mem), compute := [], release := [])
  }

  function Released(p: Pool, k: nat): Pool
    requires k < |p.ram| && p.ram[k].expert < |p.expertSlot|
  {
    var e := p.ram[k].expert;
    p.(expertSlot := if e >= 0 && p.expertSlot[e] == k then p.expertSlot[e := EMPTY] else p.expertSlot,
       ram := p.ram[k := RamSlot(EMPTY, false, false, false)],
       free := if |p.free| < |p.ram| then p.free + [k] else p.free)
  }

  datatype Verdict = Nothing | CannotHappen | Dropped | Mapped

  /** finish_swap's first half: the promoted expert's RAM slot is freed while the expert is VRAM-resident. */
  function Freed(p: Pool, w: Swap): Pool
    requires w.from < |p.ram| && p.ram[w.from].expert < |p.expertSlot|
    requires w.promoted < |p.expertSlot| && w.promoted < |p.gExpertSlot| && p.gExpertSlot[w.promoted] < |p.gpu|
  {
    if p.ram[w.from].expert == w.promoted && p.expertSlot[w.promoted] == w.from && InVram(p, w.promoted)
    then Released(p, w.from) else p
  }

  /** finish_swap's decision about the victim, on the pool its first half left. */
  function Judge(p: Pool, w: Swap): Verdict
    requires w.to >= 0 ==> w.to < |p.ram| && 0 <= w.victim < |p.expertSlot|
    requires w.to >= 0 ==> w.victim < |p.gExpertSlot| && p.gExpertSlot[w.victim] < |p.gpu|
  {
    if w.to < 0 then Nothing
    else if p.ram[w.to].expert != w.victim || p.ram[w.to].valid then CannotHappen
    else if p.expertSlot[w.victim] >= 0 || InVram(p, w.victim) then Dropped
    else Mapped
  }

  /** finish_swap's second half: the RAM tier's map follows the victim's bytes, or their slot is freed again. */
  function Finished(p: Pool, w: Swap): Pool
    requires w.to >= 0 ==> w.to < |p.ram| && 0 <= w.victim < |p.expertSlot| && p.ram[w.to].expert < |p.expertSlot|
    requires w.to >= 0 ==> w.victim < |p.gExpertSlot| && p.gExpertSlot[w.victim] < |p.gpu|
  {
    match Judge(p, w)
    case Dropped => Released(p, w.to)
    case Mapped => p.(expertSlot := p.expertSlot[w.victim := w.to],
                      ram := p.ram[w.to := RamSlot(w.victim, true, true, p.ram[w.to].pinned)])
    case _ => p
  }

  ghost predicate HeadInRange(s: State) {
    && Shape(s) && s.swaps != []
    && IsRam(s, s.swaps[0].layer, s.swaps[0].from) && IsExpert(s, s.swaps[0].layer, s.swaps[0].promoted)
    && (s.swaps[0].to >= 0
        ==> IsRam(s, s.swaps[0].layer, s.swaps[0].to) && IsExpert(s, s.swaps[0].layer, s.swaps[0].victim))
    && s.swaps[0].ring < |s.ringBusy|
  }

  /** finish_swap on the oldest pending swap; a mapped swap staged in the ring gets its read-back queued. */
  ghost function FinishHead(s: State): State
    requires HeadInRange(s)
  {
    var w := s.swaps[0];
    var p1 := Freed(s.pools[w.layer], w);
    var staged := w.ring >= 0 && Judge(p1, w) == Mapped;
    s.(pools := s.pools[w.layer := Finished(p1, w)], swaps := s.swaps[1..],
       ringBusy := if w.ring >= 0 && !staged then s.ringBusy[w.ring := false] else s.ringBusy,
       landing := if staged then s.landing + [w] else s.landing,
       side := if staged then s.side + [Copy(Ring(w.ring), Ram(w.layer, w.to), false)] else s.side)
  }

  function FreeRings(busy: seq<bool>, ws: seq<Swap>): seq<bool>
    decreases ws
  {
    if ws == [] then busy
    else FreeRings(if 0 <= ws[0].ring < |busy| then busy[ws[0].ring := false] else busy, ws[1..])
  }

  /** land_swaps once the side queue has run dry. */
  function Land(s: State): State {
    s.(landing := [], ringBusy := FreeRings(s.ringBusy, s.landing))
  }

  // ---------------------------------------------------------------- lending

  function Lent(p: Pool): Pool {
    p.(lent := true, ver := p.ver + 1,
        gpu := seq(|p.gpu|, i requires 0 <= i < |p.gpu| => GpuSlot(EMPTY, false, p.gpu[i].used)),
       gExpertSlot := seq(|p.gExpertSlot|, i => EMPTY))
  }

  /** A layer's VRAM slots are handed to a prefill; nothing may be queued into them. */
  function LendLayer(s: State, l: nat): State
    requires l < |s.pools|
  {
    s.(pools := s.pools[l := Lent(s.pools[l])])
  }

  function ReturnLayer(s: State, l: nat): State
    requires l < |s.pools|
  {
    s.(pools := s.pools[l := s.pools[l].(lent := false)])
  }

  // ---------------------------------------------------------------- bookkeeping

  /** Everything that moves no block: ticks, the live list, pins, use stamps. */
  ghost predicate SameBlocks(s: State, t: State) {
    && t == s.(pools := t.pools, live := t.live, tick := t.tick, epoch := t.epoch)
    && |t.pools| == |s.pools|
    && forall l | IsLayer(s, l) :: SamePool(s.pools[l], t.pools[l])
  }

  ghost predicate SamePool(p: Pool, q: Pool) {
    && q == p.(ram := q.ram, gpu := q.gpu)
    && |q.ram| == |p.ram| && |q.gpu| == |p.gpu|
    && (forall k | 0 <= k < |p.ram| :: q.ram[k] == p.ram[k].(pinned := q.ram[k].pinned))
    && (forall g | 0 <= g < |p.gpu| :: q.gpu[g] == p.gpu[g].(used := q.gpu[g].used))
  }
}
