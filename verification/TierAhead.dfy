/** What a warm-up and reads ahead bring: while there are slots to refill, an expert no slot names has one of its own
    afterwards, with its block in it or on its way. */
module TierAhead {
  import opened TierState
  import opened TierSteps
  import opened TierProofs
  import opened TierReads
  import opened TierFetch
  import opened TierRoom

  // ---------------------------------------------------------------- a warm-up

  /** No VRAM slot names the expert, and no RAM slot but its own, which has its block. */
  ghost predicate Plain(p: Pool, x: nat) {
    && (forall g | 0 <= g < |p.gpu| :: p.gpu[g].expert != x)
    && (forall k | 0 <= k < |p.ram| && p.ram[k].expert == x ::
        x < |p.expertSlot| && p.expertSlot[x] == k && p.ram[k].valid)
  }

  /** The expert has a RAM slot with its block in it or being copied there, and no step may take its slots away. */
  ghost predicate Homed(s: State, l: nat, x: nat) {
    && l < |s.pools| && x < |s.pools[l].expertSlot|
    && var p, k := s.pools[l], s.pools[l].expertSlot[x];
    && 0 <= k < |p.ram| && p.ram[k].expert == x && (p.ram[k].valid || Reading(s.claims, Host, l, x, k))
    && (forall j | 0 <= j < |p.ram| && p.ram[j].expert == x :: j in s.live)
    && (forall g | 0 <= g < |p.gpu| && p.gpu[g].expert == x :: p.gpu[g].used >= s.epoch)
  }

  /** What one more warmed expert leaves of the others: their homes, and all but one of the slots to refill. */
  ghost predicate Warmed(s: State, t: State, l: nat, e: nat) {
    && l < |s.pools| && l < |t.pools| && Roomy(s, t, l)
    && t.pools[l].gpu == s.pools[l].gpu && t.pools[l].gExpertSlot == s.pools[l].gExpertSlot
    && t.pools[l].lent == s.pools[l].lent
    && (forall x: nat | x != e && Homed(s, l, x) :: Homed(t, l, x))
    && (forall x: nat | x != e && Plain(s.pools[l], x) :: Plain(t.pools[l], x))
  }

  lemma WarmFound(s: State, t: State, l: nat, e: nat, k: nat)
    requires t == s.(live := s.live + [k], tick := t.tick) && IsRam(s, l, k) && e < |s.pools[l].expertSlot|
    requires s.pools[l].expertSlot[e] == k && s.pools[l].ram[k].valid && s.pools[l].ram[k].expert == e
    ensures Warmed(s, t, l, e) && (Plain(s.pools[l], e) ==> Homed(t, l, e))
  {
    assert KeptBut(s, t, l, k);
  }

  lemma WarmTaken(s: State, t: State, l: nat, v: nat, e: nat)
    requires MayClaim(s, l, v, e) && MapsOk(s.pools[l], s.nExpert)
    requires t == ClaimSlot(s, Host, l, v, e).(live := s.live + [v], tick := t.tick)
    requires !(s.pools[l].expertSlot[e] >= 0 && s.pools[l].ram[s.pools[l].expertSlot[e]].valid)
    ensures Warmed(s, t, l, e) && (Plain(s.pools[l], e) ==> Homed(t, l, e))
  {
    ClaimRoom(s, t, Host, l, v, e);
    assert t.claims[|s.claims|].slot == v;
    forall x: nat | x != e && Homed(s, l, x) ensures Homed(t, l, x) {
      var k := s.pools[l].expertSlot[x];
      if !s.pools[l].ram[k].valid { ReadingKept(s.claims, t.claims, Host, l, x, k); }
    }
  }

  /** A warm-up from pool p on, with so many slots to refill, after its first i experts: while there are slots for all,
      those that were plain have a home. */
  ghost predicate Warming(p: Pool, room: nat, s: State, l: nat, items: seq<nat>, i: nat) {
    && l < |s.pools| && s.pools[l].gpu == p.gpu && s.pools[l].gExpertSlot == p.gExpertSlot
    && s.pools[l].lent == p.lent && i <= |items|
    && |Free(s, l)| + i >= room
    && (Distinct(items) ==>
        forall j | i <= j < |items| && Plain(p, items[j]) :: Plain(s.pools[l], items[j]))
    && (Distinct(items) && room >= |items| ==>
        forall j | 0 <= j < i && items[j] < s.nExpert && Plain(p, items[j]) :: Homed(s, l, items[j]))
  }

  lemma WarmStarts(p: Pool, room: nat, s: State, l: nat, items: seq<nat>)
    requires l < |s.pools| && s.pools[l] == p && room == |Free(s, l)|
    ensures Warming(p, room, s, l, items, 0)
  {
  }

  lemma WarmNext(p: Pool, room: nat, s: State, t: State, l: nat, items: seq<nat>, i: nat)
    requires Warming(p, room, s, l, items, i) && i < |items| && t.nExpert == s.nExpert
    requires t == s || Warmed(s, t, l, items[i])
    requires items[i] < s.nExpert && Plain(s.pools[l], items[i]) ==>
               Homed(t, l, items[i]) || forall k :: !Evictable(s, l, k)
    ensures Warming(p, room, t, l, items, i + 1)
  {
    if t != s { RoomLeft(s, t, l); }
    if forall k :: !Evictable(s, l, k) { assert Free(s, l) == {}; }
    if Distinct(items) {
      assert forall j | 0 <= j < |items| && j != i :: items[j] != items[i];
    }
  }

  lemma WarmPromoted(s: State, t: State, l: nat, e: nat, slot: nat, c: Choice, to: int, x: nat)
    requires IsPromotion(s, t, l, e, slot, c, to) && MayPromote(s, l, e, slot, c) && s.tick >= s.epoch
    requires MapsOk(s.pools[l], s.nExpert) && Homed(s, l, x)
    ensures Homed(t, l, x)
  {
  }

  /** Blocks of the claims reaped become valid, and nothing else of a slot changes. */
  ghost predicate OnlyRaised(p: seq<Pool>, q: seq<Pool>) {
    |q| == |p| && forall l | 0 <= l < |p| ::
      && q[l] == p[l].(ram := q[l].ram) && |q[l].ram| == |p[l].ram|
      && forall k | 0 <= k < |p[l].ram| ::
          q[l].ram[k] == p[l].ram[k].(valid := q[l].ram[k].valid) && (p[l].ram[k].valid ==> q[l].ram[k].valid)
  }

  lemma CompleteRaises(s: State, i: nat)
    requires i < |s.claims| && s.claims[i].layer < |s.pools| && s.claims[i].slot < |s.pools[s.claims[i].layer].ram|
    ensures OnlyRaised(s.pools, Complete(s, i).pools)
  {
  }

  lemma NothingRaised(p: seq<Pool>)
    ensures OnlyRaised(p, p)
  {
  }

  lemma OnlyRaisedTrans(p: seq<Pool>, q: seq<Pool>, r: seq<Pool>)
    requires OnlyRaised(p, q) && OnlyRaised(q, r)
    ensures OnlyRaised(p, r)
  {
  }

  /** Once those of a kind are reaped, no claim is left on a slot one of them filled. */
  lemma ReadAlone(was: seq<Claim>, claims: seq<Claim>, kind: Kind, l: nat, x: nat, k: nat)
    requires Reading(was, kind, l, x, k) && forall i, j | 0 <= i < j < |was| :: ClaimsApart(was[i], was[j])
    requires forall c | c in claims :: exists b :: b in was && c == b.(flying := c.flying)
    requires forall i | 0 <= i < |claims| :: claims[i].kind != kind
    ensures Claimed(was, l, k) && !Inbound(claims, l, x, k)
  {
    var i :| 0 <= i < |was| && was[i].kind == kind && was[i].layer == l && was[i].expert == x && was[i].slot == k;
    forall m | 0 <= m < |was| && m != i ensures was[m].layer != l || was[m].slot != k {
      if m < i { assert ClaimsApart(was[m], was[i]); } else { assert ClaimsApart(was[i], was[m]); }
    }
    forall c | c in claims ensures c.layer != l || c.slot != k {
      var b :| b in was && c == b.(flying := c.flying);
    }
  }

  /** Once the host's copies are done, whoever has a home has its block there. */
  lemma WarmReaped(s: State, t: State, pending: seq<Awaited>, l: nat, x: nat)
    requires ClaimsOk(s, Settled(s)) && Shape(t) && Accounted(t) && LostsOk(s) && Homed(s, l, x) && x < t.nExpert
    requires Reaping(s, t, pending) && OnlyRaised(s.pools, t.pools) && t.live == s.live
    requires forall i | 0 <= i < |t.claims| :: t.claims[i].kind != Host
    ensures Homed(t, l, x) && t.pools[l].ram[t.pools[l].expertSlot[x]].valid
  {
    var k := s.pools[l].expertSlot[x];
    assert PoolAccounted(t.claims, t.abandoned, l, t.pools[l], t.nExpert);
    if !t.pools[l].ram[k].valid { ReadAlone(s.claims, t.claims, Host, l, x, k); }
  }

  // ---------------------------------------------------------------- reads ahead

  /** VRAM's map has no slot for the expert. */
  ghost predicate OutOfVram(s: State, l: nat, x: nat) {
    l < |s.pools| && x < s.nExpert && x < |s.pools[l].gExpertSlot| && s.pools[l].gExpertSlot[x] < 0
  }

  /** No RAM slot of the layer names the expert. */
  ghost predicate Unnamed(s: State, l: nat, x: nat) {
    l < |s.pools| && forall k | 0 <= k < |s.pools[l].ram| :: s.pools[l].ram[k].expert != x
  }

  /** The expert's slot has a read of the kind coming, and no slot that names it has its block yet. */
  ghost predicate Flying(s: State, kind: Kind, l: nat, x: nat) {
    && l < |s.pools| && x < |s.pools[l].expertSlot|
    && var p, k := s.pools[l], s.pools[l].expertSlot[x];
    && 0 <= k < |p.ram| && p.ram[k].expert == x && Reading(s.claims, kind, l, x, k)
    && forall j | 0 <= j < |p.ram| && p.ram[j].expert == x :: !p.ram[j].valid
  }

  ghost predicate Blockless(s: State, kind: Kind, l: nat, x: nat) {
    Unnamed(s, l, x) || Flying(s, kind, l, x)
  }

  /** The expert is on its way, or no slot may be refilled for it. */
  ghost predicate Sought(s: State, kind: Kind, l: nat, x: nat) {
    Flying(s, kind, l, x) || forall k :: !Evictable(s, l, k)
  }

  /** Starting reads lets those under way fly on, names none but with a read of its own, and frees no slot. */
  ghost predicate Reads(s: State, t: State, kind: Kind) {
    && |t.pools| == |s.pools| && t.nExpert == s.nExpert && SameVram(s.pools, t.pools)
    && (forall l: nat, x: nat | Flying(s, kind, l, x) :: Flying(t, kind, l, x))
    && (forall l: nat, x: nat | Unnamed(s, l, x) :: Blockless(t, kind, l, x))
    && (forall l: nat, k | Evictable(t, l, k) :: Evictable(s, l, k))
  }

  lemma NoReads(s: State, t: State, kind: Kind)
    requires t == s.(mem := t.mem, compute := t.compute, side := t.side, landing := t.landing, ringBusy := t.ringBusy,
                     tick := t.tick)
    ensures Reads(s, t, kind)
  {
  }

  lemma ReadsTrans(s: State, t: State, u: State, kind: Kind)
    requires Reads(s, t, kind) && Reads(t, u, kind)
    ensures Reads(s, u, kind)
  {
  }

  lemma SoughtStill(s: State, t: State, kind: Kind, l: nat, x: nat)
    requires Reads(s, t, kind) && Sought(s, kind, l, x)
    ensures Sought(t, kind, l, x)
  {
  }

  lemma ClaimFlies(s: State, kind: Kind, l: nat, v: nat, e: nat, m: nat, x: nat)
    requires MayClaim(s, l, v, e)
    ensures Flying(s, kind, m, x) ==> Flying(ClaimSlot(s, kind, l, v, e), kind, m, x)
    ensures Unnamed(s, m, x) && (m != l || x != e) ==> Unnamed(ClaimSlot(s, kind, l, v, e), m, x)
    ensures m == l && x == e && Blockless(s, kind, l, e) ==> Flying(ClaimSlot(s, kind, l, v, e), kind, l, e)
  {
    var t := ClaimSlot(s, kind, l, v, e);
    assert t.claims[|s.claims|] == Claim(kind, l, e, v, Pieces(s.n));
    assert Reading(t.claims, kind, l, e, v);
    if Flying(s, kind, m, x) { ReadingKept(s.claims, t.claims, kind, m, x, s.pools[m].expertSlot[x]); }
  }

  lemma ClaimReads(s: State, kind: Kind, l: nat, v: nat, e: nat)
    requires MayClaim(s, l, v, e)
    ensures Reads(s, ClaimSlot(s, kind, l, v, e), kind)
    ensures Blockless(s, kind, l, e) ==> Flying(ClaimSlot(s, kind, l, v, e), kind, l, e)
  {
    var t := ClaimSlot(s, kind, l, v, e);
    ClaimFlies(s, kind, l, v, e, l, e);
    hide Flying, Unnamed;
    forall m: nat, x: nat | Flying(s, kind, m, x) ensures Flying(t, kind, m, x) { ClaimFlies(s, kind, l, v, e, m, x); }
    forall m: nat, x: nat | Unnamed(s, m, x) ensures Blockless(t, kind, m, x) { ClaimFlies(s, kind, l, v, e, m, x); }
  }

  /** Completions raise flags and name nobody. */
  lemma RaisedNames(s: State, t: State, l: nat, x: nat)
    requires OnlyRaised(s.pools, t.pools) && Unnamed(s, l, x)
    ensures Unnamed(t, l, x)
  {
  }

  /** The first wanted expert can be brought: it is nowhere, and a slot may be refilled for it. */
  ghost predicate Brings(s: State, l: nat, wanted: seq<nat>) {
    && wanted != [] && OutOfVram(s, l, wanted[0]) && Unnamed(s, l, wanted[0])
    && exists k :: Evictable(s, l, k)
  }

  /** The expert's RAM slot has its block. */
  predicate InRam(p: Pool, e: nat) {
    && e < |p.expertSlot| && 0 <= p.expertSlot[e] < |p.ram|
    && p.ram[p.expertSlot[e]].expert == e && p.ram[p.expertSlot[e]].valid
  }

  /** Once the reads of a kind are reaped, whoever one was coming for has its block. */
  lemma FlyingLands(s: State, t: State, pending: seq<Awaited>, kind: Kind, l: nat, x: nat)
    requires ClaimsOk(s, Settled(s)) && Shape(t) && Accounted(t) && LostsOk(s) && Flying(s, kind, l, x) && x < t.nExpert
    requires Reaping(s, t, pending) && OnlyRaised(s.pools, t.pools)
    requires forall i | 0 <= i < |t.claims| :: t.claims[i].kind != kind
    ensures InRam(t.pools[l], x)
  {
    var k := s.pools[l].expertSlot[x];
    assert PoolAccounted(t.claims, t.abandoned, l, t.pools[l], t.nExpert);
    ReadAlone(s.claims, t.claims, kind, l, x, k);
  }

  /** The expert's RAM slot has its block, or a read of it is still on its way. */
  ghost predicate Underway(s: State, kind: Kind, l: nat, x: nat) {
    && l < |s.pools| && x < |s.pools[l].expertSlot|
    && var p, k := s.pools[l], s.pools[l].expertSlot[x];
    && 0 <= k < |p.ram| && p.ram[k].expert == x && (p.ram[k].valid || Reading(s.claims, kind, l, x, k))
  }

  /** A read on its way lands or stays on its way, whichever others are reaped meanwhile. */
  lemma FlyingStays(s: State, t: State, pending: seq<Awaited>, kind: Kind, l: nat, x: nat)
    requires ClaimsOk(s, Settled(s)) && Shape(t) && Accounted(t) && LostsOk(s) && Flying(s, kind, l, x) && x < t.nExpert
    requires Reaping(s, t, pending) && OnlyRaised(s.pools, t.pools)
    ensures Underway(t, kind, l, x)
  {
    var k := s.pools[l].expertSlot[x];
    assert PoolAccounted(t.claims, t.abandoned, l, t.pools[l], t.nExpert);
    OneReader(s.claims, t.claims, kind, l, x, k);
  }

  /** A slot's claim is of one kind, and stays of that kind. */
  lemma OneReader(was: seq<Claim>, claims: seq<Claim>, kind: Kind, l: nat, x: nat, k: nat)
    requires Reading(was, kind, l, x, k) && forall i, j | 0 <= i < j < |was| :: ClaimsApart(was[i], was[j])
    requires forall c | c in claims :: exists b :: b in was && c == b.(flying := c.flying)
    ensures Claimed(was, l, k) && (Inbound(claims, l, x, k) ==> Reading(claims, kind, l, x, k))
  {
    var i :| 0 <= i < |was| && was[i].kind == kind && was[i].layer == l && was[i].expert == x && was[i].slot == k;
    forall m | 0 <= m < |was| && m != i ensures was[m].layer != l || was[m].slot != k {
      if m < i { assert ClaimsApart(was[m], was[i]); } else { assert ClaimsApart(was[i], was[m]); }
    }
    forall c | c in claims && c.layer == l && c.slot == k ensures c.kind == kind {
      var b :| b in was && c == b.(flying := c.flying);
    }
    if Inbound(claims, l, x, k) {
      var j :| 0 <= j < |claims| && claims[j].layer == l && claims[j].expert == x && claims[j].slot == k;
      assert claims[j] in claims;
    }
  }
}
