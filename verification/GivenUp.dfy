/** A batch that meets an expert out of range returns before it reads anything, with the slots it adopted marked valid:
    when that makes the tiers lie. */
module GivenUp {
  import opened Hardware
  import opened TierState
  import opened TierSteps
  import opened TierProofs
  import opened TierReads
  import opened TierFetch

  // ---------------------------------------------------------------- what a batch may do

  /** The expert's RAM block is there. */
  ghost predicate Ready(p: Pool, e: nat) {
    e < |p.expertSlot| && 0 <= p.expertSlot[e] < |p.ram| && p.ram[p.expertSlot[e]].valid
  }

  ghost predicate InTiers(p: Pool, e: nat) {
    (e < |p.gExpertSlot| && p.gExpertSlot[e] >= 0) || Ready(p, e)
  }

  /** An empty slot may take an expert neither tier serves. */
  ghost predicate MayAdopt(s: State, l: nat, v: nat, e: nat) {
    && MayClaim(s, l, v, e) && s.pools[l].ram[v].expert == EMPTY && !s.pools[l].ram[v].pinned
    && !InTiers(s.pools[l], e)
  }

  ghost predicate Adopts(s: State, t: State, l: nat, e: nat) {
    exists v: nat :: MayAdopt(s, l, v, e) && t == ClaimSlot(s, Batch, l, v, e)
  }

  /** One expert's turn: served from VRAM, from RAM in the file's layout, or read into an adopted slot or elsewhere. */
  ghost predicate Turned(s: State, t: State, l: nat, e: nat) {
    && l < |s.pools| && e < |s.pools[l].gExpertSlot| == |s.pools[l].expertSlot|
    && if s.pools[l].gExpertSlot[e] >= 0 then t == s
       else if Ready(s.pools[l], e) then t == Convert(s, l, s.pools[l].expertSlot[e])
       else t == s || Adopts(s, t, l, e)
  }

  /** The batch's turns, one state before each expert and one after the last. */
  ghost predicate Gathers(states: seq<State>, l: nat, ids: seq<nat>) {
    |states| == |ids| + 1 && forall j | 0 <= j < |ids| :: Turned(states[j], states[j + 1], l, ids[j])
  }

  /** What a batch asks of its state: experts of the layer, each once, none of whose RAM copies is still being read for
      VRAM; no read-back of the layer under way, no other batch. */
  ghost predicate Fit(s: State, l: nat, ids: seq<nat>) {
    && Inv(s) && Open(s) && Shape(s) && l < |s.pools| && NoLanding(s, l) && Distinct(ids)
    && (forall j | 0 <= j < |ids| :: ids[j] < s.nExpert && Unread(s, l, ids[j]))
  }

  // ---------------------------------------------------------------- what a turn leaves

  /** Empty slots were empty, unpinned alike, and hold what they held; the later experts stand where they stood. */
  ghost predicate Alike(s: State, u: State, l: nat, ids: seq<nat>, i: nat) {
    && Fit(u, l, ids) && |u.pools| == |s.pools| && u.n == s.n && u.nExpert == s.nExpert && l < |s.pools|
    && (forall v: nat | v < |u.pools[l].ram| && u.pools[l].ram[v].expert == EMPTY :: SameEmpty(s, u, l, v))
    && (forall j | i <= j < |ids| :: InTiers(u.pools[l], ids[j]) == InTiers(s.pools[l], ids[j]))
  }

  ghost predicate SameEmpty(s: State, u: State, l: nat, v: nat) {
    && l < |s.pools| && l < |u.pools| && v < |s.pools[l].ram| && v < |u.pools[l].ram|
    && s.pools[l].ram[v].expert == EMPTY && s.pools[l].ram[v].pinned == u.pools[l].ram[v].pinned
    && At(Settled(u), Ram(l, v)) == At(Settled(s), Ram(l, v))
  }

  /** The batch's claims so far stay, each with its block as it was. */
  ghost predicate ClaimsStay(s: State, t: State) {
    && s.claims <= t.claims && |t.claims| <= |s.claims| + 1
    && forall i | 0 <= i < |s.claims| && s.claims[i].kind == Batch :: BlockIn(t, s.claims[i]) == BlockIn(s, s.claims[i])
  }

  lemma TurnAdopts(s: State, l: nat, v: nat, e: nat, ids: seq<nat>, i: nat)
    requires Fit(s, l, ids) && i < |ids| && ids[i] == e && MayAdopt(s, l, v, e)
    ensures var t := ClaimSlot(s, Batch, l, v, e); Alike(s, t, l, ids, i + 1) && ClaimsStay(s, t)
  {
    hide Inv;
    var t := ClaimSlot(s, Batch, l, v, e);
    AdoptFits(s, l, v, e, ids);
    AdoptStands(s, l, v, e, ids, i);
  }

  lemma AdoptFits(s: State, l: nat, v: nat, e: nat, ids: seq<nat>)
    requires Fit(s, l, ids) && e in ids && MayAdopt(s, l, v, e)
    ensures Fit(ClaimSlot(s, Batch, l, v, e), l, ids)
  {
    var t := ClaimSlot(s, Batch, l, v, e);
    ClaimKeeps(s, Batch, l, v, e);
    FinishShape(t, Settled(t));
    forall j | 0 <= j < |ids| ensures ids[j] < t.nExpert && Unread(t, l, ids[j]) {
      assert Unread(s, l, ids[j]);
      NewSlotUnread(s, l, v, e);
    }
  }

  /** Nothing reads an empty slot for VRAM. */
  lemma NewSlotUnread(s: State, l: nat, v: nat, e: nat)
    requires Inv(s) && MayAdopt(s, l, v, e)
    ensures !InRelease(s.release, l, v)
  {
    forall i | 0 <= i < |s.release| ensures !(s.release[i].layer == l && s.release[i].slot == v) {
      assert ReleaseOk(s.pools, s.release[i]);
    }
  }

  lemma AdoptStands(s: State, l: nat, v: nat, e: nat, ids: seq<nat>, i: nat)
    requires Fit(s, l, ids) && i < |ids| && ids[i] == e && MayAdopt(s, l, v, e)
    ensures var t := ClaimSlot(s, Batch, l, v, e);
      forall j | i + 1 <= j < |ids| :: InTiers(t.pools[l], ids[j]) == InTiers(s.pools[l], ids[j])
  {
    var t := ClaimSlot(s, Batch, l, v, e);
    assert LayerOk(Settled(s), s.n, s.nExpert, s.landing, s.swaps, l, s.pools[l]);
    forall j | i + 1 <= j < |ids| ensures InTiers(t.pools[l], ids[j]) == InTiers(s.pools[l], ids[j]) {
      assert ids[j] != e;
    }
  }

  lemma TurnConverts(s: State, l: nat, e: nat, ids: seq<nat>, i: nat)
    requires Fit(s, l, ids) && i < |ids| && ids[i] == e && s.pools[l].gExpertSlot[e] < 0 && Ready(s.pools[l], e)
    ensures var t := Convert(s, l, s.pools[l].expertSlot[e]); Alike(s, t, l, ids, i + 1) && ClaimsStay(s, t)
  {
    var k: nat := s.pools[l].expertSlot[e];
    var t := Convert(s, l, k);
    assert Unread(s, l, e);
    assert LayerOk(Settled(s), s.n, s.nExpert, s.landing, s.swaps, l, s.pools[l]);
    if s.pools[l].ram[k].soa {
      ConvertKeeps(s, l, k);
      FinishShape(t, Settled(t));
      ConvertMemory(s, l, k);
      ConvertClaims(s, l, k);
      forall j | 0 <= j < |ids| ensures ids[j] < t.nExpert && Unread(t, l, ids[j]) { assert Unread(s, l, ids[j]); }
    }
  }

  lemma ConvertClaims(s: State, l: nat, k: nat)
    requires Inv(s) && MayConvert(s, l, k)
    requires SameBut(Settled(s), Settled(Convert(s, l, k)), Ram(l, k))
    ensures ClaimsStay(s, Convert(s, l, k))
  {
    forall i | 0 <= i < |s.claims| ensures BlockIn(Convert(s, l, k), s.claims[i]) == BlockIn(s, s.claims[i]) {
      assert ClaimOk(s.pools, s.nExpert, Settled(s), s.n, s.claims[i]);
    }
  }

  lemma TurnKeeps(s: State, t: State, l: nat, e: nat, ids: seq<nat>, i: nat)
    requires Fit(s, l, ids) && i < |ids| && ids[i] == e && Turned(s, t, l, e)
    ensures Alike(s, t, l, ids, i + 1) && ClaimsStay(s, t)
  {
    if s.pools[l].gExpertSlot[e] < 0 && Ready(s.pools[l], e) {
      TurnConverts(s, l, e, ids, i);
    } else if t != s {
      var v: nat :| MayAdopt(s, l, v, e) && t == ClaimSlot(s, Batch, l, v, e);
      TurnAdopts(s, l, v, e, ids, i);
    }
  }

  // ---------------------------------------------------------------- ... and the whole batch

  lemma AlikeTrans(s: State, t: State, u: State, l: nat, ids: seq<nat>, i: nat)
    requires Alike(s, t, l, ids, i) && Alike(t, u, l, ids, i + 1)
    ensures Alike(s, u, l, ids, i + 1)
  {
    hide Fit, InTiers;
    forall v: nat | v < |u.pools[l].ram| && u.pools[l].ram[v].expert == EMPTY ensures SameEmpty(s, u, l, v) {
      assert SameEmpty(t, u, l, v) && SameEmpty(s, t, l, v);
    }
  }

  lemma AlikeSelf(s: State, l: nat, ids: seq<nat>)
    requires Fit(s, l, ids)
    ensures Alike(s, s, l, ids, 0)
  {
  }

  lemma AlikeFits(s: State, u: State, l: nat, ids: seq<nat>, i: nat)
    requires Alike(s, u, l, ids, i)
    ensures Fit(u, l, ids)
  {
  }

  lemma {:induction false} GathersKeep(states: seq<State>, l: nat, ids: seq<nat>, i: nat)
    requires Gathers(states, l, ids) && Fit(states[0], l, ids) && i <= |ids|
    ensures Alike(states[0], states[i], l, ids, i)
  {
    hide Fit, Alike, Turned;
    if i == 0 {
      AlikeSelf(states[0], l, ids);
    } else {
      GathersKeep(states, l, ids, i - 1);
      AlikeFits(states[0], states[i - 1], l, ids, i - 1);
      assert Turned(states[i - 1], states[i], l, ids[i - 1]);
      TurnKeeps(states[i - 1], states[i], l, ids[i - 1], ids, i - 1);
      AlikeTrans(states[0], states[i - 1], states[i], l, ids, i - 1);
    }
  }

  /** An expert before the end of the batch could be given a slot whose bytes are not its own. */
  ghost predicate MayLie(s: State, l: nat, ids: seq<nat>) {
    exists j, v: nat :: 0 <= j < |ids| && MayAdopt(s, l, v, ids[j]) && !HoldsIts(s, l, v, ids[j])
  }

  ghost predicate HoldsIts(s: State, l: nat, v: nat, e: nat) {
    Holds(At(Settled(s), Ram(l, v)), s.n, l, e, File)
  }

  ghost predicate AllIn(s: State) {
    forall i | 0 <= i < |s.claims| && s.claims[i].kind == Batch :: BlockIn(s, s.claims[i])
  }

  lemma TurnAllIn(s: State, u: State, t: State, l: nat, ids: seq<nat>, i: nat)
    requires Fit(s, l, ids) && Alike(s, u, l, ids, i) && i < |ids| && Turned(u, t, l, ids[i]) && AllIn(u)
    requires !MayLie(s, l, ids)
    ensures AllIn(t)
  {
    TurnKeeps(u, t, l, ids[i], ids, i);
    forall k | 0 <= k < |t.claims| && t.claims[k].kind == Batch ensures BlockIn(t, t.claims[k]) {
      if k < |u.claims| {
        assert t.claims[k] == u.claims[k];
      } else {
        Adopted(s, u, t, l, ids, i);
      }
    }
  }

  lemma Adopted(s: State, u: State, t: State, l: nat, ids: seq<nat>, i: nat)
    requires Fit(s, l, ids) && Alike(s, u, l, ids, i) && i < |ids| && Turned(u, t, l, ids[i])
    requires !MayLie(s, l, ids) && |t.claims| > |u.claims|
    ensures BlockIn(t, t.claims[|u.claims|])
  {
    var v: nat :| MayAdopt(u, l, v, ids[i]) && t == ClaimSlot(u, Batch, l, v, ids[i]);
    assert SameEmpty(s, u, l, v);
    assert Unread(s, l, ids[i]) && Unread(u, l, ids[i]);
    assert MayAdopt(s, l, v, ids[i]);
    assert HoldsIts(s, l, v, ids[i]);
    assert Settled(t) == Settled(u);
  }

  lemma {:induction false} GathersAllIn(states: seq<State>, l: nat, ids: seq<nat>, i: nat)
    requires Gathers(states, l, ids) && Fit(states[0], l, ids) && AllIn(states[0]) && !MayLie(states[0], l, ids)
    requires i <= |ids|
    ensures AllIn(states[i])
  {
    hide Fit, Alike, Turned, AllIn, MayLie;
    if i > 0 {
      GathersAllIn(states, l, ids, i - 1);
      GathersKeep(states, l, ids, i - 1);
      TurnAllIn(states[0], states[i - 1], states[i], l, ids, i - 1);
    }
  }

  // ---------------------------------------------------------------- the batch that lies

  /** The turn with nothing adopted. */
  lemma PlainTurn(s: State, l: nat, ids: seq<nat>, i: nat) returns (t: State)
    requires Fit(s, l, ids) && i < |ids|
    ensures Turned(s, t, l, ids[i])
    ensures l < |t.pools| && forall v: nat | v < |s.pools[l].ram| && s.pools[l].ram[v].expert == EMPTY ::
        v < |t.pools[l].ram| && t.pools[l].ram[v].expert == EMPTY
  {
    var p, e := s.pools[l], ids[i];
    assert Unread(s, l, e);
    t := if p.gExpertSlot[e] < 0 && Ready(p, e) then Convert(s, l, p.expertSlot[e]) else s;
  }

  /** A batch of the first i experts that adopts nothing leaves slot v free. */
  lemma {:induction false} PlainRun(s: State, l: nat, ids: seq<nat>, i: nat, v: nat) returns (states: seq<State>)
    requires Fit(s, l, ids) && i <= |ids| && v < |s.pools[l].ram| && s.pools[l].ram[v].expert == EMPTY
    ensures Gathers(states, l, ids[..i]) && states[0] == s && Alike(s, states[i], l, ids, i)
    ensures v < |states[i].pools[l].ram| && states[i].pools[l].ram[v].expert == EMPTY
  {
    if i == 0 {
      states := [s];
    } else {
      states := PlainRun(s, l, ids, i - 1, v);
      var t := PlainTurn(states[i - 1], l, ids, i - 1);
      TurnKeeps(states[i - 1], t, l, ids[i - 1], ids, i - 1);
      AlikeTrans(s, states[i - 1], t, l, ids, i - 1);
      states := Longer(states, l, ids, i - 1, t);
    }
  }

  lemma Longer(states: seq<State>, l: nat, ids: seq<nat>, i: nat, t: State) returns (more: seq<State>)
    requires i < |ids| && Gathers(states, l, ids[..i]) && Turned(states[i], t, l, ids[i])
    ensures more == states + [t] && Gathers(more, l, ids[..i + 1])
  {
    more := states + [t];
    forall j | 0 <= j < i + 1 ensures Turned(more[j], more[j + 1], l, ids[..i + 1][j]) {
      if j < i { assert Turned(states[j], states[j + 1], l, ids[..i][j]); }
    }
  }

  /** From a state that holds a claim without its block, whatever plain turns follow. */
  lemma {:induction false} PlainRest(states: seq<State>, l: nat, ids: seq<nat>, i: nat, c: Claim)
    returns (more: seq<State>)
    requires 0 < i <= |ids| && Gathers(states, l, ids[..i]) && Fit(states[i], l, ids)
    requires c in states[i].claims && c.kind == Batch && !BlockIn(states[i], c)
    ensures Gathers(more, l, ids) && more[0] == states[0]
    ensures c in more[|ids|].claims && !BlockIn(more[|ids|], c) && Fit(more[|ids|], l, ids)
    decreases |ids| - i
  {
    hide Fit, Turned, BlockIn;
    if i == |ids| {
      assert ids[..i] == ids;
      more := states;
    } else {
      var t := PlainTurn(states[i], l, ids, i);
      PlainStep(states[i], t, l, ids, i, c);
      var longer := Longer(states, l, ids, i, t);
      more := PlainRest(longer, l, ids, i + 1, c);
    }
  }

  lemma PlainStep(s: State, t: State, l: nat, ids: seq<nat>, i: nat, c: Claim)
    requires Fit(s, l, ids) && i < |ids| && Turned(s, t, l, ids[i])
    requires c in s.claims && c.kind == Batch && !BlockIn(s, c)
    ensures Fit(t, l, ids) && c in t.claims && !BlockIn(t, c)
  {
    hide Turned;
    TurnKeeps(s, t, l, ids[i], ids, i);
    var k :| 0 <= k < |s.claims| && s.claims[k] == c;
    assert t.claims[k] == c;
  }

  /** Adopting the slot that does not hold its expert, and nothing else. */
  lemma LyingRun(s: State, l: nat, ids: seq<nat>) returns (states: seq<State>)
    requires Fit(s, l, ids) && MayLie(s, l, ids)
    ensures Gathers(states, l, ids) && states[0] == s && Inv(states[|ids|]) && !AllIn(states[|ids|])
  {
    var j: nat, v: nat :| j < |ids| && MayAdopt(s, l, v, ids[j]) && !HoldsIts(s, l, v, ids[j]);
    var e := ids[j];
    states := PlainRun(s, l, ids, j, v);
    var u := states[j];
    assert SameEmpty(s, u, l, v) && Unread(u, l, e) && InTiers(u.pools[l], e) == InTiers(s.pools[l], e);
    assert MayAdopt(u, l, v, e);
    var t := ClaimSlot(u, Batch, l, v, e);
    var c := t.claims[|u.claims|];
    assert Adopts(u, t, l, e) && Settled(t) == Settled(u) && !BlockIn(t, c);
    TurnAdopts(u, l, v, e, ids, j);
    states := Longer(states, l, ids, j, t);
    states := PlainRest(states, l, ids, j + 1, c);
    assert c in states[|ids|].claims;
  }

  function Others(claims: seq<Claim>): (r: seq<Claim>)
    ensures forall c :: c in r <==> c in claims && c.kind != Batch
  {
    if claims == [] then []
    else if claims[0].kind == Batch then Others(claims[1..])
    else [claims[0]] + Others(claims[1..])
  }

  ghost function MarkedRam(claims: seq<Claim>, l: nat, ram: seq<RamSlot>): seq<RamSlot> {
    seq(|ram|, k requires 0 <= k < |ram| => ram[k].(valid := ram[k].valid || BatchInto(claims, l, k)))
  }

  /** What the early return leaves. */
  ghost function Marked(s: State): State {
    s.(claims := Others(s.claims),
       pools := seq(|s.pools|, l requires 0 <= l < |s.pools| =>
         s.pools[l].(ram := MarkedRam(s.claims, l, s.pools[l].ram))))
  }

  lemma MarkedIs(s: State)
    ensures EarlyMarked(s, Marked(s))
  {
    forall l | 0 <= l < |s.pools| ensures MarkedPool(s.claims, l, s.pools[l], Marked(s).pools[l]) {
      assert Marked(s).pools[l] == s.pools[l].(ram := MarkedRam(s.claims, l, s.pools[l].ram));
    }
  }

  /** Whether a batch that is given up after these experts leaves the tiers telling the truth, whichever slots it
      adopted, can be told before it begins: exactly when none of them that neither tier serves could be given an empty
      slot whose bytes are not its own. A batch without an expert out of range is not given up and keeps the invariant
      in any case. */
  lemma GivenUpIff(s: State, l: nat, ids: seq<nat>)
    requires Fit(s, l, ids) && forall i | 0 <= i < |s.claims| :: s.claims[i].kind != Batch
    ensures (forall states, t | Gathers(states, l, ids) && states[0] == s && EarlyMarked(states[|ids|], t) ::
        TiersOk(t, Settled(t))) <==> !MayLie(s, l, ids)
  {
    if !MayLie(s, l, ids) {
      forall states, t | Gathers(states, l, ids) && states[0] == s && EarlyMarked(states[|ids|], t)
          ensures TiersOk(t, Settled(t)) {
        GathersAllIn(states, l, ids, |ids|);
        GathersKeep(states, l, ids, |ids|);
        EarlyMarkedIff(states[|ids|], t);
      }
    } else {
      var states := LyingRun(s, l, ids);
      var t := Marked(states[|ids|]);
      MarkedIs(states[|ids|]);
      EarlyMarkedIff(states[|ids|], t);
      assert !TiersOk(t, Settled(t));
    }
  }
}
