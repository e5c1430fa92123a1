/** No expert is lost, and no read but those of a failed fetch: a mapped slot that is not valid has its reads under way
    exactly when no failed fetch abandoned it, and the steps that free slots keep every expert resident. */
module TierReads {
  import opened Hardware
  import opened TierState
  import opened TierSteps
  import opened TierProofs

  ghost predicate Inbound(claims: seq<Claim>, l: nat, e: nat, k: int) {
    exists i :: 0 <= i < |claims| && claims[i].layer == l && claims[i].expert == e && claims[i].slot == k
  }

  ghost predicate PoolAccounted(claims: seq<Claim>, abandoned: set<Lost>, l: nat, p: Pool, nExpert: nat)
    requires PoolShape(p, nExpert)
  {
    forall e | 0 <= e < nExpert && p.expertSlot[e] >= 0 && !p.ram[p.expertSlot[e]].valid ::
      Inbound(claims, l, e, p.expertSlot[e]) || Lost(l, e, p.expertSlot[e]) in abandoned
  }

  ghost predicate Claimed(claims: seq<Claim>, l: nat, k: nat) {
    exists i :: 0 <= i < |claims| && claims[i].layer == l && claims[i].slot == k
  }

  /** An abandoned slot names its expert, is not valid, and nothing is on its way into it. */
  ghost predicate LostOk(s: State, b: Lost) {
    && IsRam(s, b.layer, b.slot) && s.pools[b.layer].ram[b.slot].expert == b.expert
    && !s.pools[b.layer].ram[b.slot].valid && !s.pools[b.layer].ram[b.slot].soa
    && !SwapInto(s.swaps, b.layer, b.slot) && !Claimed(s.claims, b.layer, b.slot)
  }

  ghost predicate LostsOk(s: State) {
    forall b | b in s.abandoned :: LostOk(s, b)
  }

  /** Nobody waits for a block that is not on its way, unless a failed fetch abandoned it. */
  ghost predicate Accounted(s: State)
    requires Shape(s)
  {
    (forall l | 0 <= l < |s.pools| :: PoolAccounted(s.claims, s.abandoned, l, s.pools[l], s.nExpert)) && LostsOk(s)
  }

  /** A mapped slot that is not valid has a read coming exactly when it is not abandoned. */
  lemma ComingIff(s: State, l: nat, e: nat)
    requires Shape(s) && Accounted(s) && l < |s.pools| && e < s.nExpert
    requires var k := s.pools[l].expertSlot[e]; k >= 0 && !s.pools[l].ram[k].valid
    ensures Inbound(s.claims, l, e, s.pools[l].expertSlot[e]) <==> Lost(l, e, s.pools[l].expertSlot[e]) !in s.abandoned
  {
    var k: nat := s.pools[l].expertSlot[e];
    assert PoolAccounted(s.claims, s.abandoned, l, s.pools[l], s.nExpert);
    if Lost(l, e, k) in s.abandoned { assert LostOk(s, Lost(l, e, k)); }
    if Inbound(s.claims, l, e, k) { assert Claimed(s.claims, l, k); }
  }

  lemma InboundGrows(claims: seq<Claim>, c: Claim, l: nat, e: nat, k: int)
    ensures Inbound(claims, l, e, k) ==> Inbound(claims + [c], l, e, k)
    ensures c.layer == l && c.expert == e && c.slot == k ==> Inbound(claims + [c], l, e, k)
  {
    if Inbound(claims, l, e, k) {
      var i :| 0 <= i < |claims| && claims[i].layer == l && claims[i].expert == e && claims[i].slot == k;
      assert (claims + [c])[i] == claims[i];
    }
    assert (claims + [c])[|claims|] == c;
  }

  lemma ClaimAccounted(s: State, kind: Kind, l: nat, v: nat, e: nat)
    requires MayClaim(s, l, v, e) && Accounted(s) && MapsOk(s.pools[l], s.nExpert)
    ensures var t := ClaimSlot(s, kind, l, v, e); Shape(t) && Accounted(t)
  {
    var t := ClaimSlot(s, kind, l, v, e);
    forall m | 0 <= m < |t.pools|
      ensures PoolShape(t.pools[m], t.nExpert) && PoolAccounted(t.claims, t.abandoned, m, t.pools[m], t.nExpert)
    {
      assert PoolShape(s.pools[m], s.nExpert) && PoolAccounted(s.claims, s.abandoned, m, s.pools[m], s.nExpert);
      forall x | 0 <= x < t.nExpert && t.pools[m].expertSlot[x] >= 0 && !t.pools[m].ram[t.pools[m].expertSlot[x]].valid
        ensures Inbound(t.claims, m, x, t.pools[m].expertSlot[x]) || Lost(m, x, t.pools[m].expertSlot[x]) in t.abandoned
      {
        InboundGrows(s.claims, t.claims[|s.claims|], m, x, t.pools[m].expertSlot[x]);
      }
    }
    ClaimLosts(s, kind, l, v, e);
  }

  lemma ClaimLosts(s: State, kind: Kind, l: nat, v: nat, e: nat)
    requires MayClaim(s, l, v, e) && LostsOk(s)
    ensures LostsOk(ClaimSlot(s, kind, l, v, e))
  {
    var t := ClaimSlot(s, kind, l, v, e);
    forall b | b in t.abandoned ensures LostOk(t, b) {
      assert LostOk(s, b);
      assert !(b.layer == l && b.slot == v);
      ClaimAdded(s.claims, t.claims[|s.claims|], b.layer, b.slot);
    }
  }

  lemma CompleteAccounted(s: State, i: nat)
    requires Shape(s) && Accounted(s) && i < |s.claims|
    requires s.claims[i].layer < |s.pools| && s.claims[i].slot < |s.pools[s.claims[i].layer].ram|
    requires s.pools[s.claims[i].layer].ram[s.claims[i].slot].expert != EMPTY
    ensures Shape(Complete(s, i)) && Accounted(Complete(s, i))
  {
    var t := Complete(s, i);
    forall m | 0 <= m < |t.pools|
      ensures PoolShape(t.pools[m], t.nExpert) && PoolAccounted(t.claims, t.abandoned, m, t.pools[m], t.nExpert)
    {
      assert PoolShape(s.pools[m], s.nExpert) && PoolAccounted(s.claims, s.abandoned, m, s.pools[m], s.nExpert);
      forall x | 0 <= x < t.nExpert && t.pools[m].expertSlot[x] >= 0 && !t.pools[m].ram[t.pools[m].expertSlot[x]].valid
        ensures Inbound(t.claims, m, x, t.pools[m].expertSlot[x]) || Lost(m, x, t.pools[m].expertSlot[x]) in t.abandoned
      {
        var k := t.pools[m].expertSlot[x];
        if Inbound(s.claims, m, x, k) {
          var j :| 0 <= j < |s.claims| && s.claims[j].layer == m && s.claims[j].expert == x && s.claims[j].slot == k;
          assert t.claims[if j < i then j else j - 1] == s.claims[j];
        }
      }
    }
    CompleteLosts(s, i);
  }

  lemma ClaimAdded(claims: seq<Claim>, c: Claim, l: nat, k: nat)
    ensures Claimed(claims + [c], l, k) <==> Claimed(claims, l, k) || (c.layer == l && c.slot == k)
  {
    var more := claims + [c];
    forall j | 0 <= j < |more| ensures more[j] == if j < |claims| then claims[j] else c { }
    if Claimed(claims, l, k) {
      var j :| 0 <= j < |claims| && claims[j].layer == l && claims[j].slot == k;
      assert more[j].slot == k;
    }
    assert more[|claims|] == c;
  }

  /** A claim gone leaves the other slots' claims. */
  lemma ClaimGone(claims: seq<Claim>, i: nat, l: nat, k: nat)
    requires i < |claims|
    ensures Claimed(claims[..i] + claims[i + 1..], l, k) ==> Claimed(claims, l, k)
  {
    var less := claims[..i] + claims[i + 1..];
    forall j | 0 <= j < |less| ensures less[j] == claims[if j < i then j else j + 1] { }
  }

  /** ... and none for its own. */
  lemma ClaimAlone(claims: seq<Claim>, i: nat)
    requires i < |claims| && forall j, k | 0 <= j < k < |claims| :: ClaimsApart(claims[j], claims[k])
    ensures !Claimed(claims[..i] + claims[i + 1..], claims[i].layer, claims[i].slot)
  {
    var less := claims[..i] + claims[i + 1..];
    forall j | 0 <= j < |less| ensures less[j].layer != claims[i].layer || less[j].slot != claims[i].slot {
      if j < i { assert ClaimsApart(claims[j], claims[i]); } else { assert ClaimsApart(claims[i], claims[j + 1]); }
    }
  }

  lemma CompleteLosts(s: State, i: nat)
    requires LostsOk(s) && i < |s.claims|
    requires s.claims[i].layer < |s.pools| && s.claims[i].slot < |s.pools[s.claims[i].layer].ram|
    ensures LostsOk(Complete(s, i))
  {
    var t := Complete(s, i);
    forall b | b in t.abandoned ensures LostOk(t, b) {
      assert LostOk(s, b);
      ClaimGone(s.claims, i, b.layer, b.slot);
      assert !(s.claims[i].layer == b.layer && s.claims[i].slot == b.slot);
    }
  }

  /** Pieces landing, queues draining and lending leave the RAM maps and the claimed blocks as they are. */
  ghost predicate SameClaims(s: State, t: State) {
    && |t.pools| == |s.pools| && t.nExpert == s.nExpert && |t.claims| == |s.claims|
    && t.abandoned == s.abandoned && t.swaps == s.swaps
    && (forall i | 0 <= i < |s.claims| :: t.claims[i] == s.claims[i].(flying := t.claims[i].flying))
    && (forall l | 0 <= l < |s.pools| ::
        t.pools[l].expertSlot == s.pools[l].expertSlot && |t.pools[l].ram| == |s.pools[l].ram|)
    && (forall l, k | 0 <= l < |s.pools| && 0 <= k < |s.pools[l].ram| :: SameSlot(s.pools[l].ram[k], t.pools[l].ram[k]))
  }

  /** Whom the slot names and whether it holds it; its layout flag is never set. */
  ghost predicate SameSlot(a: RamSlot, b: RamSlot) {
    b.expert == a.expert && b.valid == a.valid && (b.soa ==> a.soa)
  }

  lemma SameAccounted(s: State, t: State)
    requires Shape(s) && Shape(t) && Accounted(s) && SameClaims(s, t)
    ensures Accounted(t)
  {
    forall m | 0 <= m < |t.pools| ensures PoolAccounted(t.claims, t.abandoned, m, t.pools[m], t.nExpert) {
      assert PoolAccounted(s.claims, s.abandoned, m, s.pools[m], s.nExpert);
      forall x | 0 <= x < t.nExpert && t.pools[m].expertSlot[x] >= 0 && !t.pools[m].ram[t.pools[m].expertSlot[x]].valid
        ensures Inbound(t.claims, m, x, t.pools[m].expertSlot[x]) || Lost(m, x, t.pools[m].expertSlot[x]) in t.abandoned
      {
        var k := t.pools[m].expertSlot[x];
        assert SameSlot(s.pools[m].ram[k], t.pools[m].ram[k]);
        if Inbound(s.claims, m, x, k) {
          var j :| 0 <= j < |s.claims| && s.claims[j].layer == m && s.claims[j].expert == x && s.claims[j].slot == k;
          assert t.claims[j].slot == s.claims[j].slot;
        }
      }
    }
    forall b | b in t.abandoned ensures LostOk(t, b) {
      assert LostOk(s, b) && SameSlot(s.pools[b.layer].ram[b.slot], t.pools[b.layer].ram[b.slot]);
      forall i | 0 <= i < |t.claims| ensures !(t.claims[i].layer == b.layer && t.claims[i].slot == b.slot) {
        assert t.claims[i] == s.claims[i].(flying := t.claims[i].flying);
      }
    }
  }

  lemma {:induction false} ConvertAccounted(s: State, l: nat, k: nat)
    requires Shape(s) && Accounted(s) && MayConvert(s, l, k)
    ensures Shape(Convert(s, l, k)) && Accounted(Convert(s, l, k))
  {
    hide Accounted;
    SameAccounted(s, Convert(s, l, k));
  }

  lemma LendAccounted(s: State, l: nat)
    requires Shape(s) && Accounted(s) && l < |s.pools|
    ensures Shape(LendLayer(s, l)) && Accounted(LendLayer(s, l))
  {
    var t := LendLayer(s, l);
    assert t.pools == s.pools[l := Lent(s.pools[l])];
    SameAccounted(s, t);
  }

  lemma ReturnAccounted(s: State, l: nat)
    requires Shape(s) && Accounted(s) && l < |s.pools|
    ensures Shape(ReturnLayer(s, l)) && Accounted(ReturnLayer(s, l))
  {
    SameAccounted(s, ReturnLayer(s, l));
  }

  lemma PromoteAccounted(s: State, t: State, l: nat, e: nat, slot: nat, c: Choice, to: int)
    requires MayPromote(s, l, e, slot, c) && IsPromotion(s, t, l, e, slot, c, to) && Shape(t) && Accounted(s)
    ensures Accounted(t)
  {
    forall m | 0 <= m < |t.pools| ensures PoolAccounted(t.claims, t.abandoned, m, t.pools[m], t.nExpert) {
      assert PoolAccounted(s.claims, s.abandoned, m, s.pools[m], s.nExpert);
    }
    forall b | b in t.abandoned ensures LostOk(t, b) { PromoteLost(s, t, l, e, slot, c, to, b); }
  }

  lemma PromoteLost(s: State, t: State, l: nat, e: nat, slot: nat, c: Choice, to: int, b: Lost)
    requires IsPromotion(s, t, l, e, slot, c, to) && Shape(s) && LostOk(s, b)
    ensures LostOk(t, b)
  {
    assert !(b.layer == l && b.slot == to);
    forall i | 0 <= i < |t.swaps| ensures !(t.swaps[i].layer == b.layer && t.swaps[i].to == b.slot) {
      if i < |s.swaps| { assert t.swaps[i] == s.swaps[i]; }
    }
  }

  lemma {:induction false} FinishAccounted(s: State)
    requires Inv(s) && s.swaps != [] && s.compute == [] && s.release == [] && Shape(s) && Accounted(s)
    ensures HeadInRange(s) && Shape(FinishHead(s)) && Accounted(FinishHead(s))
  {
    var d := Settled(s);
    FinishFacts(s, d);
    FinishKeeps(s);
    var t := FinishHead(s);
    FinishShape(t, Settled(t));
    hide Inv;
    forall m | 0 <= m < |t.pools| ensures PoolAccounted(t.claims, t.abandoned, m, t.pools[m], t.nExpert) {
      assert PoolAccounted(s.claims, s.abandoned, m, s.pools[m], s.nExpert);
      if m == s.swaps[0].layer { FinishPool(s); }
    }
    forall b | b in t.abandoned ensures LostOk(t, b) { FinishLost(s, b); }
  }

  /** A slot the swap's layer maps was mapped before, or is the victim's, whose block is there. */
  lemma FinishPool(s: State)
    requires Inv(s) && s.swaps != [] && HeadInRange(s) && Shape(s) && Accounted(s)
    requires var t, l := FinishHead(s), s.swaps[0].layer; l < |t.pools| && PoolShape(t.pools[l], t.nExpert)
    ensures var t, l := FinishHead(s), s.swaps[0].layer;
      PoolAccounted(t.claims, t.abandoned, l, t.pools[l], t.nExpert)
  {
    var w := s.swaps[0];
    assert PoolAccounted(s.claims, s.abandoned, w.layer, s.pools[w.layer], s.nExpert);
    assert LayerOk(Settled(s), s.n, s.nExpert, s.landing, s.swaps, w.layer, s.pools[w.layer]);
    assert SwapOk(s.pools, s.nExpert, s.ringBusy, Settled(s), s.n, w);
    FinishedAccounted(s.claims, s.abandoned, s.pools[w.layer], w, s.nExpert);
    hide Inv, LayerOk, SwapOk, Finished, Freed;
  }

  /** Freeing, dropping and mapping leave every mapped slot that is not valid one that was mapped and not valid. */
  lemma FinishedAccounted(claims: seq<Claim>, abandoned: set<Lost>, p: Pool, w: Swap, nExpert: nat)
    requires PoolShape(p, nExpert) && MapsOk(p, nExpert) && PoolAccounted(claims, abandoned, w.layer, p, nExpert)
    requires w.from < |p.ram| && w.promoted < nExpert
    requires w.to >= 0 ==> w.to < |p.ram| && 0 <= w.victim < nExpert
    ensures PoolShape(Finished(Freed(p, w), w), nExpert) ==>
      PoolAccounted(claims, abandoned, w.layer, Finished(Freed(p, w), w), nExpert)
  {
  }

  lemma FinishLost(s: State, b: Lost)
    requires Inv(s) && s.swaps != [] && HeadInRange(s) && IsFinish(s, FinishHead(s), s.swaps[0]) && LostOk(s, b)
    ensures LostOk(FinishHead(s), b)
  {
    var w, t := s.swaps[0], FinishHead(s);
    assert SwapOk(s.pools, s.nExpert, s.ringBusy, Settled(s), s.n, w);
    assert !(w.layer == b.layer && (w.from == b.slot || w.to == b.slot));
    forall i | 0 <= i < |t.swaps| ensures !(t.swaps[i].layer == b.layer && t.swaps[i].to == b.slot) {
      assert t.swaps[i] == s.swaps[i + 1];
    }
  }

  // ---------------------------------------------------------------- a fetch that fails

  /** A claim is given up: its reads were never submitted, and its slot keeps naming its expert. */
  function GiveUp(s: State, i: nat): State
    requires i < |s.claims|
  {
    var c := s.claims[i];
    s.(claims := s.claims[..i] + s.claims[i + 1..], abandoned := s.abandoned + {Lost(c.layer, c.expert, c.slot)})
  }

  lemma GiveUpKeeps(s: State, i: nat)
    requires Inv(s) && Shape(s) && Accounted(s) && i < |s.claims|
    ensures var t := GiveUp(s, i); Inv(t) && Shape(t) && Accounted(t) && (Open(s) ==> Open(t))
  {
    var d, t := Settled(s), GiveUp(s, i);
    assert Settled(t) == d;
    GiveUpClaims(s, d, i);
    GiveUpRest(s, d, i);
    forall m | 0 <= m < |t.pools| ensures PoolAccounted(t.claims, t.abandoned, m, t.pools[m], t.nExpert) {
      GiveUpPool(s, i, m);
    }
    forall b | b in t.abandoned ensures LostOk(t, b) { GivenUpLost(s, i, b); }
  }

  lemma GiveUpRest(s: State, d: Mem, i: nat)
    requires TiersOk(s, d) && SwapsOk(s, d) && LandingOk(s, d) && i < |s.claims|
    ensures var t := GiveUp(s, i); TiersOk(t, d) && SwapsOk(t, d) && LandingOk(t, d)
  {
  }

  lemma GiveUpClaims(s: State, d: Mem, i: nat)
    requires ClaimsOk(s, d) && i < |s.claims|
    ensures ClaimsOk(GiveUp(s, i), d)
  {
    var t := GiveUp(s, i);
    forall j | 0 <= j < |t.claims| ensures t.claims[j] == s.claims[if j < i then j else j + 1] { }
    forall j | 0 <= j < |t.claims| ensures ClaimOk(t.pools, t.nExpert, d, t.n, t.claims[j]) {
      assert ClaimOk(s.pools, s.nExpert, d, s.n, s.claims[if j < i then j else j + 1]);
    }
    forall j, k | 0 <= j < k < |t.claims| ensures ClaimsApart(t.claims[j], t.claims[k]) {
      assert ClaimsApart(s.claims[if j < i then j else j + 1], s.claims[if k < i then k else k + 1]);
    }
    forall j, k | 0 <= j < |t.claims| && 0 <= k < |t.swaps| ensures ClaimSwapApart(t.claims[j], t.swaps[k]) {
      assert ClaimSwapApart(s.claims[if j < i then j else j + 1], s.swaps[k]);
    }
  }

  lemma GiveUpPool(s: State, i: nat, m: nat)
    requires Shape(s) && Accounted(s) && i < |s.claims| && m < |s.pools|
    ensures var t := GiveUp(s, i); PoolAccounted(t.claims, t.abandoned, m, t.pools[m], t.nExpert)
  {
    var t := GiveUp(s, i);
    assert PoolAccounted(s.claims, s.abandoned, m, s.pools[m], s.nExpert);
    forall x | 0 <= x < t.nExpert && t.pools[m].expertSlot[x] >= 0 && !t.pools[m].ram[t.pools[m].expertSlot[x]].valid
      ensures Inbound(t.claims, m, x, t.pools[m].expertSlot[x]) || Lost(m, x, t.pools[m].expertSlot[x]) in t.abandoned
    {
      var k := t.pools[m].expertSlot[x];
      if Inbound(s.claims, m, x, k) {
        var j :| 0 <= j < |s.claims| && s.claims[j].layer == m && s.claims[j].expert == x && s.claims[j].slot == k;
        if j != i { assert t.claims[if j < i then j else j - 1] == s.claims[j]; }
      }
    }
  }

  lemma GivenUpLost(s: State, i: nat, b: Lost)
    requires Inv(s) && LostsOk(s) && i < |s.claims| && b in GiveUp(s, i).abandoned
    ensures LostOk(GiveUp(s, i), b)
  {
    var c, t := s.claims[i], GiveUp(s, i);
    if b in s.abandoned {
      assert LostOk(s, b);
      ClaimGone(s.claims, i, b.layer, b.slot);
    } else {
      assert ClaimOk(s.pools, s.nExpert, Settled(s), s.n, c);
      ClaimAlone(s.claims, i);
      forall j | 0 <= j < |s.swaps| ensures !(s.swaps[j].layer == b.layer && s.swaps[j].to == b.slot) {
        assert ClaimSwapApart(c, s.swaps[j]);
      }
    }
  }

  /** An abandoned block is read again, into the slot that names it. */
  function ReadAgain(s: State, b: Lost): State {
    s.(claims := s.claims + [Claim(Batch, b.layer, b.expert, b.slot, Pieces(s.n))], abandoned := s.abandoned - {b})
  }

  lemma ReadAgainKeeps(s: State, b: Lost)
    requires Inv(s) && Shape(s) && Accounted(s) && b in s.abandoned
    ensures var t := ReadAgain(s, b); Inv(t) && Shape(t) && Accounted(t) && (Open(s) ==> Open(t))
  {
    var d, t := Settled(s), ReadAgain(s, b);
    var c := t.claims[|s.claims|];
    assert LostOk(s, b);
    assert ClaimsOk(t, d) by {
      assert ClaimOk(t.pools, t.nExpert, d, t.n, c);
      forall i | 0 <= i < |t.claims| ensures ClaimOk(t.pools, t.nExpert, d, t.n, t.claims[i]) {
        if i < |s.claims| { assert t.claims[i] == s.claims[i]; }
      }
      forall i, j | 0 <= i < j < |t.claims| ensures ClaimsApart(t.claims[i], t.claims[j]) {
        if j < |s.claims| { assert ClaimsApart(s.claims[i], s.claims[j]); }
        else { assert t.claims[i] == s.claims[i]; }
      }
      forall i, j | 0 <= i < |t.claims| && 0 <= j < |t.swaps| ensures ClaimSwapApart(t.claims[i], t.swaps[j]) {
        if i < |s.claims| { assert ClaimSwapApart(s.claims[i], s.swaps[j]); }
      }
    }
    assert Settled(t) == d;
    ReadAgainAccounted(s, b);
  }

  lemma ReadAgainAccounted(s: State, b: Lost)
    requires Shape(s) && Accounted(s) && b in s.abandoned
    ensures Shape(ReadAgain(s, b)) && Accounted(ReadAgain(s, b))
  {
    var t := ReadAgain(s, b);
    assert LostOk(s, b);
    forall m | 0 <= m < |t.pools| ensures PoolAccounted(t.claims, t.abandoned, m, t.pools[m], t.nExpert) {
      assert PoolAccounted(s.claims, s.abandoned, m, s.pools[m], s.nExpert);
      forall x | 0 <= x < t.nExpert && t.pools[m].expertSlot[x] >= 0 && !t.pools[m].ram[t.pools[m].expertSlot[x]].valid
        ensures Inbound(t.claims, m, x, t.pools[m].expertSlot[x]) || Lost(m, x, t.pools[m].expertSlot[x]) in t.abandoned
      {
        InboundGrows(s.claims, t.claims[|s.claims|], m, x, t.pools[m].expertSlot[x]);
      }
    }
    forall a | a in t.abandoned ensures LostOk(t, a) {
      assert LostOk(s, a);
      ClaimAdded(s.claims, t.claims[|s.claims|], a.layer, a.slot);
      assert a.layer == b.layer && a.slot == b.slot ==> a == b;
    }
  }

  /** One empty RAM slot, no VRAM, two experts. */
  function OneSlot(): State {
    State.State(1, 2, false,
        [Pool([RamSlot(EMPTY, false, false, false)], [EMPTY, EMPTY], [], [], [EMPTY, EMPTY], false, 0)],
      [], [], [], [], [], 0, 0, [], {}, map[], [], [])
  }

  lemma OneSlotLayer()
    ensures var s := OneSlot();
      && PoolShape(s.pools[0], s.nExpert)
      && LayerOk(Settled(s), s.n, s.nExpert, s.landing, s.swaps, 0, s.pools[0])
      && PoolAccounted(s.claims, s.abandoned, 0, s.pools[0], s.nExpert)
  {
    var p := OneSlot().pools[0];
    assert |p.ram| == 1 && |p.gpu| == 0 && PoolShape(p, 2);
  }

  lemma OneSlotInv()
    ensures Inv(OneSlot()) && Shape(OneSlot()) && Accounted(OneSlot()) && Open(OneSlot())
        && MayClaim(OneSlot(), 0, 0, 0)
  {
    OneSlotLayer();
    hide LayerOk, PoolShape, PoolAccounted;
    var s := OneSlot();
    assert |s.pools| == 1 && s.pools[0].ram == [RamSlot(EMPTY, false, false, false)];
  }

  /** The input: the first expert's miss takes the only slot, the second finds none and the fetch fails. The first one
      stays mapped to a slot that nothing fills and no later call can refill. */
  lemma FailedFetchLeaves()
    ensures MayClaim(OneSlot(), 0, 0, 0) && OneSlot().abandoned == {}
    ensures var u := ClaimSlot(OneSlot(), Demand, 0, 0, 0);
      && u.claims != [] && (forall k :: !Evictable(u, 0, k))
      && var t := GiveUp(u, 0);
      && Inv(t) && Shape(t) && Accounted(t) && (forall k :: !Evictable(t, 0, k))
      && t.pools[0].expertSlot[0] == 0 && !t.pools[0].ram[0].valid && !Inbound(t.claims, 0, 0, 0)
  {
    var s := OneSlot();
    OneSlotInv();
    var u := ClaimSlot(s, Demand, 0, 0, 0);
    ClaimKeeps(s, Demand, 0, 0, 0);
    ClaimAccounted(s, Demand, 0, 0, 0);
    GiveUpKeeps(u, 0);
    assert u.pools[0].ram == [RamSlot(0, false, false, false)];
    assert GiveUp(u, 0).claims == [];
  }

  // ---------------------------------------------------------------- conservation

  ghost predicate Resident(p: Pool, e: nat) {
    e < |p.expertSlot| && e < |p.gExpertSlot| && (p.expertSlot[e] >= 0 || p.gExpertSlot[e] >= 0)
  }

  /** Every resident stays resident, in one tier or the other. */
  ghost predicate Conserves(p: seq<Pool>, q: seq<Pool>) {
    |q| == |p| && forall l, e: nat | 0 <= l < |p| && Resident(p[l], e) :: Resident(q[l], e)
  }

  /** Finishing a swap loses nobody: every resident stays resident, and the swap's victim is resident again unless it
      had no slot to go to. */
  lemma FinishConserves(s: State)
    requires Inv(s) && s.swaps != [] && s.compute == [] && s.release == []
    ensures HeadInRange(s)
    ensures Conserves(s.pools, FinishHead(s).pools)
    ensures var w := s.swaps[0]; w.to != EMPTY ==> Resident(FinishHead(s).pools[w.layer], w.victim)
  {
    var d := Settled(s);
    FinishFacts(s, d);
    JudgeFacts(s, d);
    var w := s.swaps[0];
    assert LayerOk(d, s.n, s.nExpert, s.landing, s.swaps, w.layer, s.pools[w.layer]);
    assert SwapOk(s.pools, s.nExpert, s.ringBusy, d, s.n, w);
    FreedLayer(s, d);
    FreedKeeps(s.pools[w.layer], w, s.nExpert);
    FinishedKeeps(Freed(s.pools[w.layer], w), w, s.nExpert);
  }

  lemma FinishVram(s: State)
    requires Inv(s) && s.swaps != [] && s.compute == [] && s.release == []
    ensures HeadInRange(s) && SameVram(s.pools, FinishHead(s).pools)
  {
    FinishFacts(s, Settled(s));
  }

  lemma FreedKeeps(p: Pool, w: Swap, nExpert: nat)
    requires PoolShape(p, nExpert) && MapsOk(p, nExpert) && w.from < |p.ram| && w.promoted < nExpert
    ensures forall e: nat | Resident(p, e) :: Resident(Freed(p, w), e)
  {
  }

  lemma FinishedKeeps(p: Pool, w: Swap, nExpert: nat)
    requires PoolShape(p, nExpert) && MapsOk(p, nExpert) && w.to < |p.ram| && (w.to >= 0 ==> 0 <= w.victim < nExpert)
    requires Judge(p, w) != CannotHappen
    requires w.to >= 0 ==> p.expertSlot[w.victim] != w.to
    ensures forall e: nat | Resident(p, e) :: Resident(Finished(p, w), e)
    ensures w.to >= 0 ==> Resident(Finished(p, w), w.victim)
  {
  }

  /** The swap's victim has a home. */
  ghost predicate Placed(pools: seq<Pool>, w: Swap) {
    w.to != EMPTY ==> w.layer < |pools| && w.victim >= 0 && Resident(pools[w.layer], w.victim)
  }

  lemma PlacedKept(p: seq<Pool>, q: seq<Pool>, ws: seq<Swap>, done: nat)
    requires Conserves(p, q) && done < |ws| && Placed(q, ws[done])
    requires forall i | 0 <= i < done :: Placed(p, ws[i])
    ensures forall i | 0 <= i <= done :: Placed(q, ws[i])
  {
  }

  /** No promotion, read-back or copy is under way. */
  ghost predicate AllSettled(s: State) {
    s.release == [] && s.swaps == [] && s.landing == [] && s.compute == [] && s.side == []
  }

  lemma NoOp(c: Copy)
    ensures !OpOk([], [], c)
  {
  }

  lemma NoSide(c: Copy)
    ensures !SideOk([], c)
  {
  }

  lemma NothingQueued(s: State)
    requires Inv(s) && s.release == [] && s.swaps == []
    ensures s.compute == [] && (s.landing == [] ==> s.side == [])
  {
    if s.compute != [] { NoOp(s.compute[0]); }
    if s.side != [] { NoSide(s.side[0]); }
  }

  /** No expert is mapped in both tiers. */
  ghost predicate TiersDisjoint(p: Pool) {
    |p.expertSlot| == |p.gExpertSlot| && forall e | 0 <= e < |p.expertSlot| ::
        p.expertSlot[e] < 0 || p.gExpertSlot[e] < 0
  }

  /** Exclusive tiers: with no swap pending, RAM and VRAM hold different experts. */
  lemma SettledDisjoint(s: State)
    requires Inv(s) && s.swaps == []
    ensures forall l | 0 <= l < |s.pools| :: TiersDisjoint(s.pools[l])
  {
    forall l | 0 <= l < |s.pools| ensures TiersDisjoint(s.pools[l]) {
      assert LayerOk(Settled(s), s.n, s.nExpert, s.landing, s.swaps, l, s.pools[l]);
    }
  }

  /** The VRAM tier is as it was. */
  ghost predicate SameVram(p: seq<Pool>, q: seq<Pool>) {
    |q| == |p| && forall l | 0 <= l < |p| ::
        q[l].gpu == p[l].gpu && q[l].gExpertSlot == p[l].gExpertSlot && q[l].lent == p[l].lent
  }

  // ---------------------------------------------------------------- orphans

  /** Refilling slot v forgets the expert it names, whichever slot that expert's map points to: a resident y keeps its
      map entry exactly when the refilled slot does not name y. If it does and is not y's own slot -- an orphan, left by
      a second read of y -- y's block is untouched and yet lost to every lookup. */
  lemma EvictionUnmaps(p: Pool, nExpert: nat, v: nat, e: nat, y: nat)
    requires PoolShape(p, nExpert) && MapsOk(p, nExpert) && v < |p.ram| && e < nExpert && y < nExpert && y != e
        && p.expertSlot[y] >= 0
    ensures Refilled(p, v, e).expertSlot[y] == p.expertSlot[y] <==> p.ram[v].expert != y
    ensures p.expertSlot[y] != v ==> Refilled(p, v, e).ram[p.expertSlot[y]] == p.ram[p.expertSlot[y]]
  {
  }

  /** How an orphan comes about: an expert whose speculative read has not landed is read again into a second slot, and
      the map follows the second one. */
  lemma RereadLeavesOrphan(s: State, kind: Kind, l: nat, v: nat, e: nat)
    requires Inv(s) && MayClaim(s, l, v, e) && s.pools[l].expertSlot[e] >= 0
    ensures var p, q := s.pools[l], ClaimSlot(s, kind, l, v, e).pools[l]; var k: nat := p.expertSlot[e];
      k != v ==> q.ram[k].expert == e && q.expertSlot[e] == v
  {
    assert LayerOk(Settled(s), s.n, s.nExpert, s.landing, s.swaps, l, s.pools[l]);
  }
}
