/** Every interleaving: host actions, queue steps, landing reads, settles half done, in any order the rules allow. */
module TierRuns {
  import opened Hardware
  import opened TierState
  import opened TierSteps
  import opened TierProofs
  import opened TierReads

  datatype Event =
    | Compute                                                 // the compute queue runs its oldest copy
    | Side(k: nat)                                            // the side queue runs any of its copies
    | Piece(i: nat, q: nat)                                   // a piece of a claimed block lands
    | Take(kind: Kind, l: nat, v: nat, e: nat)                // a RAM slot is refilled
    | Done(i: nat)                                            // a claimed slot is marked valid
    | ToFileLayout(l: nat, k: nat)
    | Up(l: nat, e: nat, slot: nat, c: Choice)                // a promotion
    | Wait                                                    // a settle waits for the compute queue ...
    | Finish                                                  // ... and finishes its swaps one by one
    | LandAll                                                 // the read-backs have been waited for
    | Lend(l: nat)
    | Return(l: nat)
    | Book(t: State)                                          // ticks, the live list, pins, use stamps
    | Fail(i: nat)                                            // a failed fetch abandons a claim of its own
    | Again(b: Lost)                                          // an abandoned block is read after all

  /** When the cache may act; the device's steps have no other guard than having something to do. */
  ghost predicate Enabled(s: State, ev: Event) {
    match ev
    case Compute => s.compute != []
    case Side(k) => k < |s.side|
    case Piece(i, q) => i < |s.claims| && q in s.claims[i].flying
    case Take(_, l, v, e) => Open(s) && MayClaim(s, l, v, e)
    case Done(i) => i < |s.claims|
    case ToFileLayout(l, k) => MayConvert(s, l, k)
    case Up(l, e, slot, c) => Open(s) && MayPromote(s, l, e, slot, c)
    case Wait => true
    case Finish => s.swaps != [] && s.compute == [] && s.release == []
    case LandAll => s.side == []
    case Lend(l) => l < |s.pools| && s.compute == [] && s.swaps == []
    case Return(l) => l < |s.pools|
    case Book(t) => SameBlocks(s, t)
    case Fail(i) => i < |s.claims| && s.claims[i].kind == Demand
    case Again(b) => b in s.abandoned
  }

  /** A slot marked valid before its block is there, as it is once the claim's last completion has been reaped. */
  ghost predicate Early(s: State, ev: Event) {
    ev.Done? && ev.i < |s.claims| && !BlockIn(s, s.claims[ev.i])
  }

  /** That, or a promotion whose own slot comes back as its victim's, with a layout flag to lose. */
  ghost predicate Unsafe(s: State, ev: Event) {
    Early(s, ev) || SelfDisplacing(s, ev)
  }

  ghost predicate SelfDisplacing(s: State, ev: Event) {
    ev.Up? && MayPromote(s, ev.l, ev.e, ev.slot, ev.c) && SelfVictim(s.pools[ev.l], ev.slot, ev.c)
        && s.pools[ev.l].ram[ev.slot].soa
  }

  ghost predicate Good(s: State) {
    Inv(s) && Shape(s) && Accounted(s)
  }

  ghost function Next(s: State, ev: Event): State
    requires Good(s) && Enabled(s, ev)
  {
    match ev
    case Compute => ComputeStep(s)
    case Side(k) => SideStep(s, k)
    case Piece(i, q) => PieceStep(s, i, q)
    case Take(kind, l, v, e) => ClaimSlot(s, kind, l, v, e)
    case Done(i) => ClaimInRange(s, i); Complete(s, i)
    case ToFileLayout(l, k) => Convert(s, l, k)
    case Up(l, e, slot, c) => Promote(s, l, e, slot, c)
    case Wait => Sync(s)
    case Finish => FinishKeeps(s); FinishHead(s)
    case LandAll => Land(s)
    case Lend(l) => LendLayer(s, l)
    case Return(l) => ReturnLayer(s, l)
    case Book(t) => t
    case Fail(i) => GiveUp(s, i)
    case Again(b) => ReadAgain(s, b)
  }

  lemma {:induction false} NextInv(s: State, ev: Event)
    requires Good(s) && Enabled(s, ev) && !Unsafe(s, ev)
    ensures Inv(Next(s, ev))
  {
    match ev
    case Compute => ComputeStepKeeps(s);
    case Side(k) => SideStepKeeps(s, k);
    case Piece(i, q) => PieceStepKeeps(s, i, q);
    case Take(kind, l, v, e) => ClaimKeeps(s, kind, l, v, e);
    case Done(i) => CompleteIff(s, i);
    case ToFileLayout(l, k) => ConvertKeeps(s, l, k);
    case Up(l, e, slot, c) => PromoteKeeps(s, l, e, slot, c);
    case Wait => SyncKeeps(s);
    case Finish => FinishKeeps(s);
    case LandAll => LandKeeps(s);
    case Lend(l) => LendKeeps(s, l);
    case Return(l) => ReturnKeeps(s, l);
    case Book(t) => SameBlocksKeeps(s, t);
    case Fail(i) => GiveUpKeeps(s, i);
    case Again(b) => ReadAgainKeeps(s, b);
  }

  lemma {:induction false} NextAccounted(s: State, ev: Event)
    requires Good(s) && Enabled(s, ev) && !Unsafe(s, ev) && Inv(Next(s, ev))
    ensures Shape(Next(s, ev)) && Accounted(Next(s, ev))
  {
    var t := Next(s, ev);
    FinishShape(t, Settled(t));
    match ev
    case Take(kind, l, v, e) =>
      assert LayerOk(Settled(s), s.n, s.nExpert, s.landing, s.swaps, l, s.pools[l]);
      ClaimAccounted(s, kind, l, v, e);
    case Done(i) =>
      assert ClaimOk(s.pools, s.nExpert, Settled(s), s.n, s.claims[i]);
      CompleteAccounted(s, i);
    case Up(l, e, slot, c) =>
      UpAccounted(s, l, e, slot, c);
    case Finish => FinishAccounted(s);
    case Fail(i) => GiveUpKeeps(s, i);
    case Again(b) => ReadAgainKeeps(s, b);
    case _ =>
      NextSame(s, ev);
      SameAccounted(s, t);
  }

  lemma UpAccounted(s: State, l: nat, e: nat, slot: nat, c: Choice)
    requires Good(s) && MayPromote(s, l, e, slot, c) && Shape(Promote(s, l, e, slot, c))
    requires SelfVictim(s.pools[l], slot, c) ==> !s.pools[l].ram[slot].soa
    ensures Accounted(Promote(s, l, e, slot, c))
  {
    assert LayerOk(Settled(s), s.n, s.nExpert, s.landing, s.swaps, l, s.pools[l]);
    var to := PromoteFacts(s, l, e, slot, c);
    PromoteAccounted(s, Promote(s, l, e, slot, c), l, e, slot, c, to);
  }

  /** The other events leave every RAM slot's owner and validity alone, and every claim but for what has landed. */
  lemma {:induction false} NextSame(s: State, ev: Event)
    requires Good(s) && Enabled(s, ev) && !ev.Take? && !ev.Done? && !ev.Up? && !ev.Finish? && !ev.Fail? && !ev.Again?
    ensures SameClaims(s, Next(s, ev))
  {
    match ev
    case Book(t) => BookSame(s, t);
    case ToFileLayout(l, k) => ConvertSame(s, l, k);
    case Lend(l) => LendSame(s, l);
    case Return(l) => LendSame(s, l);
    case Compute => SameMachine(s, ComputeStep(s));
    case Side(k) => SameMachine(s, SideStep(s, k));
    case Piece(i, q) => SameMachine(s, PieceStep(s, i, q));
    case Wait => SameMachine(s, Sync(s));
    case LandAll => SameMachine(s, Land(s));
  }

  lemma SameMachine(s: State, t: State)
    requires t == s.(mem := t.mem, compute := t.compute, side := t.side, release := t.release, landing := t.landing,
                     ringBusy := t.ringBusy, claims := t.claims)
    requires |t.claims| == |s.claims| && forall i | 0 <= i < |s.claims| ::
        t.claims[i] == s.claims[i].(flying := t.claims[i].flying)
    ensures SameClaims(s, t)
  {
  }

  lemma ConvertSame(s: State, l: nat, k: nat)
    requires MayConvert(s, l, k)
    ensures SameClaims(s, Convert(s, l, k))
  {
  }

  lemma LendSame(s: State, l: nat)
    requires l < |s.pools|
    ensures SameClaims(s, LendLayer(s, l)) && SameClaims(s, ReturnLayer(s, l))
  {
    assert Lent(s.pools[l]).ram == s.pools[l].ram && Lent(s.pools[l]).expertSlot == s.pools[l].expertSlot;
  }

  lemma BookSame(s: State, t: State)
    requires SameBlocks(s, t)
    ensures SameClaims(s, t) && VersionTells(s, t)
  {
    forall l | 0 <= l < |s.pools| ensures SamePool(s.pools[l], t.pools[l]) { assert IsLayer(s, l); }
  }

  // ---------------------------------------------------------------- runs

  /** A run: the states it goes through and the events between them. */
  ghost predicate Run(states: seq<State>, events: seq<Event>) {
    && |states| == |events| + 1
    && Good(states[0])
    && forall i | 0 <= i < |events| :: Good(states[i])
        ==> Enabled(states[i], events[i]) && states[i + 1] == Next(states[i], events[i])
  }

  /** No slot of the run is marked valid early, and no promotion loses its own layout flag: what the cache ensures by
      counting pieces, and its callers by listing the slot as in use or promoting into a tier with nothing to displace.
      */
  ghost predicate Sheltering(states: seq<State>, events: seq<Event>) {
    |states| == |events| + 1 && forall i | 0 <= i < |events| :: !Unsafe(states[i], events[i])
  }

  lemma {:induction false} RunGood(states: seq<State>, events: seq<Event>, i: nat)
    requires Run(states, events) && Sheltering(states, events) && i < |states|
    ensures Good(states[i])
  {
    if i > 0 {
      RunGood(states, events, i - 1);
      NextInv(states[i - 1], events[i - 1]);
      NextAccounted(states[i - 1], events[i - 1]);
    }
  }

  /** The guard is exact: a run keeps the invariant throughout exactly when it holds no such step. */
  lemma RunGoodIff(states: seq<State>, events: seq<Event>)
    requires Run(states, events) && forall i | 0 <= i < |states| :: states[i].n > 0
    ensures (forall i | 0 <= i < |states| :: Good(states[i])) <==> Sheltering(states, events)
  {
    if forall i | 0 <= i < |states| :: Good(states[i]) {
      forall i | 0 <= i < |events| ensures !Unsafe(states[i], events[i]) { GoodNext(states, events, i); }
    }
    if Sheltering(states, events) {
      forall i | 0 <= i < |states| ensures Good(states[i]) { RunGood(states, events, i); }
    }
  }

  lemma GoodNext(states: seq<State>, events: seq<Event>, i: nat)
    requires Run(states, events) && i < |events| && Good(states[i]) && Good(states[i + 1]) && states[i].n > 0
    ensures !Unsafe(states[i], events[i])
  {
    var s, ev := states[i], events[i];
    assert Enabled(s, ev) && states[i + 1] == Next(s, ev);
    if ev.Up? { PromoteSafeIff(s, ev.l, ev.e, ev.slot, ev.c); }
    if ev.Done? { CompleteIff(s, ev.i); }
  }

  /** The bytes behind every map entry of layer l: a VRAM entry's slot holds its expert once the compute queue drains; a
      RAM entry's block is there in the layout its flag says, or still landing from a busy staging entry that holds it,
      or else a claim is on its way exactly when no failed fetch abandoned the slot. */
  ghost predicate NeverWrong(s: State, l: nat, e: nat) {
    && l < |s.pools| && e < |s.pools[l].expertSlot| && e < |s.pools[l].gExpertSlot|
    && var p, d := s.pools[l], Settled(s);
    && (p.gExpertSlot[e] >= 0 ==> Holds(At(d, Vram(l, p.gExpertSlot[e])), s.n, l, e, Device))
    && (p.expertSlot[e] >= 0 ==> var k: nat := p.expertSlot[e];
          k < |p.ram| && p.ram[k].expert == e &&
          (if !p.ram[k].valid then (Inbound(s.claims, l, e, k) <==> Lost(l, e, k) !in s.abandoned)
           else Holds(At(d, Ram(l, k)), s.n, l, e, if p.ram[k].soa then Device else File)
                || (exists i :: 0 <= i < |s.landing| && Landing(s, s.landing[i], l, e, k))))
  }

  /** The swap's read-back into slot k is queued, and its busy staging entry still holds the expert's bytes. */
  ghost predicate Landing(s: State, w: Swap, l: nat, e: nat, k: nat) {
    && l < |s.pools| && k < |s.pools[l].ram| && w.layer == l && w.to == k && w.victim == e
    && 0 <= w.ring < |s.ringBusy| && s.ringBusy[w.ring]
    && Holds(At(Settled(s), Ring(w.ring)), s.n, l, e, Device)
    && s.pools[l].ram[k].soa
    && (SideHas(s.side, w) || Holds(At(Settled(s), Ram(l, k)), s.n, l, e, Device))
  }

  lemma GoodNeverWrong(s: State, l: nat, e: nat)
    requires Good(s) && l < |s.pools| && e < s.nExpert
    ensures NeverWrong(s, l, e)
  {
    var p, d := s.pools[l], Settled(s);
    assert LayerOk(d, s.n, s.nExpert, s.landing, s.swaps, l, p);
    if p.expertSlot[e] >= 0 && !p.ram[p.expertSlot[e]].valid { ComingIff(s, l, e); }
    if p.gExpertSlot[e] >= 0 {
      assert GpuOk(d, s.n, l, p.gExpertSlot[e], p.gpu[p.gExpertSlot[e]], p.lent);
    }
    if p.expertSlot[e] >= 0 && p.ram[p.expertSlot[e]].valid {
      var k: nat := p.expertSlot[e];
      assert RamOk(d, s.n, s.landing, l, k, p.ram[k]);
      if LandsAt(s.landing, l, k) {
        var i :| 0 <= i < |s.landing| && s.landing[i].layer == l && s.landing[i].to == k;
        assert LandOk(s.pools, s.nExpert, s.ringBusy, d, s.n, s.side, s.landing[i]);
        assert Landing(s, s.landing[i], l, e, k);
      }
    }
  }

  /** In every state of every run nobody's bytes are wrong, and an expert is in both tiers only while a swap that will
      free its RAM slot is pending. */
  lemma RunNeverWrong(states: seq<State>, events: seq<Event>, i: nat, l: nat, e: nat)
    requires Run(states, events) && Sheltering(states, events) && i < |states| && l < |states[i].pools|
        && e < states[i].nExpert
    ensures NeverWrong(states[i], l, e)
    ensures var p := states[i].pools[l];
      p.expertSlot[e] >= 0 && p.gExpertSlot[e] >= 0 ==> PendingSwap(states[i].swaps, l, e, p.expertSlot[e])
  {
    var s := states[i];
    RunGood(states, events, i);
    GoodNeverWrong(s, l, e);
    assert LayerOk(Settled(s), s.n, s.nExpert, s.landing, s.swaps, l, s.pools[l]);
  }

  /** Whenever a run finishes a swap, its victim's slot is as the swap left it: the branch for anything else is dead. */
  lemma RunCannotHappen(states: seq<State>, events: seq<Event>, i: nat)
    requires Run(states, events) && Sheltering(states, events) && i < |events| && events[i] == Finish
    ensures HeadInRange(states[i])
    ensures var s := states[i]; Judge(Freed(s.pools[s.swaps[0].layer], s.swaps[0]), s.swaps[0]) != CannotHappen
  {
    RunGood(states, events, i);
    FinishFacts(states[i], Settled(states[i]));
    JudgeFacts(states[i], Settled(states[i]));
  }

  /** Blocks are abandoned by failed fetches only: until one fails, every mapped slot that is not valid has its read. */
  lemma {:induction false} RunAbandons(states: seq<State>, events: seq<Event>, i: nat)
    requires Run(states, events) && Sheltering(states, events) && i < |states| && forall j | 0 <= j < i ::
        !events[j].Fail?
    ensures states[i].abandoned <= states[0].abandoned
  {
    if i > 0 {
      RunAbandons(states, events, i - 1);
      RunGood(states, events, i - 1);
      AbandonsNext(states, events, i - 1);
    }
  }

  lemma AbandonsNext(states: seq<State>, events: seq<Event>, i: nat)
    requires Run(states, events) && i < |events| && Good(states[i]) && !events[i].Fail?
    ensures states[i + 1].abandoned <= states[i].abandoned
  {
    NextAbandons(states[i], events[i]);
  }

  lemma NextAbandons(s: State, ev: Event)
    requires Good(s) && Enabled(s, ev) && !ev.Fail?
    ensures Next(s, ev).abandoned <= s.abandoned
  {
  }

  // ---------------------------------------------------------------- the version tells

  /** The residency version never goes back, and says when the residency table may have changed. */
  ghost predicate VersionTells(s: State, t: State) {
    && |t.pools| == |s.pools|
    && forall l | 0 <= l < |s.pools| ::
         t.pools[l].ver >= s.pools[l].ver
             && (t.pools[l].ver == s.pools[l].ver ==> t.pools[l].gExpertSlot == s.pools[l].gExpertSlot)
  }

  lemma {:induction false} NextVersion(s: State, ev: Event)
    requires Good(s) && Enabled(s, ev)
    ensures VersionTells(s, Next(s, ev))
  {
    match ev
    case Done(i) => DoneVersion(s, i);
    case Up(l, e, slot, c) => PromoteVersion(s, l, e, slot, c);
    case Finish => FinishVersion(s);
    case Book(t) => BookSame(s, t);
    case _ => OtherVersion(s, ev);
  }

  lemma {:induction false} OtherVersion(s: State, ev: Event)
    requires Good(s) && Enabled(s, ev) && !ev.Done? && !ev.Up? && !ev.Finish? && !ev.Book?
    ensures VersionTells(s, Next(s, ev))
  {
    hide Inv, Accounted;
  }

  lemma DoneVersion(s: State, i: nat)
    requires Inv(s) && i < |s.claims|
    ensures s.claims[i].layer < |s.pools| && s.claims[i].slot < |s.pools[s.claims[i].layer].ram|
    ensures VersionTells(s, Complete(s, i))
  {
    ClaimInRange(s, i);
  }

  lemma FinishVersion(s: State)
    requires Inv(s) && s.swaps != [] && s.compute == [] && s.release == []
    ensures HeadInRange(s) && VersionTells(s, FinishHead(s))
  {
    FinishKeeps(s);
    FinishReadyAt(s);
    FinishedVersion(Freed(s.pools[s.swaps[0].layer], s.swaps[0]), s.swaps[0]);
  }

  lemma FinishReadyAt(s: State)
    requires HeadInRange(s)
    ensures var w := s.swaps[0]; var p1 := Freed(s.pools[w.layer], w);
      && p1.ver == s.pools[w.layer].ver && p1.gExpertSlot == s.pools[w.layer].gExpertSlot
      && (w.to >= 0 ==> w.to < |p1.ram| && 0 <= w.victim < |p1.expertSlot| && p1.ram[w.to].expert < |p1.expertSlot|)
      && (w.to >= 0 ==> w.victim < |p1.gExpertSlot| && p1.gExpertSlot[w.victim] < |p1.gpu|)
  {
  }

  lemma PromoteVersion(s: State, l: nat, e: nat, slot: nat, c: Choice)
    requires MayPromote(s, l, e, slot, c)
    ensures VersionTells(s, Promote(s, l, e, slot, c))
  {
  }

  lemma FinishedVersion(p: Pool, w: Swap)
    requires w.to >= 0 ==> w.to < |p.ram| && 0 <= w.victim < |p.expertSlot| && p.ram[w.to].expert < |p.expertSlot|
    requires w.to >= 0 ==> w.victim < |p.gExpertSlot| && p.gExpertSlot[w.victim] < |p.gpu|
    ensures Finished(p, w).ver == p.ver && Finished(p, w).gExpertSlot == p.gExpertSlot
  {
  }

  lemma RunStep(states: seq<State>, events: seq<Event>, i: nat)
    requires Run(states, events) && Sheltering(states, events) && i < |events|
    ensures VersionTells(states[i], states[i + 1])
  {
    RunGood(states, events, i);
    NextVersion(states[i], events[i]);
  }

  /** A table built at one point of a run is still the table wherever later in it the version is the same. */
  lemma {:induction false} RunVersion(states: seq<State>, events: seq<Event>, i: nat, j: nat)
    requires Run(states, events) && Sheltering(states, events) && i <= j < |states|
    ensures VersionTells(states[i], states[j])
    decreases j - i
  {
    hide Good, Enabled, VersionTells;
    if i == j {
      VersionSelf(states[i]);
    } else {
      RunVersion(states, events, i, j - 1);
      RunOn(states, events, i, j - 1);
    }
  }

  lemma {:induction false} RunOn(states: seq<State>, events: seq<Event>, i: nat, j: nat)
    requires Run(states, events) && Sheltering(states, events) && i <= j < |events|
    requires VersionTells(states[i], states[j])
    ensures VersionTells(states[i], states[j + 1])
  {
    hide Good, Enabled;
    RunStep(states, events, j);
    VersionTrans(states[i], states[j], states[j + 1]);
  }

  lemma VersionSelf(s: State)
    ensures VersionTells(s, s)
  {
  }

  lemma VersionTrans(s: State, t: State, u: State)
    requires VersionTells(s, t) && VersionTells(t, u)
    ensures VersionTells(s, u)
  {
  }
}
