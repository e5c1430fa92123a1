/** A VRAM slot that names an expert whose map points to another one: how it comes about, and that it is the one thing
    that makes a decode layer compute an expert twice. */
module Strays {
  import opened Hardware
  import opened TierState
  import opened TierSteps
  import opened TierProofs
  import opened TierReads
  import opened TierFetch
  import opened TierRuns
  import opened MoeSplit

  // ---------------------------------------------------------------- how a stray comes about

  /** After a promotion its expert is in one VRAM slot exactly when no slot but the one it took named it before. */
  lemma PromotedStrayIff(s: State, l: nat, e: nat, slot: nat, c: Choice)
    requires MayPromote(s, l, e, slot, c)
    ensures NoStray(Promote(s, l, e, slot, c).pools[l], e)
       <==> forall g | 0 <= g < |s.pools[l].gpu| && g != c.victim :: s.pools[l].gpu[g].expert != e
  {
    var p, q := s.pools[l], Promote(s, l, e, slot, c).pools[l];
    assert q.gpu == p.gpu[c.victim := GpuSlot(e, true, s.tick)];
    if NoStray(q, e) {
      forall g | 0 <= g < |p.gpu| && g != c.victim ensures p.gpu[g].expert != e { assert q.gpu[g] == p.gpu[g]; }
    }
  }

  /** After a promotion that may be made. */
  ghost function Promoted(s: State, l: nat, e: nat, slot: nat, c: Choice): (t: State)
    requires MayPromote(s, l, e, slot, c)
    ensures |t.pools| == |s.pools| && |t.pools[l].gpu| == |s.pools[l].gpu|
        && |t.pools[l].gExpertSlot| == |s.pools[l].gExpertSlot|
  {
    Promote(s, l, e, slot, c)
  }

  /** The input: a tier is refilled from a list with one entry per valid RAM slot, so an expert that two slots hold is
      on it twice. The second promotion finds the first one's slot in use, takes another, and leaves the first a stray.
      */
  lemma {:induction false} ListedTwiceStrays(s: State, l: nat, e: nat, slot: nat, c: Choice, d: Choice)
    requires s.tick >= s.epoch && MayPromote(s, l, e, slot, c) && MayPromote(Promoted(s, l, e, slot, c), l, e, slot, d)
    ensures var q := Promoted(Promoted(s, l, e, slot, c), l, e, slot, d).pools[l];
      !NoStray(q, e) && d.victim != c.victim && q.gpu[c.victim].expert == e && q.gExpertSlot[e] == d.victim
  {
    var t := Promote(s, l, e, slot, c);
    assert t.pools[l].gpu[c.victim] == GpuSlot(e, true, s.tick);
    PromotedStrayIff(t, l, e, slot, d);
  }

  /** Both may run: an empty tier of two slots, nothing queued and the expert's block valid in RAM. */
  lemma MayListTwice(s: State, l: nat, e: nat, slot: nat)
    requires Shape(s) && IsRam(s, l, slot) && IsExpert(s, l, e) && NoLanding(s, l) && !s.pools[l].lent
    requires s.pools[l].expertSlot[e] == slot && s.pools[l].ram[slot].valid && s.pools[l].ram[slot].expert == e
    requires |s.pools[l].gpu| >= 2 && s.pools[l].gpu[0].expert == EMPTY && s.pools[l].gpu[1].expert == EMPTY
    ensures var c, d := Choice(0, EMPTY, EMPTY), Choice(1, EMPTY, EMPTY);
      MayPromote(s, l, e, slot, c) && MayPromote(Promote(s, l, e, slot, c), l, e, slot, d)
  {
    var c := Choice(0, EMPTY, EMPTY);
    var t := Promote(s, l, e, slot, c);
    var p, q := s.pools[l], t.pools[l];
    assert q.gpu == p.gpu[0 := GpuSlot(e, true, s.tick)] && q.gExpertSlot == p.gExpertSlot[e := 0] && q.ram == p.ram;
    assert PoolShape(q, t.nExpert);
  }

  // ---------------------------------------------------------------- ... over whole runs

  ghost predicate StrayFree(s: State) {
    forall l, e | 0 <= l < |s.pools| && 0 <= e < s.nExpert :: NoStray(s.pools[l], e)
  }

  /** The promoted expert is not in VRAM, or its own slot is the one it takes over. */
  ghost predicate Fresh(s: State, ev: Event) {
    ev.Up? && ev.l < |s.pools| && ev.e < |s.pools[ev.l].gExpertSlot| ==>
      s.pools[ev.l].gExpertSlot[ev.e] in {EMPTY, ev.c.victim}
  }

  lemma {:induction false} UpStrays(s: State, l: nat, e: nat, slot: nat, c: Choice)
    requires Good(s) && MayPromote(s, l, e, slot, c) && StrayFree(s)
    ensures StrayFree(Promote(s, l, e, slot, c)) <==> s.pools[l].gExpertSlot[e] in {EMPTY, c.victim}
  {
    var p, t := s.pools[l], Promote(s, l, e, slot, c);
    assert LayerOk(Settled(s), s.n, s.nExpert, s.landing, s.swaps, l, p);
    assert NoStray(p, e);
    PromotedVram(s, l, e, slot, c);
    PromotedStrayIff(s, l, e, slot, c);
    if StrayFree(t) { assert NoStray(t.pools[l], e); }
    if NoStray(t.pools[l], e) {
      forall m, x | 0 <= m < |t.pools| && 0 <= x < t.nExpert ensures NoStray(t.pools[m], x) {
        assert NoStray(s.pools[m], x);
        if m == l && x != e { OthersStrays(p, t.pools[l], e, c.victim, s.tick, x); }
            else if m != l { assert t.pools[m] == s.pools[m]; }
      }
    }
  }

  lemma OthersStrays(p: Pool, q: Pool, e: nat, victim: nat, tick: nat, x: nat)
    requires victim < |p.gpu| && e < |p.gExpertSlot| && p.gpu[victim].expert < |p.gExpertSlot|
    requires q.gpu == p.gpu[victim := GpuSlot(e, true, tick)]
    requires q.gExpertSlot == (if p.gpu[victim].expert >= 0 then p.gExpertSlot[p.gpu[victim].expert := EMPTY]
        else p.gExpertSlot)[e := victim]
    requires NoStray(p, x) && x != e
    ensures NoStray(q, x)
  {
    forall g | 0 <= g < |q.gpu| && q.gpu[g].expert == x
        ensures q.gExpertSlot[x] == g { assert q.gpu[g] == p.gpu[g] && p.gExpertSlot[x] == g; }
  }

  /** Every other event leaves the VRAM tiers' slots with whom they name, or empties a tier. */
  lemma {:induction false} OtherStrays(s: State, ev: Event)
    requires Good(s) && Enabled(s, ev) && !ev.Up? && StrayFree(s)
    ensures StrayFree(Next(s, ev))
  {
    var t := Next(s, ev);
    VramAfter(s, ev);
    forall m, x | 0 <= m < |t.pools| && 0 <= x < t.nExpert ensures NoStray(t.pools[m], x) {
      assert NoStray(s.pools[m], x) && SameNames(s.pools[m], t.pools[m]);
    }
  }

  ghost predicate SameNames(p: Pool, q: Pool) {
    |q.gExpertSlot| == |p.gExpertSlot| &&
    ((q.gExpertSlot == p.gExpertSlot && |q.gpu| == |p.gpu| && forall g | 0 <= g < |p.gpu| ::
        q.gpu[g].expert == p.gpu[g].expert)
     || (forall g | 0 <= g < |q.gpu| :: q.gpu[g].expert == EMPTY))
  }

  lemma {:induction false} VramAfter(s: State, ev: Event)
    requires Good(s) && Enabled(s, ev) && !ev.Up?
    ensures var t := Next(s, ev); |t.pools| == |s.pools| && t.nExpert == s.nExpert && forall m | 0 <= m < |s.pools| ::
        SameNames(s.pools[m], t.pools[m])
  {
    hide Inv, Accounted;
    match ev
    case Finish => FinishNames(s);
    case Book(t) =>
      forall l | 0 <= l < |s.pools| ensures SamePool(s.pools[l], t.pools[l]) { assert IsLayer(s, l); }
    case Done(i) => ClaimInRange(s, i);
    case Take(kind, l, v, e) => TakeNames(s, kind, l, v, e);
    case Lend(l) => LendNames(s, l);
    case _ =>
  }

  lemma FinishNames(s: State)
    requires Inv(s) && s.swaps != [] && s.compute == [] && s.release == []
    ensures HeadInRange(s) && |FinishHead(s).pools| == |s.pools| && FinishHead(s).nExpert == s.nExpert
    ensures forall m | 0 <= m < |s.pools| :: SameNames(s.pools[m], FinishHead(s).pools[m])
  {
    FinishFacts(s, Settled(s));
  }

  lemma TakeNames(s: State, kind: Kind, l: nat, v: nat, e: nat)
    requires MayClaim(s, l, v, e)
    ensures var t := ClaimSlot(s, kind, l, v, e); |t.pools| == |s.pools| && forall m | 0 <= m < |s.pools| ::
        SameNames(s.pools[m], t.pools[m])
  {
  }

  lemma LendNames(s: State, l: nat)
    requires l < |s.pools| && Shape(s)
    ensures forall m | 0 <= m < |s.pools| :: SameNames(s.pools[m], LendLayer(s, l).pools[m])
  {
    assert |Lent(s.pools[l]).gExpertSlot| == |s.pools[l].gExpertSlot|;
  }

  /** A run that starts without strays stays without them exactly when each promotion is of an expert not in VRAM -- as
      every promotion of a fetch is. */
  lemma RunStrayIff(states: seq<State>, events: seq<Event>)
    requires Run(states, events) && Sheltering(states, events) && StrayFree(states[0])
    ensures (forall i | 0 <= i < |states| :: StrayFree(states[i]))
        <==> (forall i | 0 <= i < |events| :: Fresh(states[i], events[i]))
  {
    if forall i | 0 <= i < |states| :: StrayFree(states[i]) {
      forall i | 0 <= i < |events| ensures Fresh(states[i], events[i]) {
        assert StrayFree(states[i]) && StrayFree(states[i + 1]);
        StrayStep(states, events, i);
      }
    }
    if forall i | 0 <= i < |events| :: Fresh(states[i], events[i]) {
      forall i | 0 <= i < |states| ensures StrayFree(states[i]) { RunStrayFree(states, events, i); }
    }
  }

  lemma {:induction false} RunStrayFree(states: seq<State>, events: seq<Event>, i: nat)
    requires Run(states, events) && Sheltering(states, events) && StrayFree(states[0]) && i < |states|
    requires forall j | 0 <= j < |events| :: Fresh(states[j], events[j])
    ensures StrayFree(states[i])
  {
    hide StrayFree, Good, Enabled, Unsafe, Fresh;
    if i > 0 {
      RunStrayFree(states, events, i - 1);
      StrayStep(states, events, i - 1);
    }
  }

  lemma StrayStep(states: seq<State>, events: seq<Event>, i: nat)
    requires Run(states, events) && Sheltering(states, events) && i < |events| && StrayFree(states[i])
    ensures StrayFree(states[i + 1]) <==> Fresh(states[i], events[i])
  {
    RunGood(states, events, i);
    var s, ev := states[i], events[i];
    if ev.Up? { UpStrays(s, ev.l, ev.e, ev.slot, ev.c); } else { OtherStrays(s, ev); }
  }

  // ---------------------------------------------------------------- what a fetch may do to one of its experts

  /** One turn of a fetch for expert x of layer l: used where it is in VRAM, promoted, converted, claimed or noted. */
  ghost predicate Turned(s: State, t: State, l: nat, x: nat) {
    Promotes(s, t, l, x) || Claims(s, t, l, x) || Converts(s, t, l) || Uses(s, t, l) || Notes(s, t)
  }

  ghost predicate Promotes(s: State, t: State, l: nat, x: nat) {
    exists slot: nat, c :: MayPromote(s, l, x, slot, c) && t == Promote(s, l, x, slot, c)
  }

  ghost predicate Claims(s: State, t: State, l: nat, x: nat) {
    exists v: nat :: MayClaim(s, l, v, x) && t == ClaimSlot(s, Demand, l, v, x)
  }

  ghost predicate Converts(s: State, t: State, l: nat) {
    exists k: nat :: IsRam(s, l, k) && t == Convert(s, l, k)
  }

  ghost predicate Uses(s: State, t: State, l: nat) {
    exists g :: IsGpu(s, l, g) && t == Used(s, l, g)
  }

  ghost predicate Notes(s: State, t: State) {
    s.tick <= t.tick && t == s.(live := t.live, tick := t.tick)
  }

  ghost function Used(s: State, l: nat, g: int): State
    requires IsGpu(s, l, g)
  {
    s.(pools := s.pools[l := s.pools[l].(gpu := s.pools[l].gpu[g := s.pools[l].gpu[g].(used := s.tick)])])
  }

  /** What a fetch may do before it comes to expert e: turns of other experts, one after another. */
  ghost predicate Turns(states: seq<State>, others: seq<nat>, s: State, l: nat, e: nat) {
    && |states| == |others| + 1 && states[0] == s
    && forall i | 0 <= i < |others| :: others[i] != e && Turned(states[i], states[i + 1], l, others[i])
  }

  /** Another VRAM slot, last used before this fetch, names the expert. */
  ghost predicate OldStray(p: Pool, e: nat, epoch: nat) {
    e < |p.gExpertSlot| && exists g ::
        0 <= g < |p.gpu| && p.gpu[g].expert == e && p.gpu[g].used < epoch && p.gExpertSlot[e] != g
  }

  /** The expert is in VRAM and stamped, and no old stray names it. */
  ghost predicate Safe(s: State, l: nat, e: nat, g: nat) {
    && IsGpu(s, l, g) && IsExpert(s, l, e) && e < |s.pools[l].gExpertSlot| && s.pools[l].gExpertSlot[e] == g
    && s.tick >= s.epoch && s.pools[l].gpu[g].used >= s.epoch && !OldStray(s.pools[l], e, s.epoch)
  }

  /** What a turn may do to the VRAM tier: a slot is stamped, or an unused or older slot changes hands. */
  ghost predicate VramTurn(p: Pool, q: Pool, x: nat, tick: nat, epoch: nat) {
    || (q.gExpertSlot == p.gExpertSlot && q.gpu == p.gpu)
    || (q.gExpertSlot == p.gExpertSlot && exists h :: 0 <= h < |p.gpu| && q.gpu == p.gpu[h := p.gpu[h].(used := tick)])
    || (exists h: nat :: h < |p.gpu| && TakenOver(p, q, x, h, tick, epoch))
  }

  ghost predicate TakenOver(p: Pool, q: Pool, x: nat, h: nat, tick: nat, epoch: nat)
    requires h < |p.gpu|
  {
    var v := p.gpu[h].expert;
    && (v >= 0 ==> p.gpu[h].used < epoch && v < |p.gExpertSlot|) && x < |p.gExpertSlot|
    && q.gpu == p.gpu[h := GpuSlot(x, true, tick)]
    && q.gExpertSlot == (if v >= 0 then p.gExpertSlot[v := EMPTY] else p.gExpertSlot)[x := h]
  }

  /** What a turn leaves of the rest, and does to the tier. */
  ghost predicate VramTurned(s: State, t: State, l: nat, x: nat) {
    && l < |s.pools| == |t.pools| && t.nExpert == s.nExpert && t.epoch == s.epoch && t.tick >= s.tick
    && VramTurn(s.pools[l], t.pools[l], x, s.tick, s.epoch)
  }

  lemma TurnVram(s: State, t: State, l: nat, x: nat)
    requires Turned(s, t, l, x) && l < |s.pools|
    ensures VramTurned(s, t, l, x)
  {
    if Promotes(s, t, l, x) {
      PromotesVram(s, t, l, x);
    } else if Claims(s, t, l, x) {
      ClaimsVram(s, t, l, x);
    } else if Converts(s, t, l) {
      var k: nat :| IsRam(s, l, k) && t == Convert(s, l, k);
    } else if Uses(s, t, l) {
      var g :| IsGpu(s, l, g) && t == Used(s, l, g);
      assert t.pools[l].gpu == s.pools[l].gpu[g := s.pools[l].gpu[g].(used := s.tick)];
    }
  }

  lemma PromotesVram(s: State, t: State, l: nat, x: nat)
    requires Promotes(s, t, l, x) && l < |s.pools|
    ensures VramTurned(s, t, l, x)
  {
    var slot: nat, c :| MayPromote(s, l, x, slot, c) && t == Promote(s, l, x, slot, c);
    PromotedVram(s, l, x, slot, c);
    assert TakenOver(s.pools[l], t.pools[l], x, c.victim, s.tick, s.epoch);
  }

  lemma ClaimsVram(s: State, t: State, l: nat, x: nat)
    requires Claims(s, t, l, x) && l < |s.pools|
    ensures VramTurned(s, t, l, x)
  {
    var v: nat :| MayClaim(s, l, v, x) && t == ClaimSlot(s, Demand, l, v, x);
  }

  lemma VramTurnKeeps(p: Pool, q: Pool, x: nat, tick: nat, epoch: nat, e: nat, g: nat)
    requires VramTurn(p, q, x, tick, epoch) && x != e && tick >= epoch
    requires e < |p.gExpertSlot| && g < |p.gpu| && p.gExpertSlot[e] == g && p.gpu[g].used >= epoch
        && !OldStray(p, e, epoch)
    ensures e < |q.gExpertSlot| && g < |q.gpu| && q.gExpertSlot[e] == g && q.gpu[g].used >= epoch
        && !OldStray(q, e, epoch)
  {
    forall h | 0 <= h < |p.gpu| && p.gpu[h].expert == e && p.gpu[h].used < epoch ensures h == g { }
    forall h | 0 <= h < |q.gpu| && q.gpu[h].expert == e && q.gpu[h].used < epoch
        ensures h == g { assert q.gpu[h] == p.gpu[h]; }
  }

  lemma TurnSafe(s: State, t: State, l: nat, x: nat, e: nat, g: nat)
    requires Safe(s, l, e, g) && Turned(s, t, l, x) && x != e
    ensures Safe(t, l, e, g)
  {
    TurnVram(s, t, l, x);
    VramTurnKeeps(s.pools[l], t.pools[l], x, s.tick, s.epoch, e, g);
  }

  ghost predicate SameClock(s: State, t: State) {
    t.nExpert == s.nExpert && t.epoch == s.epoch && t.tick == s.tick && |t.pools| == |s.pools|
  }

  lemma PromotedVram(s: State, l: nat, x: nat, slot: nat, c: Choice)
    requires MayPromote(s, l, x, slot, c)
    ensures var p, q := s.pools[l], Promote(s, l, x, slot, c).pools[l]; var v := p.gpu[c.victim].expert;
      && q.gpu == p.gpu[c.victim := GpuSlot(x, true, s.tick)]
      && q.gExpertSlot == (if v >= 0 then p.gExpertSlot[v := EMPTY] else p.gExpertSlot)[x := c.victim]
      && SameClock(s, Promote(s, l, x, slot, c))
  {
  }

  lemma {:induction false} TurnsSafe(states: seq<State>, others: seq<nat>, s: State, l: nat, e: nat, g: nat, i: nat)
    requires Turns(states, others, s, l, e) && Safe(s, l, e, g) && i < |states|
    ensures Safe(states[i], l, e, g)
  {
    if i > 0 {
      TurnsSafe(states, others, s, l, e, g, i - 1);
      TurnSafe(states[i - 1], states[i], l, others[i - 1], e, g);
    }
  }

  /** Some other expert of the fetch is in RAM and the tier takes promotions. */
  ghost predicate OtherPromotable(s: State, l: nat, e: nat, x: nat, slot: nat) {
    && x != e && Shape(s) && IsRam(s, l, slot) && IsExpert(s, l, x) && NoLanding(s, l) && !s.pools[l].lent
    && s.pools[l].expertSlot[x] == slot && s.pools[l].ram[slot].valid && s.pools[l].ram[slot].expert == x
  }

  /** However the turns before an expert's own go, it stays where the residency table found it, exactly when no other
      VRAM slot last used before this fetch names it (or there is nobody else to promote). */
  lemma StaysIff(s: State, l: nat, e: nat, g: nat, x: nat, slot: nat)
    requires IsGpu(s, l, g) && IsExpert(s, l, e) && e < |s.pools[l].gExpertSlot| && s.pools[l].gExpertSlot[e] == g
    requires s.tick >= s.epoch && s.pools[l].gpu[g].used >= s.epoch && OtherPromotable(s, l, e, x, slot)
    ensures (forall states: seq<State>, others: seq<nat>, i: nat | Turns(states, others, s, l, e) && i < |states| ::
        StillAt(states[i], l, e, g))
       <==> !OldStray(s.pools[l], e, s.epoch)
  {
    if !OldStray(s.pools[l], e, s.epoch) {
      forall states: seq<State>, others: seq<nat>, i: nat | Turns(states, others, s, l, e) && i < |states|
          ensures StillAt(states[i], l, e, g) {
        TurnsSafe(states, others, s, l, e, g, i);
      }
    } else {
      var c, t := StrayTaken(s, l, e, g, x, slot);
      assert !StillAt([s, t][1], l, e, g);
    }
  }

  ghost predicate StillAt(s: State, l: nat, e: nat, g: nat) {
    l < |s.pools| && e < |s.pools[l].gExpertSlot| && s.pools[l].gExpertSlot[e] == g
  }

  /** The input: a promotion takes the stray as its victim, and the expert's map entry, which points elsewhere, is
      dropped with it. */
  lemma StrayTaken(s: State, l: nat, e: nat, g: nat, x: nat, slot: nat) returns (c: Choice, t: State)
    requires IsGpu(s, l, g) && IsExpert(s, l, e) && e < |s.pools[l].gExpertSlot| && s.pools[l].gExpertSlot[e] == g
    requires OtherPromotable(s, l, e, x, slot) && OldStray(s.pools[l], e, s.epoch)
    ensures MayPromote(s, l, x, slot, c) && t == Promote(s, l, x, slot, c) && Turns([s, t], [x], s, l, e)
    ensures e < |t.pools[l].gExpertSlot| && t.pools[l].gExpertSlot[e] == EMPTY
    ensures t.pools[l].gpu[g] == s.pools[l].gpu[g]
  {
    var h :| 0 <= h < |s.pools[l].gpu| && s.pools[l].gpu[h].expert == e && s.pools[l].gpu[h].used < s.epoch
        && s.pools[l].gExpertSlot[e] != h;
    c := Choice(h, EMPTY, EMPTY);
    t := Promote(s, l, x, slot, c);
    PromotedVram(s, l, x, slot, c);
    assert Promotes(s, t, l, x);
  }

  // ---------------------------------------------------------------- what that does to the mixture

  /** What an expert's own turn hands out, by where its map points then. */
  ghost predicate HandedOut(p: Pool, e: nat, h: Handle) {
    && e < |p.gExpertSlot|
    && (p.gExpertSlot[e] >= 0 ==> h == Handle(true, p.gExpertSlot[e], false))
    && (p.gExpertSlot[e] < 0 && h.onGpu ==> h.late)
  }

  /** The step for the i-th expert, given any handle its turn may end in after the turns of others. */
  ghost predicate OnceAlways(st: Step, i: nat, s: State, l: nat)
    requires l < |s.pools| && i < |st.ids|
  {
    forall states: seq<State>, others: seq<nat>, k: nat, h |
      Turns(states, others, s, l, st.ids[i]) && k < |states| && l < |states[k].pools|
        && HandedOut(states[k].pools[l], st.ids[i], h) && Given(st, i, h).Valid() ::
      Given(st, i, h).Times(i) == 1
  }

  function Given(st: Step, i: nat, h: Handle): Step {
    if i < |st.hs| then st.(hs := st.hs[i := h]) else st
  }

  /** A resident of VRAM is computed once, whatever its fetch does before it comes to it, exactly when no other VRAM
      slot last used before this fetch names it. */
  lemma OnceIff(st: Step, i: nat, s: State, l: nat, g: nat, x: nat, slot: nat, ram: nat)
    requires st.Valid() && i < |st.ids| && st.mask[st.ids[i]] && st.ram(ram) == st.ids[i]
    requires IsGpu(s, l, g) && IsExpert(s, l, st.ids[i]) && st.ids[i] < |s.pools[l].gExpertSlot|
    requires s.pools[l].gExpertSlot[st.ids[i]] == g
    requires s.tick >= s.epoch && s.pools[l].gpu[g].used >= s.epoch && OtherPromotable(s, l, st.ids[i], x, slot)
    ensures OnceAlways(st, i, s, l) <==> !OldStray(s.pools[l], st.ids[i], s.epoch)
  {
    var e := st.ids[i];
    if !OldStray(s.pools[l], e, s.epoch) {
      forall states: seq<State>, others: seq<nat>, k: nat, h |
        Turns(states, others, s, l, e) && k < |states| && l < |states[k].pools|
          && HandedOut(states[k].pools[l], e, h) && Given(st, i, h).Valid()
        ensures Given(st, i, h).Times(i) == 1
      {
        TurnsSafe(states, others, s, l, e, g, k);
      }
    } else {
      var c, t := StrayTaken(s, l, e, g, x, slot);
      var h := Handle(false, ram, false);   // not in VRAM any more: computed from RAM, by the host
      assert Given(st, i, h).Valid();
      assert [s, t][1] == t && HandedOut(t.pools[l], e, h);
      assert Given(st, i, h).Times(i) == 2;
    }
  }

  /** ... and then the layer's mixture is wrong wherever the expert has weight. */
  lemma TwiceIsWrong(st: Step, i: nat, j: nat)
    requires st.Valid() && i < |st.ids| && j < st.r.T && st.Times(i) == 2 && Weight(st.r, j, st.ids[i], st.r.U) != 0.0
    ensures !forall y: nat -> real :: Exact(st, j, y)
  {
    SplitExactIff(st, j);
  }
}
