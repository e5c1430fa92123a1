/** What every run keeps besides the truth of the tiers: a staging entry is busy only while a promotion needs it, and a
    pinned RAM slot is given up only by the promotion of its own expert. */
module RunKeeps {
  import opened Hardware
  import opened TierState
  import opened TierSteps
  import opened TierProofs
  import opened TierReads
  import opened TierRuns

  // ---------------------------------------------------------------- the staging ring

  ghost predicate HasRing(ws: seq<Swap>, r: int) {
    exists i :: 0 <= i < |ws| && ws[i].ring == r
  }

  /** A busy staging entry is that of a pending swap or of a read-back under way. */
  ghost predicate RingsHeld(s: State) {
    forall r | 0 <= r < |s.ringBusy| && s.ringBusy[r] :: HasRing(s.swaps, r) || HasRing(s.landing, r)
  }

  lemma {:induction false} FreeRingsOnly(busy: seq<bool>, ws: seq<Swap>)
    ensures |FreeRings(busy, ws)| == |busy|
    ensures forall r | 0 <= r < |busy| :: FreeRings(busy, ws)[r] <==> busy[r] && !HasRing(ws, r)
    decreases ws
  {
    if ws != [] {
      var less := if 0 <= ws[0].ring < |busy| then busy[ws[0].ring := false] else busy;
      FreeRingsOnly(less, ws[1..]);
      forall r | 0 <= r < |busy| ensures FreeRings(busy, ws)[r] <==> busy[r] && !HasRing(ws, r) {
        RingFirst(ws, r);
      }
    }
  }

  lemma RingFirst(ws: seq<Swap>, r: int)
    requires ws != []
    ensures HasRing(ws, r) <==> ws[0].ring == r || HasRing(ws[1..], r)
  {
    if i :| 0 <= i < |ws[1..]| && ws[1..][i].ring == r { assert ws[i + 1].ring == r; }
    if i :| 0 < i < |ws| && ws[i].ring == r { assert ws[1..][i - 1].ring == r; }
  }

  lemma RingLast(ws: seq<Swap>, w: Swap, r: int)
    ensures HasRing(ws + [w], r) <==> HasRing(ws, r) || w.ring == r
  {
    if i :| 0 <= i < |ws| && ws[i].ring == r { assert (ws + [w])[i].ring == r; }
    assert (ws + [w])[|ws|] == w;
  }

  lemma NextRings(s: State, ev: Event)
    requires Good(s) && Enabled(s, ev) && RingsHeld(s)
    ensures RingsHeld(Next(s, ev))
  {
    match ev
    case Up(l, e, slot, c) => PromoteRings(s, l, e, slot, c);
    case Finish => FinishRings(s);
    case LandAll => FreeRingsOnly(s.ringBusy, s.landing);
    case _ =>
  }

  lemma PromoteRings(s: State, l: nat, e: nat, slot: nat, c: Choice)
    requires MayPromote(s, l, e, slot, c) && RingsHeld(s)
    ensures RingsHeld(Promote(s, l, e, slot, c))
  {
    var t := Promote(s, l, e, slot, c);
    var w := t.swaps[|s.swaps|];
    assert t.swaps == s.swaps + [w];
    forall r | 0 <= r < |t.ringBusy| && t.ringBusy[r] ensures HasRing(t.swaps, r) || HasRing(t.landing, r) {
      RingLast(s.swaps, w, r);
    }
  }

  lemma FinishRings(s: State)
    requires Good(s) && s.swaps != [] && s.compute == [] && s.release == [] && RingsHeld(s)
    ensures HeadInRange(s) && RingsHeld(FinishHead(s))
  {
    FinishKeeps(s);
    var t, w := FinishHead(s), s.swaps[0];
    forall r | 0 <= r < |t.ringBusy| && t.ringBusy[r] ensures HasRing(t.swaps, r) || HasRing(t.landing, r) {
      RingFirst(s.swaps, r);
      RingLast(s.landing, w, r);
    }
  }

  /** No staging entry is lost: once no swap is pending and no read-back under way, all of them are free again. */
  lemma {:induction false} RunRings(states: seq<State>, events: seq<Event>, i: nat)
    requires Run(states, events) && Sheltering(states, events) && RingsHeld(states[0]) && i < |states|
    ensures RingsHeld(states[i])
    ensures states[i].swaps == [] && states[i].landing == [] ==> forall r | 0 <= r < |states[i].ringBusy| ::
        !states[i].ringBusy[r]
  {
    if i > 0 {
      RunRings(states, events, i - 1);
      RunGood(states, events, i - 1);
      NextRings(states[i - 1], events[i - 1]);
    }
  }

  // ---------------------------------------------------------------- pinned slots

  /** The slot still names its expert, with its block if it had it. */
  ghost predicate SlotStays(s: State, t: State, l: nat, k: nat) {
    && IsRam(s, l, k) && IsRam(t, l, k)
    && t.pools[l].ram[k].expert == s.pools[l].ram[k].expert
    && (s.pools[l].ram[k].valid ==> t.pools[l].ram[k].valid)
  }

  /** The oldest swap is the slot's own: its block's way up, or a victim's way into it. */
  ghost predicate OwnSwap(s: State, ev: Event, l: nat, k: nat) {
    ev.Finish? && s.swaps != [] && s.swaps[0].layer == l && (s.swaps[0].from == k || s.swaps[0].to == k)
  }

  /** Nothing but its own swap takes a pinned slot from its expert. */
  lemma PinnedStays(s: State, ev: Event, l: nat, k: nat)
    requires Good(s) && Enabled(s, ev) && IsRam(s, l, k) && s.pools[l].ram[k].pinned && s.pools[l].ram[k].expert >= 0
    requires !OwnSwap(s, ev, l, k)
    ensures SlotStays(s, Next(s, ev), l, k)
  {
    match ev
    case Up(l', e, slot, c) => PinnedPromote(s, l', e, slot, c, l, k);
    case Finish => PinnedFinish(s, l, k);
    case Book(t) => BookSame(s, t);
    case _ => PinnedElse(s, ev, l, k);
  }

  lemma PinnedElse(s: State, ev: Event, l: nat, k: nat)
    requires Good(s) && Enabled(s, ev) && IsRam(s, l, k) && s.pools[l].ram[k].pinned && s.pools[l].ram[k].expert >= 0
    requires !ev.Up? && !ev.Finish? && !ev.Book?
    ensures SlotStays(s, Next(s, ev), l, k)
  {
    match ev
    case Take(kind, l', v, e) => PinnedTake(s, kind, l', v, e, l, k);
    case Done(i) => PinnedDone(s, i, l, k);
    case _ => hide Inv, Accounted;
  }

  lemma PinnedTake(s: State, kind: Kind, l: nat, v: nat, e: nat, m: nat, k: nat)
    requires MayClaim(s, l, v, e) && IsRam(s, m, k) && s.pools[m].ram[k].pinned
    ensures SlotStays(s, ClaimSlot(s, kind, l, v, e), m, k)
  {
  }

  lemma PinnedDone(s: State, i: nat, l: nat, k: nat)
    requires Inv(s) && i < |s.claims| && IsRam(s, l, k)
    ensures s.claims[i].layer < |s.pools| && s.claims[i].slot < |s.pools[s.claims[i].layer].ram|
    ensures SlotStays(s, Complete(s, i), l, k)
  {
    ClaimInRange(s, i);
    hide Inv;
  }

  lemma PinnedFinish(s: State, l: nat, k: nat)
    requires Good(s) && s.swaps != [] && s.compute == [] && s.release == [] && IsRam(s, l, k)
    requires !(s.swaps[0].layer == l && (s.swaps[0].from == k || s.swaps[0].to == k))
    ensures HeadInRange(s) && SlotStays(s, FinishHead(s), l, k)
  {
    FinishKeeps(s);
    FinishReadyAt(s);
    hide Inv, Accounted, Finished;
    var w := s.swaps[0];
    if w.layer == l { FinishedElsewhere(Freed(s.pools[l], w), w, k); }
  }

  lemma FinishedElsewhere(p: Pool, w: Swap, k: nat)
    requires w.to >= 0 ==> w.to < |p.ram| && 0 <= w.victim < |p.expertSlot| && p.ram[w.to].expert < |p.expertSlot|
    requires w.to >= 0 ==> w.victim < |p.gExpertSlot| && p.gExpertSlot[w.victim] < |p.gpu|
    requires k < |p.ram| && k != w.to
    ensures |Finished(p, w).ram| == |p.ram| && Finished(p, w).ram[k] == p.ram[k]
  {
  }

  lemma PinnedPromote(s: State, l: nat, e: nat, slot: nat, c: Choice, m: nat, k: nat)
    requires MayPromote(s, l, e, slot, c) && IsRam(s, m, k) && s.pools[m].ram[k].pinned
    requires s.pools[m].ram[k].expert >= 0
    ensures SlotStays(s, Promote(s, l, e, slot, c), m, k)
  {
  }
}
