/**
 * The table of speculative reads: one entry for each predicted expert, addressed by the
 * tags its pieces carry through the read engine, and counted twice, entry by entry and in
 * one total. The reads go through `IoEngine.Engine`, whose workers run as they please.
 */
module SpeculativeReads {
  import opened IoEngine

  const EMPTY := -1

  /** `remaining`: pieces of the expert's read not yet collected. */
  datatype Entry = Entry(layer: nat, expert: nat, slot: nat, remaining: nat)

  /** One layer's RAM slots: whose each is, whether it may be read, and the way back from the expert. */
  datatype Slots = Slots(slotExpert: seq<int>, slotValid: seq<bool>, expertSlot: seq<int>)

  /** A prediction: experts of one layer. */
  datatype Wanted = Wanted(layer: nat, ids: seq<nat>)

  predicate PoolOk(p: Slots) {
    && |p.slotValid| == |p.slotExpert|
    && (forall s :: 0 <= s < |p.slotExpert| ==> EMPTY <= p.slotExpert[s] < |p.expertSlot|)
    && (forall e :: 0 <= e < |p.expertSlot| ==> EMPTY <= p.expertSlot[e] < |p.slotExpert|)
  }

  predicate PoolsOk(pools: seq<Slots>) {
    forall l :: 0 <= l < |pools| ==> PoolOk(pools[l])
  }

  predicate Live(e: Entry) {
    e.remaining > 0
  }

  // ---------------------------------------------------------------- counting

  function Remaining(pending: seq<Entry>): nat {
    if pending == [] then 0 else pending[0].remaining + Remaining(pending[1..])
  }

  function Owed(pending: seq<Entry>, t: Tag): nat {
    if t < |pending| then pending[t].remaining else 0
  }

  lemma {:induction false} RemainingSet(pending: seq<Entry>, i: nat, e: Entry)
    requires i < |pending|
    ensures Remaining(pending[i := e]) + pending[i].remaining == Remaining(pending) + e.remaining
  {
    if i == 0 {
      assert pending[0 := e][1..] == pending[1..];
    } else {
      assert pending[i := e][1..] == pending[1..][i - 1 := e];
      RemainingSet(pending[1..], i - 1, e);
    }
  }

  lemma {:induction false} RemainingSnoc(pending: seq<Entry>, e: Entry)
    ensures Remaining(pending + [e]) == Remaining(pending) + e.remaining
  {
    if pending == [] {
      assert (pending + [e])[1..] == [];
    } else {
      assert (pending + [e])[1..] == pending[1..] + [e];
      RemainingSnoc(pending[1..], e);
    }
  }

  lemma {:induction false} SomeLive(pending: seq<Entry>, i: nat)
    requires i < |pending|
    ensures pending[i].remaining <= Remaining(pending)
  {
    if i > 0 {
      SomeLive(pending[1..], i - 1);
    }
  }

  /** Tag `t` is owed once for every read carrying it that was accepted and not returned, or returned and not yet looked
      at (`extra`), or not yet submitted (`planned`). */
  predicate TagTied(pending: seq<Entry>, accepted: seq<Tag>, returned: seq<Tag>, extra: seq<Tag>, planned: seq<Tag>,
          t: Tag) {
    Owed(pending, t) + Count(returned, t) == Count(accepted, t) + Count(extra, t) + Count(planned, t)
  }

  ghost predicate Tied(pending: seq<Entry>, accepted: seq<Tag>, returned: seq<Tag>, extra: seq<Tag>,
          planned: seq<Tag>) {
    forall t :: TagTied(pending, accepted, returned, extra, planned, t)
  }

  // ---------------------------------------------------------------- slots

  /** A live entry's slot is the expert's, and not to be read yet. */
  predicate SlotHeld(e: Entry, pools: seq<Slots>) {
    Live(e) ==>
      && e.layer < |pools| && e.slot < |pools[e.layer].slotExpert| == |pools[e.layer].slotValid|
      && pools[e.layer].slotExpert[e.slot] == e.expert
      && !pools[e.layer].slotValid[e.slot]
  }

  predicate SamePlace(a: Entry, b: Entry) {
    a.layer == b.layer && a.slot == b.slot
  }

  /** Live entries hold their slots, each its own. */
  predicate SlotsHeld(pending: seq<Entry>, pools: seq<Slots>) {
    && (forall i :: 0 <= i < |pending| ==> SlotHeld(pending[i], pools))
    && (forall i, j ::
          0 <= i < j < |pending| && Live(pending[i]) && Live(pending[j]) ==> !SamePlace(pending[i], pending[j]))
  }

  /** What the rest of the cache may do between two calls: slots of live entries stay as they are, since nothing chooses
      a claimed slot that is not valid. */
  predicate Untouched(pending: seq<Entry>, before: seq<Slots>, after: seq<Slots>) {
    && PoolsOk(after) && |after| == |before|
    && forall i :: 0 <= i < |pending| && Live(pending[i]) && pending[i].layer < |before| ==>
         SameSlot(before[pending[i].layer], after[pending[i].layer], pending[i].slot)
  }

  predicate SameSlot(p: Slots, q: Slots, s: nat) {
    s < |p.slotExpert| == |p.slotValid| ==>
      && s < |q.slotExpert| == |q.slotValid|
      && q.slotExpert[s] == p.slotExpert[s] && q.slotValid[s] == p.slotValid[s]
  }

  /** The slots that became readable: those of entries whose last piece was collected. */
  predicate Finished(was: seq<Entry>, now: seq<Entry>, l: nat, s: nat) {
    exists i :: 0 <= i < |was| <= |now| && Live(was[i]) && !Live(now[i]) && was[i].layer == l && was[i].slot == s
  }

  predicate Advanced(was: seq<Entry>, now: seq<Entry>, i: nat) {
    i < |was| == |now| && now[i] == was[i].(remaining := now[i].remaining) && now[i].remaining <= was[i].remaining
  }

  ghost predicate OnlyFinished(was: seq<Entry>, now: seq<Entry>, before: seq<Slots>, after: seq<Slots>) {
    && |was| == |now| && (forall i :: 0 <= i < |was| ==> Advanced(was, now, i))
    && |before| == |after|
    && forall l :: 0 <= l < |before| ==> ValidWhere(was, now, before[l], after[l], l)
  }

  predicate ValidWhere(was: seq<Entry>, now: seq<Entry>, p: Slots, q: Slots, l: nat) {
    && q.slotExpert == p.slotExpert && q.expertSlot == p.expertSlot && |q.slotValid| == |p.slotValid|
    && forall s :: 0 <= s < |p.slotValid| ==> (q.slotValid[s] <==> p.slotValid[s] || Finished(was, now, l, s))
  }

  // ---------------------------------------------------------------- the table

  class Table {
    const io: Engine
    var pending: seq<Entry>
    var outstanding: nat
    var pools: seq<Slots>

    /** Between calls: the two counts agree, with each other and with the engine; tags address entries; and live entries
        hold their slots. */
    ghost predicate Valid()
      reads this, io
    {
      && Inv(io.View()) && io.reaper == Away && io.poster == Quiet
      && PoolsOk(pools) && SlotsHeld(pending, pools)
      && outstanding == Remaining(pending) == |io.accepted| - |io.returned|
      && Tied(pending, io.accepted, io.returned, [], [])
    }

    constructor (shards: nat, queueDepth: nat, layers: seq<Slots>)
      requires PoolsOk(layers)
      ensures Valid() && pending == [] && pools == layers && fresh(io)
    {
      io := new Engine(shards, queueDepth);
      pending, outstanding, pools := [], 0, layers;
    }

    /** One completion: the entry its tag addresses has a piece less to wait for, and with the last one its slot may be
        read. */
    method Collect(t: Tag, ghost rest: seq<Tag>)
      requires PoolsOk(pools) && SlotsHeld(pending, pools)
      requires Tied(pending, io.accepted, io.returned, [t] + rest, [])
      requires forall x :: Count(io.returned, x) <= Count(io.accepted, x)
      modifies this`pending, this`pools
      ensures PoolsOk(pools) && SlotsHeld(pending, pools)
      ensures Tied(pending, io.accepted, io.returned, rest, [])
      ensures Remaining(pending) + 1 == Remaining(old(pending))
      ensures OnlyFinished(old(pending), pending, old(pools), pools)
    {
      TagLive(pending, io.accepted, io.returned, t, rest);
      var e := pending[t];
      ghost var was := pending;
      RemainingSet(pending, t, e.(remaining := e.remaining - 1));
      pending := pending[t := e.(remaining := e.remaining - 1)];
      TagCollected(was, io.accepted, io.returned, t, rest);
      assert SlotHeld(e, pools);
      if e.remaining == 1 && pools[e.layer].slotExpert[e.slot] == e.expert {
        var p := pools[e.layer];
        pools := pools[e.layer := p.(slotValid := p.slotValid[e.slot := true])];
      }
      CollectedSlots(was, pending, old(pools), pools, t);
    }

    /** Drain completions: at least `minComplete` of them, or all there are to come. The branch of the code for a count
        that has drifted is never entered. */
    method PfReap(minComplete: nat)
      requires Valid()
      modifies this`pending, this`pools, this`outstanding, io
      ensures Valid()
      ensures OnlyFinished(old(pending), pending, old(pools), pools)
      ensures outstanding <= old(outstanding) && Least(minComplete, old(outstanding)) <= old(outstanding) - outstanding
    {
      NothingFinished(pending, pools);
      if outstanding == 0 {
        return;
      }
      var need := Least(minComplete, outstanding);
      var more := true;
      while more
        invariant Valid()
        invariant OnlyFinished(old(pending), pending, old(pools), pools)
        invariant outstanding <= old(outstanding)
        invariant 0 <= need <= outstanding
        invariant Least(minComplete, old(outstanding)) <= old(outstanding) - outstanding + need
        invariant more ==> outstanding > 0
        invariant !more ==> need == 0
        decreases more, outstanding
      {
        ghost var table, slots := pending, pools;
        var got := ReapOnce(need);
        AlsoFinished(old(pending), table, pending, old(pools), slots, pools);
        if got == 0 {
          if need > 0 {
            assert false;
          }
          break;
        }
        need := if need > got then need - got else 0;
        more := need > 0 && outstanding > 0;
      }
    }

    /** One call to the engine and the completions it hands out. */
    method ReapOnce(need: nat) returns (got: nat)
      requires Valid() && need <= outstanding
      modifies this`pending, this`pools, this`outstanding, io
      ensures Valid()
      ensures OnlyFinished(old(pending), pending, old(pools), pools)
      ensures got <= old(outstanding) && outstanding == old(outstanding) - got
      ensures need > 0 ==> got > 0
    {
      var tags := io.Reap(256, need);
      TagsTaken(pending, io.accepted, old(io.returned), tags);
      ReturnedFewer(io.View());
      got := |tags|;
      CollectAll(tags);
      outstanding := outstanding - Least(got, outstanding);
    }

    method CollectAll(tags: seq<Tag>)
      requires PoolsOk(pools) && SlotsHeld(pending, pools)
      requires Tied(pending, io.accepted, io.returned, tags, [])
      requires forall t :: Count(io.returned, t) <= Count(io.accepted, t)
      modifies this`pending, this`pools
      ensures PoolsOk(pools) && SlotsHeld(pending, pools)
      ensures Tied(pending, io.accepted, io.returned, [], [])
      ensures Remaining(pending) + |tags| == Remaining(old(pending))
      ensures OnlyFinished(old(pending), pending, old(pools), pools)
    {
      NothingFinished(pending, pools);
      assert tags[0..] == tags;
      for k := 0 to |tags|
        invariant PoolsOk(pools) && SlotsHeld(pending, pools)
        invariant Tied(pending, io.accepted, io.returned, tags[k..], [])
        invariant Remaining(pending) + k == Remaining(old(pending))
        invariant OnlyFinished(old(pending), pending, old(pools), pools)
      {
        ghost var table, slots := pending, pools;
        assert tags[k..] == [tags[k]] + tags[k + 1..];
        Collect(tags[k], tags[k + 1..]);
        AlsoFinished(old(pending), table, pending, old(pools), slots, pools);
      }
      assert tags[|tags|..] == [];
    }

    predicate LayerPending(layer: nat)
      reads this
    {
      exists i :: 0 <= i < |pending| && pending[i].layer == layer && Live(pending[i])
    }

    predicate NeededPending(layer: nat, ids: seq<nat>)
      reads this
    {
      exists i :: 0 <= i < |pending| && pending[i].layer == layer && Live(pending[i]) && pending[i].expert in ids
    }

    method ClearIfIdle()
      requires Valid()
      modifies this`pending
      ensures Valid()
      ensures pending == if outstanding == 0 then [] else old(pending)
    {
      if outstanding == 0 {
        NoneOwed(pending, io.accepted, io.returned);
        pending := [];
      }
    }

    /** Wait for the reads of one layer. */
    method SettleLayer(layer: nat)
      requires Valid()
      modifies this`pending, this`pools, this`outstanding, io
      ensures Valid() && !LayerPending(layer)
    {
      while outstanding > 0 && LayerPending(layer)
        invariant Valid()
        decreases outstanding
      {
        PfReap(1);
      }
      NoneLive(pending);
      ClearIfIdle();
    }

    /** Wait for the reads of some experts of one layer. */
    method SettleFor(layer: nat, ids: seq<nat>)
      requires Valid()
      modifies this`pending, this`pools, this`outstanding, io
      ensures Valid() && !NeededPending(layer, ids)
    {
      while outstanding > 0 && NeededPending(layer, ids)
        invariant Valid()
        decreases outstanding
      {
        PfReap(1);
      }
      NoneLive(pending);
      ClearIfIdle();
    }

    /** Wait for everything. */
    method Settle()
      requires Valid()
      modifies this`pending, this`pools, this`outstanding, io
      ensures Valid() && pending == [] && outstanding == 0
    {
      while outstanding > 0
        invariant Valid()
        decreases outstanding
      {
        PfReap(1);
      }
      ClearIfIdle();
    }

    /** The rest of the cache between two calls (see TakeUntouched): the table stands. */
    method Elsewhere(after: seq<Slots>)
      requires Valid() && Untouched(pending, pools, after)
      modifies this`pools
      ensures Valid() && pools == after
    {
      StillHeld(pending, pools, after);
      pools := after;
    }

    /** In the middle of a prediction: some pieces are planned and not yet submitted. */
    ghost predicate Planning(reqs: seq<Request>)
      reads this, io
    {
      && Inv(io.View()) && io.reaper == Away && io.poster == Quiet
      && PoolsOk(pools) && SlotsHeld(pending, pools)
      && outstanding == |io.accepted| - |io.returned|
      && Remaining(pending) == outstanding + |reqs|
      && Tied(pending, io.accepted, io.returned, [], Tags(reqs))
    }

    /** Take slot `v` for expert `e` and plan its pieces; with nothing to read the slot is readable at once. */
    method Claim(layer: nat, e: nat, v: nat, pieces: seq<Request>, reqs: seq<Request>) returns (r: seq<Request>)
      requires Planning(reqs) && layer < |pools| && e < |pools[layer].expertSlot| && MayTake(pools[layer], v)
      modifies this`pending, this`pools
      ensures Planning(r) && |r| == |reqs| + |pieces| && |pools| == |old(pools)|
      ensures pending == AfterClaim(old(pending), Entry(layer, e, v, |pieces|))
      ensures pools == old(pools)[layer := Given(old(pools)[layer], e, v, pieces == [])]
    {
      var tag := |pending|;
      ClaimHolds(pending, pools, layer, e, v, |pieces|);
      ClaimTied(pending, io.accepted, io.returned, reqs, pieces, Entry(layer, e, v, |pieces|));
      assert PoolOk(pools[layer]);
      var readable := GiveSlot(layer, e, v, |pieces| == 0);
      r := reqs + Tagged(pieces, tag);
      if !readable {
        pending := pending + [Entry(layer, e, v, |pieces|)];
      }
    }

    method GiveSlot(layer: nat, e: nat, v: nat, nothingToRead: bool) returns (readable: bool)
      requires layer < |pools| && PoolOk(pools[layer]) && e < |pools[layer].expertSlot| && v < |pools[layer].slotExpert|
      modifies this`pools
      ensures pools == old(pools)[layer := Given(old(pools)[layer], e, v, nothingToRead)]
      ensures readable == nothingToRead
    {
      var p := pools[layer];
      var back := p.expertSlot;
      if p.slotExpert[v] != EMPTY {
        back := back[p.slotExpert[v] := EMPTY];
      }
      p := Slots(p.slotExpert[v := e], p.slotValid[v := false], back[e := v]);
      readable := nothingToRead;
      if readable && p.slotExpert[v] == e {
        p := p.(slotValid := p.slotValid[v := true]);
      }
      assert old(pools)[layer].slotValid[v := false][v := true] == old(pools)[layer].slotValid[v := true];
      pools := pools[layer := p];
    }

    /** One layer's prediction: experts in VRAM, resident or on their way are passed over, as are those no slot can be
        had for. */
    method PlanSet(w: Wanted, inVram: (nat, nat) -> bool, pieces: (nat, nat) -> seq<Request>, reqs: seq<Request>)
      returns (r: seq<Request>)
      requires Planning(reqs) && forall l, e :: |pieces(l, e)| <= 24
      modifies this`pending, this`pools
      ensures Planning(r) && |r| >= |reqs| && |pools| == |old(pools)|
      ensures Grown(old(pending), pending, [w], inVram)
    {
      r := reqs;
      if w.layer >= |pools| {
        return;
      }
      var i := 0;
      while i < |w.ids| && |r| + 24 <= 3072
        invariant 0 <= i <= |w.ids|
        invariant Planning(r) && |r| >= |reqs| && |pools| == |old(pools)|
        invariant Grown(old(pending), pending, [w], inVram)
        decreases |w.ids| - i
      {
        var e := w.ids[i];
        i := i + 1;
        var p := pools[w.layer];
        if e >= |p.expertSlot| || inVram(w.layer, e) {
          continue;
        }
        var cs := p.expertSlot[e];
        if cs >= 0 && p.slotExpert[cs] == e {
          continue;
        }
        var found: bool := *;
        if found && exists v :: 0 <= v < |p.slotExpert| && MayTake(p, v) {
          var v :| 0 <= v < |p.slotExpert| && MayTake(p, v);
          ghost var before := pending;
          r := Claim(w.layer, e, v, pieces(w.layer, e), r);
          GrownOne(old(pending), before, Entry(w.layer, e, v, |pieces(w.layer, e)|), w, inVram);
        }
      }
    }

    /** Issue the reads of some predictions. */
    method PrefetchBegin(sets: seq<Wanted>, inVram: (nat, nat) -> bool, pieces: (nat, nat) -> seq<Request>)
      requires Valid() && forall l, e :: |pieces(l, e)| <= 24
      modifies this`pending, this`pools, this`outstanding, io
      ensures Valid()
      ensures forall i :: 0 <= i < |pending| && Live(pending[i]) ==>
                WasLive(old(pending), pending[i]) || Predicted(sets, inVram, pending[i])
    {
      PfReap(0);
      ghost var reaped := pending;
      ClearIfIdle();
      if |pending| > 4096 {
        Settle();
      }
      ghost var start := pending;
      KeptLive(old(pending), reaped, start);
      var reqs: seq<Request> := [];
      assert Tags(reqs) == [];
      for s := 0 to |sets|
        invariant Planning(reqs)
        invariant Grown(start, pending, sets[..s], inVram)
      {
        ghost var before := pending;
        reqs := PlanSet(sets[s], inVram, pieces, reqs);
        GrownMore(start, before, pending, sets, s, inVram);
      }
      assert sets[..|sets|] == sets;
      GrownLive(old(pending), start, pending, sets, inVram);
      if |reqs| == 0 {
        return;
      }
      ghost var accepted := io.accepted;
      var sub := io.Post(reqs);
      PlanSubmitted(pending, accepted, io.accepted, io.returned, reqs);
      outstanding := outstanding + sub;
    }
  }

  // ---------------------------------------------------------------- claims

  /** Slots a prediction may be given: free ones, or readable ones to evict. */
  predicate MayTake(p: Slots, v: nat) {
    v < |p.slotExpert| == |p.slotValid| && (p.slotExpert[v] == EMPTY || p.slotValid[v])
  }

  function Given(p: Slots, e: nat, v: nat, readable: bool): Slots
    requires PoolOk(p) && e < |p.expertSlot| && v < |p.slotExpert|
  {
    var back := if p.slotExpert[v] == EMPTY then p.expertSlot else p.expertSlot[p.slotExpert[v] := EMPTY];
    Slots(p.slotExpert[v := e], p.slotValid[v := readable], back[e := v])
  }

  /** Giving a slot that may be taken to another expert, read or not, is nothing to the live entries ... */
  lemma TakeUntouched(pending: seq<Entry>, pools: seq<Slots>, layer: nat, e: nat, v: nat, readable: bool)
    requires PoolsOk(pools) && SlotsHeld(pending, pools)
    requires layer < |pools| && e < |pools[layer].expertSlot| && MayTake(pools[layer], v)
    ensures Untouched(pending, pools, pools[layer := Given(pools[layer], e, v, readable)])
  {
    forall i | 0 <= i < |pending| && Live(pending[i]) && pending[i].layer == layer ensures pending[i].slot != v {
      assert SlotHeld(pending[i], pools);
    }
  }

  /** ... and what is nothing to them leaves them their slots. */
  lemma StillHeld(pending: seq<Entry>, before: seq<Slots>, after: seq<Slots>)
    requires SlotsHeld(pending, before) && Untouched(pending, before, after)
    ensures SlotsHeld(pending, after)
  {
    forall i | 0 <= i < |pending| ensures SlotHeld(pending[i], after) {
      assert SlotHeld(pending[i], before);
      assert Live(pending[i]) ==> SameSlot(before[pending[i].layer], after[pending[i].layer], pending[i].slot);
    }
  }

  function Tagged(pieces: seq<Request>, tag: Tag): (r: seq<Request>)
    ensures |r| == |pieces| && forall i :: 0 <= i < |r| ==> r[i].tag == tag
  {
    seq(|pieces|, i requires 0 <= i < |pieces| => pieces[i].(tag := tag))
  }

  predicate Predicted(sets: seq<Wanted>, inVram: (nat, nat) -> bool, e: Entry) {
    !inVram(e.layer, e.expert) && exists i :: 0 <= i < |sets| && sets[i].layer == e.layer && e.expert in sets[i].ids
  }

  predicate WasLive(was: seq<Entry>, e: Entry) {
    exists i :: 0 <= i < |was| && Live(was[i]) && SamePlace(was[i], e) && was[i].expert == e.expert
  }

  /** Entries were only added, for predicted experts. */
  predicate Grown(was: seq<Entry>, now: seq<Entry>, sets: seq<Wanted>, inVram: (nat, nat) -> bool) {
    was <= now && forall i :: |was| <= i < |now| ==> Predicted(sets, inVram, now[i])
  }

  lemma GrownOne(was: seq<Entry>, mid: seq<Entry>, e: Entry, w: Wanted, inVram: (nat, nat) -> bool)
    requires Grown(was, mid, [w], inVram) && e.layer == w.layer && e.expert in w.ids && !inVram(e.layer, e.expert)
    ensures Grown(was, AfterClaim(mid, e), [w], inVram)
  {
    assert [w][0] == w;
    assert Predicted([w], inVram, e);
  }

  lemma GrownMore(was: seq<Entry>, mid: seq<Entry>, now: seq<Entry>, sets: seq<Wanted>, s: nat,
          inVram: (nat, nat) -> bool)
    requires s < |sets| && Grown(was, mid, sets[..s], inVram) && Grown(mid, now, [sets[s]], inVram)
    ensures Grown(was, now, sets[..s + 1], inVram)
  {
    forall i | |was| <= i < |now| ensures Predicted(sets[..s + 1], inVram, now[i]) {
      if i < |mid| {
        assert now[i] == mid[i] && Predicted(sets[..s], inVram, mid[i]);
        var k :| 0 <= k < s && sets[..s][k].layer == mid[i].layer && mid[i].expert in sets[..s][k].ids;
        assert sets[..s + 1][k] == sets[..s][k];
      } else {
        assert Predicted([sets[s]], inVram, now[i]);
        assert sets[..s + 1][s] == sets[s];
      }
    }
  }

  lemma KeptLive(was: seq<Entry>, reaped: seq<Entry>, start: seq<Entry>)
    requires |was| == |reaped| && forall i :: 0 <= i < |was| ==> Advanced(was, reaped, i)
    requires start == reaped || start == []
    ensures forall i :: 0 <= i < |start| && Live(start[i]) ==> WasLive(was, start[i])
  {
    forall i | 0 <= i < |start| && Live(start[i]) ensures WasLive(was, start[i]) {
      assert Advanced(was, reaped, i);
      assert Live(was[i]) && SamePlace(was[i], start[i]);
    }
  }

  lemma GrownLive(was: seq<Entry>, start: seq<Entry>, now: seq<Entry>, sets: seq<Wanted>, inVram: (nat, nat) -> bool)
    requires forall i :: 0 <= i < |start| && Live(start[i]) ==> WasLive(was, start[i])
    requires Grown(start, now, sets, inVram)
    ensures forall i :: 0 <= i < |now| && Live(now[i]) ==> WasLive(was, now[i]) || Predicted(sets, inVram, now[i])
  {
    forall i | 0 <= i < |now| && Live(now[i]) ensures WasLive(was, now[i]) || Predicted(sets, inVram, now[i]) {
      if i < |start| {
        assert now[i] == start[i];
      }
    }
  }

  /** A slot that may be taken is no live entry's. */
  lemma ClaimHolds(pending: seq<Entry>, pools: seq<Slots>, layer: nat, e: nat, v: nat, count: nat)
    requires PoolsOk(pools) && SlotsHeld(pending, pools)
    requires layer < |pools| && e < |pools[layer].expertSlot| && MayTake(pools[layer], v)
    ensures var after := pools[layer := Given(pools[layer], e, v, count == 0)];
            && PoolsOk(after)
            && SlotsHeld(AfterClaim(pending, Entry(layer, e, v, count)), after)
  {
    var after := pools[layer := Given(pools[layer], e, v, count == 0)];
    var more := AfterClaim(pending, Entry(layer, e, v, count));
    forall i | 0 <= i < |pending| ensures SlotHeld(pending[i], after) {
      assert SlotHeld(pending[i], pools);
    }
    forall i, j | 0 <= i < j < |more| && Live(more[i]) && Live(more[j]) ensures !SamePlace(more[i], more[j]) {
      assert SlotHeld(pending[i], pools);
      assert j < |pending| ==> !SamePlace(pending[i], pending[j]);
    }
  }

  lemma {:induction false} CountTagged(pieces: seq<Request>, tag: Tag, t: Tag)
    ensures Count(Tags(Tagged(pieces, tag)), t) == if t == tag then |pieces| else 0
  {
    if pieces != [] {
      assert Tags(Tagged(pieces, tag))[1..] == Tags(Tagged(pieces[1..], tag));
      CountTagged(pieces[1..], tag, t);
    }
  }

  function AfterClaim(pending: seq<Entry>, e: Entry): seq<Entry> {
    if Live(e) then pending + [e] else pending
  }

  /** A new entry owes its planned pieces, under the tag that addresses it. */
  lemma ClaimTied(was: seq<Entry>, accepted: seq<Tag>, returned: seq<Tag>, reqs: seq<Request>, pieces: seq<Request>,
          e: Entry)
    requires Tied(was, accepted, returned, [], Tags(reqs)) && e.remaining == |pieces|
    ensures Tied(AfterClaim(was, e), accepted, returned, [], Tags(reqs + Tagged(pieces, |was|)))
    ensures Remaining(AfterClaim(was, e)) == Remaining(was) + |pieces|
  {
    var now, tagged := AfterClaim(was, e), Tagged(pieces, |was|);
    RemainingSnoc(was, e);
    assert Tags(reqs + tagged) == Tags(reqs) + Tags(tagged);
    forall t: nat ensures TagTied(now, accepted, returned, [], Tags(reqs + tagged), t) {
      assert TagTied(was, accepted, returned, [], Tags(reqs), t);
      CountAppend(Tags(reqs), Tags(tagged), t);
      CountTagged(pieces, |was|, t);
      assert Owed(now, t) == Owed(was, t) + (if t == |was| then |pieces| else 0);
    }
  }

  lemma PlanSubmitted(pending: seq<Entry>, before: seq<Tag>, accepted: seq<Tag>, returned: seq<Tag>, reqs: seq<Request>)
    requires Tied(pending, before, returned, [], Tags(reqs)) && accepted == before + Tags(reqs)
    ensures Tied(pending, accepted, returned, [], [])
  {
    forall t: nat ensures TagTied(pending, accepted, returned, [], [], t) {
      assert TagTied(pending, before, returned, [], Tags(reqs), t);
      CountAppend(before, Tags(reqs), t);
    }
  }

  // ---------------------------------------------------------------- completions

  lemma NothingFinished(pending: seq<Entry>, pools: seq<Slots>)
    ensures OnlyFinished(pending, pending, pools, pools)
  {
  }

  lemma AlsoFinished(a: seq<Entry>, b: seq<Entry>, c: seq<Entry>, p: seq<Slots>, q: seq<Slots>, r: seq<Slots>)
    requires OnlyFinished(a, b, p, q) && OnlyFinished(b, c, q, r)
    ensures OnlyFinished(a, c, p, r)
  {
    forall i | 0 <= i < |a| ensures Advanced(a, c, i) {
      assert Advanced(a, b, i) && Advanced(b, c, i);
    }
    forall l | 0 <= l < |p| ensures ValidWhere(a, c, p[l], r[l], l) {
      assert ValidWhere(a, b, p[l], q[l], l) && ValidWhere(b, c, q[l], r[l], l);
      forall s | 0 <= s < |p[l].slotValid|
        ensures r[l].slotValid[s] <==> p[l].slotValid[s] || Finished(a, c, l, s)
      {
        FinishedEither(a, b, c, l, s);
      }
    }
  }

  lemma FinishedEither(a: seq<Entry>, b: seq<Entry>, c: seq<Entry>, l: nat, s: nat)
    requires |a| == |b| == |c|
    requires forall i :: 0 <= i < |a| ==> Advanced(a, b, i)
    requires forall i :: 0 <= i < |b| ==> Advanced(b, c, i)
    ensures Finished(a, c, l, s) <==> Finished(a, b, l, s) || Finished(b, c, l, s)
  {
    if i :| 0 <= i < |a| && Live(a[i]) && !Live(c[i]) && a[i].layer == l && a[i].slot == s {
      assert Advanced(a, b, i);
      assert if Live(b[i]) then Finished(b, c, l, s) else Finished(a, b, l, s);
    }
    if i :| 0 <= i < |a| && Live(a[i]) && !Live(b[i]) && a[i].layer == l && a[i].slot == s {
      assert Advanced(b, c, i);
      assert !Live(c[i]);
    }
    if i :| 0 <= i < |b| && Live(b[i]) && !Live(c[i]) && b[i].layer == l && b[i].slot == s {
      assert Advanced(a, b, i);
      assert Live(a[i]);
    }
  }

  lemma TagsTaken(pending: seq<Entry>, accepted: seq<Tag>, before: seq<Tag>, tags: seq<Tag>)
    requires Tied(pending, accepted, before, [], [])
    ensures Tied(pending, accepted, before + tags, tags, [])
  {
    forall t: nat ensures TagTied(pending, accepted, before + tags, tags, [], t) {
      assert TagTied(pending, accepted, before, [], [], t);
      CountAppend(before, tags, t);
    }
  }

  lemma ReturnedFewer(p: IoEngine.Pool)
    requires Inv(p)
    ensures forall t :: Count(p.returned, t) <= Count(p.accepted, t)
  {
    forall t: nat ensures Count(p.returned, t) <= Count(p.accepted, t) {
      assert Balanced(p, t);
    }
  }

  lemma NoneLive(pending: seq<Entry>)
    ensures Remaining(pending) == 0 ==> forall i :: 0 <= i < |pending| ==> !Live(pending[i])
  {
    forall i | 0 <= i < |pending| ensures pending[i].remaining <= Remaining(pending) {
      SomeLive(pending, i);
    }
  }

  lemma NoneOwed(pending: seq<Entry>, accepted: seq<Tag>, returned: seq<Tag>)
    requires Tied(pending, accepted, returned, [], []) && Remaining(pending) == 0
    ensures Tied([], accepted, returned, [], [])
  {
    NoneLive(pending);
    forall t: nat ensures TagTied([], accepted, returned, [], [], t) {
      assert TagTied(pending, accepted, returned, [], [], t);
    }
  }

  lemma TagLive(pending: seq<Entry>, accepted: seq<Tag>, returned: seq<Tag>, t: Tag, rest: seq<Tag>)
    requires Tied(pending, accepted, returned, [t] + rest, [])
    requires forall x :: Count(returned, x) <= Count(accepted, x)
    ensures t < |pending| && Live(pending[t])
  {
    assert TagTied(pending, accepted, returned, [t] + rest, [], t);
    CountAppend([t], rest, t);
  }

  lemma TagCollected(was: seq<Entry>, accepted: seq<Tag>, returned: seq<Tag>, t: Tag, rest: seq<Tag>)
    requires Tied(was, accepted, returned, [t] + rest, []) && t < |was| && Live(was[t])
    ensures Tied(was[t := was[t].(remaining := was[t].remaining - 1)], accepted, returned, rest, [])
  {
    var now := was[t := was[t].(remaining := was[t].remaining - 1)];
    forall x: nat ensures TagTied(now, accepted, returned, rest, [], x) {
      assert TagTied(was, accepted, returned, [t] + rest, [], x);
      CountAppend([t], rest, x);
      assert Count([t], x) == One(t, x);
    }
  }

  /** One entry moved on by one piece; its slot became readable if that was the last. */
  lemma CollectedSlots(was: seq<Entry>, now: seq<Entry>, before: seq<Slots>, after: seq<Slots>, t: nat)
    requires PoolsOk(before) && SlotsHeld(was, before) && t < |was| && Live(was[t])
    requires now == was[t := was[t].(remaining := was[t].remaining - 1)]
    requires var e := was[t];
             if e.remaining == 1
             then after == before[e.layer := before[e.layer].(slotValid := before[e.layer].slotValid[e.slot := true])]
             else after == before
    ensures PoolsOk(after) && SlotsHeld(now, after) && OnlyFinished(was, now, before, after)
  {
    forall i | 0 <= i < |now| ensures SlotHeld(now[i], after) {
      assert SlotHeld(was[i], before) && SlotHeld(was[t], before);
    }
    forall l | 0 <= l < |before| ensures ValidWhere(was, now, before[l], after[l], l) {
      forall s | 0 <= s < |before[l].slotValid|
        ensures after[l].slotValid[s] <==> before[l].slotValid[s] || Finished(was, now, l, s)
      {
        assert !Live(now[t]) && was[t].layer == l && was[t].slot == s ==> Finished(was, now, l, s);
      }
    }
  }
}
