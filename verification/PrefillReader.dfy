/**
 * The bulk streamer's double buffer: one thread loads layers, a reader thread reads
 * ahead, and one mutex with one condition variable stands between them.
 *
 * As in `IoEngine` the steps are the critical sections, with the reader's notification
 * (sent after it has released the mutex) as a step of its own. Layers are numbered from
 * zero and `NONE` stands for "no layer".
 */
module PrefillReader {

  const NONE := -1

  /** What a staging buffer's bytes are: a completed read of one layer, or not. */
  datatype Data = Torn | Whole(layer: int)

  /** `listed`: the buffer's read leaves out experts that the VRAM tier held. */
  datatype Buffer = Buffer(layer: int, ready: bool, failed: bool, listed: bool, data: Data)

  datatype Reader = Looking | Asleep | Reading(layer: int, target: int) | Telling

  datatype Consumer = Out | Waiting(index: int, layer: int, asleep: bool)

  datatype Stage = Stage(hb: seq<Buffer>, front: int, wantLayer: int, wantBuf: int, reading: bool,
                         reader: Reader, consumer: Consumer, loaded: int, device: Data)

  const EMPTY := Buffer(NONE, false, false, false, Torn)

  const START := Stage([EMPTY, EMPTY], 0, NONE, 0, false, Looking, Out, NONE, Torn)

  // ---------------------------------------------------------------- steps

  predicate Staged(s: Stage, i: int, layer: int)
    requires |s.hb| == 2 && 0 <= i < 2
  {
    s.hb[i].layer == layer
  }

  function Wake(r: Reader): Reader {
    if r == Asleep then Looking else r
  }

  /** Send the read of `layer` to buffer `t`. */
  function Target(s: Stage, layer: int, t: int, listed: bool): Stage
    requires |s.hb| == 2 && 0 <= t < 2
  {
    s.(hb := s.hb[t := Buffer(layer, false, false, listed, s.hb[t].data)],
       wantLayer := layer, wantBuf := t, reader := Wake(s.reader))
  }

  function Untag(s: Stage): Stage
    requires |s.hb| == 2 && 0 <= s.wantBuf < 2
  {
    if s.wantLayer >= 0 then s.(hb := s.hb[s.wantBuf := s.hb[s.wantBuf].(layer := NONE)]) else s
  }

  function Enqueued(s: Stage, layer: int, listed: bool): (r: (Stage, int))
    requires |s.hb| == 2 && 0 <= s.wantBuf < 2 && 0 <= s.front < 2
    ensures r.1 == 0 || r.1 == 1
  {
    if Staged(s, 0, layer) then (s, 0)
    else if Staged(s, 1, layer) then (s, 1)
    else
      var t := if s.reading then 1 - s.wantBuf else 1 - s.front;
      (Target(Untag(s), layer, t, listed), t)
  }

  function Prefetched(s: Stage, layer: int, listed: bool): Stage
    requires |s.hb| == 2 && 0 <= s.front < 2
  {
    if Staged(s, 0, layer) || Staged(s, 1, layer) then s
    else if s.wantLayer >= 0 || s.reading then s
    else Target(s, layer, 1 - s.front, listed)
  }

  /** The consumer looks at the buffer it is after: take it, give up, or sleep. */
  function Looked(s: Stage, i: int, layer: int): Stage
    requires |s.hb| == 2 && 0 <= i < 2
  {
    var b := s.hb[i];
    if !((b.ready || b.failed) && b.layer == layer) then s.(consumer := Waiting(i, layer, true))
    else if b.failed then
      s.(hb := s.hb[i := b.(layer := NONE)], consumer := Out)
    else
      s.(front := i, loaded := layer, device := b.data, consumer := Out)
  }

  function Loading(s: Stage, layer: int, listed: bool): Stage
    requires |s.hb| == 2 && 0 <= s.wantBuf < 2 && 0 <= s.front < 2
  {
    if s.loaded == layer then s
    else var (r, i) := Enqueued(s, layer, listed); Looked(r, i, layer)
  }

  function DroppedOne(s: Stage, i: int): Stage
    requires |s.hb| == 2 && 0 <= i < 2
  {
    var b := s.hb[i];
    if !b.listed || (s.reading && s.wantBuf == i) then s
    else
      s.(wantLayer := if s.wantLayer == b.layer && s.wantBuf == i then NONE else s.wantLayer,
         hb := s.hb[i := b.(layer := NONE, ready := false, listed := false)])
  }

  function Dropped(s: Stage): Stage
    requires |s.hb| == 2
  {
    DroppedOne(DroppedOne(s, 0), 1).(loaded := NONE)
  }

  /** A read-ahead that is taken up and succeeds leaves the layer whole and ready behind the front. */
  lemma PrefetchArrives(s: Stage, layer: nat, listed: bool)
    requires Shaped(s) && s.consumer == Out && s.hb[0].layer != layer && s.hb[1].layer != layer
    requires s.wantLayer < 0 && !s.reading && (s.reader == Asleep || s.reader == Looking)
    ensures var a := Prefetched(s, layer, listed); Enabled(a, Read(true))
    ensures var b := ReaderMoved(Prefetched(s, layer, listed), true); Enabled(b, Read(true))
    ensures var d := ReaderMoved(ReaderMoved(Prefetched(s, layer, listed), true), true);
            && d.hb[1 - s.front] == Buffer(layer, true, false, listed, Whole(layer))
            && d.hb[s.front] == s.hb[s.front] && d.front == s.front && d.device == s.device && d.loaded == s.loaded
            && d.wantLayer < 0 && !d.reading
  {
  }

  datatype Event =
    | Prefetch(layer: nat, listed: bool)
    | Load(layer: nat, listed: bool)
    | Drop
    | Release
    | Resume
    | Read(ok: bool)

  predicate Shaped(s: Stage) {
    && |s.hb| == 2 && 0 <= s.front < 2 && 0 <= s.wantBuf < 2
    && (s.reader.Reading? ==> 0 <= s.reader.target < 2)
    && (s.consumer.Waiting? ==> 0 <= s.consumer.index < 2)
  }

  predicate Enabled(s: Stage, e: Event) {
    && Shaped(s)
    && match e
       case Resume => s.consumer.Waiting? && !s.consumer.asleep
       case Read(_) => s.reader != Asleep
       case _ => s.consumer == Out
  }

  /** One step of the reader thread; `ok` is the fate of a read that ends here. */
  function ReaderMoved(s: Stage, ok: bool): Stage
    requires Enabled(s, Read(ok))
  {
    match s.reader
    case Looking =>
      if s.wantLayer < 0 then s.(reader := Asleep)
      else s.(reader := Reading(s.wantLayer, s.wantBuf), wantLayer := NONE, reading := true,
              hb := s.hb[s.wantBuf := s.hb[s.wantBuf].(data := Torn)])
    case Reading(l, t) =>
      s.(hb := s.hb[t := s.hb[t].(ready := ok, failed := !ok, data := if ok then Whole(l) else Torn)],
         reading := false, reader := Telling)
    case Telling =>
      s.(reader := Looking,
         consumer := if s.consumer.Waiting? then s.consumer.(asleep := false) else s.consumer)
  }

  function Next(s: Stage, e: Event): Stage
    requires Enabled(s, e)
  {
    match e
    case Prefetch(l, listed) => Prefetched(s, l, listed)
    case Load(l, listed) => Loading(s, l, listed)
    case Drop => Dropped(s)
    case Release => s.(loaded := NONE, device := Torn)
    case Resume => Looked(s, s.consumer.index, s.consumer.layer)
    case Read(ok) => ReaderMoved(s, ok)
  }

  // ---------------------------------------------------------------- invariant

  predicate Queued(s: Stage, i: int, layer: int) {
    s.wantLayer >= 0 && s.wantLayer == layer && s.wantBuf == i
  }

  predicate Running(s: Stage, i: int, layer: int) {
    s.reader == Reading(layer, i)
  }

  /** The reader is reading into buffer `i`, or is going to. */
  predicate Targeted(s: Stage, i: int) {
    (s.wantLayer >= 0 && s.wantBuf == i) || (s.reader.Reading? && s.reader.target == i)
  }

  /** A tag is a promise: the read is complete, has failed, or is on its way. */
  predicate TagKept(s: Stage, i: int)
    requires Shaped(s) && 0 <= i < 2
  {
    var b := s.hb[i];
    && b.layer >= NONE
    && (b.layer >= 0 ==>
          if b.ready then !b.failed && b.data == Whole(b.layer) && !Targeted(s, i)
          else if b.failed then !Targeted(s, i)
          else Queued(s, i, b.layer) || Running(s, i, b.layer))
    && (b.layer < 0 ==> !Targeted(s, i))
  }

  /** The two jobs never share a buffer, and the buffer number tells where the running read goes whenever nothing is
      queued behind it. */
  predicate JobsApart(s: Stage)
    requires Shaped(s)
  {
    && s.reading == s.reader.Reading?
    && (s.reader.Reading? ==>
          if s.wantLayer >= 0 then s.wantBuf == 1 - s.reader.target else s.wantBuf == s.reader.target)
  }

  /** Outside a load at most one job exists, and not for the front buffer; inside one the jobs are for the buffer waited
      on, or are a read-ahead ahead of it. */
  predicate FrontKept(s: Stage)
    requires Shaped(s)
  {
    match s.consumer
    case Out =>
      && !Targeted(s, s.front)
      && !(s.reader.Reading? && s.wantLayer >= 0)
    case Waiting(i, l, _) =>
      && l >= 0 && s.loaded != l && s.hb[i].layer == l
      && (s.reader.Reading? && s.wantLayer >= 0 ==> s.wantBuf == i)
      && (Targeted(s, 1 - i) ==> s.front == i)
  }

  /** A sleeping reader has nothing to do; a sleeping consumer's buffer is on its way, or the notification is. */
  predicate NoLostWake(s: Stage)
    requires Shaped(s)
  {
    && (s.reader == Asleep ==> s.wantLayer < 0)
    && (s.consumer.Waiting? && s.consumer.asleep ==>
          Targeted(s, s.consumer.index) || s.reader == Telling)
  }

  /** The front buffer is tagged with the layer, and its read is complete. */
  predicate Current(s: Stage, layer: int)
    requires Shaped(s)
  {
    s.hb[s.front].layer == layer && s.hb[s.front].ready
  }

  predicate FrontSettled(s: Stage) {
    s.consumer == Out || s.consumer.index != s.front
  }

  /** The layer that counts as loaded is on the device; that it is in the front buffer too, the buffer's tag tells. */
  predicate LoadedThere(s: Stage)
    requires Shaped(s)
  {
    s.loaded >= 0 ==>
      && s.device == Whole(s.loaded)
      && (FrontSettled(s) && s.hb[s.front].data == Whole(s.loaded) ==> Current(s, s.loaded))
  }

  predicate FailedTorn(s: Stage)
    requires Shaped(s)
  {
    (s.hb[0].failed ==> s.hb[0].data == Torn) && (s.hb[1].failed ==> s.hb[1].data == Torn)
  }

  predicate Inv(s: Stage) {
    && Shaped(s)
    && TagKept(s, 0) && TagKept(s, 1)
    && JobsApart(s)
    && FrontKept(s)
    && NoLostWake(s)
    && LoadedThere(s)
    && FailedTorn(s)
  }

  lemma PrefetchInv(s: Stage, layer: nat, listed: bool)
    requires Inv(s) && s.consumer == Out
    ensures Inv(Prefetched(s, layer, listed))
  {
  }

  lemma TargetInv(s: Stage, layer: nat, t: int, listed: bool)
    requires Inv(s) && s.consumer == Out && s.loaded != layer && !Staged(s, 0, layer) && !Staged(s, 1, layer)
    requires t == if s.reading then 1 - s.wantBuf else 1 - s.front
    ensures Inv(Target(Untag(s), layer, t, listed).(consumer := Waiting(t, layer, false)))
  {
    var r := Target(Untag(s), layer, t, listed).(consumer := Waiting(t, layer, false));
    assert !(s.reader.Reading? && s.reader.target == t);
    assert TagKept(r, t);
    assert TagKept(r, 1 - t);
  }

  lemma {:induction false} EnqueuedInv(s: Stage, layer: nat, listed: bool)
    requires Inv(s) && s.consumer == Out && s.loaded != layer
    ensures var (r, i) := Enqueued(s, layer, listed); Inv(r.(consumer := Waiting(i, layer, false)))
  {
    if Staged(s, 0, layer) {
      StagedInv(s, 0, layer);
    } else if Staged(s, 1, layer) {
      StagedInv(s, 1, layer);
    } else {
      TargetInv(s, layer, if s.reading then 1 - s.wantBuf else 1 - s.front, listed);
    }
  }

  /** The buffer is tagged with the layer already: nothing to start. */
  lemma StagedInv(s: Stage, i: int, layer: nat)
    requires Inv(s) && s.consumer == Out && s.loaded != layer && 0 <= i < 2 && Staged(s, i, layer)
    ensures Inv(s.(consumer := Waiting(i, layer, false)))
  {
  }

  lemma LookedInv(s: Stage)
    requires Inv(s) && s.consumer.Waiting?
    ensures Inv(Looked(s, s.consumer.index, s.consumer.layer))
  {
    var i := s.consumer.index;
    if s.hb[i].failed {
      GivenUpInv(s);
    } else if s.hb[i].ready {
      TakenInv(s);
    }
  }

  lemma GivenUpInv(s: Stage)
    requires Inv(s) && s.consumer.Waiting? && s.hb[s.consumer.index].failed
    ensures Inv(Looked(s, s.consumer.index, s.consumer.layer))
  {
    var i := s.consumer.index;
    var r := Looked(s, i, s.consumer.layer);
    assert !Targeted(s, i);
    assert TagKept(r, i);
    assert TagKept(r, 1 - i);
  }

  lemma TakenInv(s: Stage)
    requires Inv(s) && s.consumer.Waiting? && s.hb[s.consumer.index].ready
    ensures Inv(Looked(s, s.consumer.index, s.consumer.layer))
  {
    var i := s.consumer.index;
    var r := Looked(s, i, s.consumer.layer);
    assert !Targeted(s, i);
    assert TagKept(r, 1 - i);
  }

  lemma LoadInv(s: Stage, layer: nat, listed: bool)
    requires Inv(s) && s.consumer == Out
    ensures Inv(Loading(s, layer, listed))
  {
    if s.loaded != layer {
      EnqueuedInv(s, layer, listed);
      var (r, i) := Enqueued(s, layer, listed);
      LookedInv(r.(consumer := Waiting(i, layer, false)));
    }
  }

  lemma DropInv(s: Stage)
    requires Inv(s) && s.consumer == Out
    ensures Inv(Dropped(s))
  {
  }

  lemma ReadInv(s: Stage, ok: bool)
    requires Inv(s) && s.reader != Asleep
    ensures Inv(ReaderMoved(s, ok))
  {
  }

  lemma NextInv(s: Stage, e: Event)
    requires Inv(s) && Enabled(s, e)
    ensures Inv(Next(s, e))
  {
    match e
    case Prefetch(l, listed) => PrefetchInv(s, l, listed);
    case Load(l, listed) => LoadInv(s, l, listed);
    case Drop => DropInv(s);
    case Release =>
    case Resume => LookedInv(s);
    case Read(ok) => ReadInv(s, ok);
  }

  // ---------------------------------------------------------------- waiting

  /** A waiting consumer has a queued or running read of its layer into its buffer. */
  lemma WaitHasRead(s: Stage)
    requires Inv(s) && s.consumer.Waiting?
    ensures var i, l := s.consumer.index, s.consumer.layer;
            s.hb[i].ready || s.hb[i].failed || Queued(s, i, l) || Running(s, i, l)
  {
    assert TagKept(s, s.consumer.index);
  }

  /** No stuck wait: whoever sleeps, the other thread can move. */
  lemma NeverStuck(s: Stage)
    requires Inv(s) && s.consumer.Waiting?
    ensures Enabled(s, Resume) || Enabled(s, Read(true))
  {
  }

  /** Steps left before both threads are at rest. */
  function Rank(s: Stage): nat {
    (if s.wantLayer >= 0 then 4 else 0)
    + (match s.reader case Asleep => 0 case Looking => 1 case Telling => 3 case Reading(_, _) => 4)
    + (if s.consumer.Waiting? && !s.consumer.asleep then 1 else 0)
  }

  lemma RankFalls(s: Stage, e: Event)
    requires Inv(s) && Enabled(s, e) && (e.Resume? || e.Read?)
    ensures Rank(Next(s, e)) < Rank(s)
  {
  }

  // ---------------------------------------------------------------- loads

  predicate HoldsFront(s: Stage, layer: int) {
    Shaped(s) && s.hb[s.front].data == Whole(layer)
  }

  /** A load of the layer that counts as loaded returns at once; any other looks for it. */
  predicate Returns(s: Stage, e: Event, layer: nat) {
    e.Load? && s.loaded == layer
  }

  /** A load that ends well leaves the layer on the device, and the front buffer holds a completed read of it exactly
      when the call went to look for it or that buffer was tagged with it, and ready. */
  lemma LoadReturns(s: Stage, e: Event, layer: nat)
    requires Inv(s) && Enabled(s, e) && Next(s, e).consumer == Out && Next(s, e).loaded == layer
    requires (e.Load? && e.layer == layer) || (e.Resume? && s.consumer.layer == layer)
    ensures Next(s, e).device == Whole(layer)
    ensures HoldsFront(Next(s, e), layer) <==> (Returns(s, e, layer) ==> Current(s, layer))
  {
    NextInv(s, e);
    if e.Resume? {
      ResumeTakes(s, layer);
    } else if s.loaded != layer {
      LoadGives(s, layer, e.listed);
    }
    assert TagKept(s, s.front);
  }

  /** So it is with every load a caller can make when no other is under way: it fails, or goes to sleep, or -- the tag
      deciding -- its layer is in the front buffer. */
  lemma LoadRightIff(s: Stage, layer: nat, listed: bool)
    requires Inv(s) && s.consumer == Out && Loading(s, layer, listed).consumer == Out
        && Loading(s, layer, listed).loaded == layer
    ensures HoldsFront(Loading(s, layer, listed), layer) <==> (s.loaded != layer || Current(s, layer))
  {
    LoadReturns(s, Load(layer, listed), layer);
  }

  lemma ResumeTakes(s: Stage, layer: nat)
    requires Inv(s) && s.consumer.Waiting? && s.consumer.layer == layer
    ensures var i := s.consumer.index; var r := Looked(s, i, layer);
            && (s.hb[i].ready ==> !s.hb[i].failed && r.loaded == layer && r.front == i && HoldsFront(r, layer)
                                  && r.device == Whole(layer))
            && (!s.hb[i].ready && s.hb[i].failed ==> r.loaded == s.loaded && r.hb[i].layer == NONE)
            && (!s.hb[i].ready && !s.hb[i].failed ==> r.consumer.Waiting?)
  {
    assert TagKept(s, s.consumer.index);
  }

  /** The same for a load that finds what it needs at once. */
  lemma LoadGives(s: Stage, layer: nat, listed: bool)
    requires Inv(s) && s.consumer == Out && s.loaded != layer
    ensures var (r, i) := Enqueued(s, layer, listed); var n := Loading(s, layer, listed);
            && r.hb[i].layer == layer
            && (r.hb[i].ready
                ==> !r.hb[i].failed && n.loaded == layer && HoldsFront(n, layer) && n.device == Whole(layer))
            && (!r.hb[i].ready && r.hb[i].failed ==> !Sound(s))
            && (!r.hb[i].ready && !r.hb[i].failed ==> n.consumer == Waiting(i, layer, true))
  {
    var (r, i) := Enqueued(s, layer, listed);
    EnqueuedInv(s, layer, listed);
    ResumeTakes(r.(consumer := Waiting(i, layer, false)), layer);
  }

  predicate Run(s: Stage, es: seq<Event>)
    decreases |es|
  {
    es != [] ==> Enabled(s, es[0]) && Run(Next(s, es[0]), es[1..])
  }

  function End(s: Stage, es: seq<Event>): Stage
    requires Run(s, es)
    decreases |es|
  {
    if es == [] then s else End(Next(s, es[0]), es[1..])
  }

  lemma {:induction false} RunInv(s: Stage, es: seq<Event>)
    requires Inv(s) && Run(s, es)
    ensures Inv(End(s, es))
    decreases |es|
  {
    if es != [] {
      NextInv(s, es[0]);
      RunInv(Next(s, es[0]), es[1..]);
    }
  }

  predicate NoLoad(es: seq<Event>) {
    forall i :: 0 <= i < |es| ==> !es[i].Load?
  }

  lemma NextFront(s: Stage, e: Event)
    requires Inv(s) && s.consumer == Out && Enabled(s, e) && !e.Load?
    ensures Next(s, e).consumer == Out && Next(s, e).front == s.front
    ensures Next(s, e).hb[s.front].data == s.hb[s.front].data
  {
  }

  /** Between two loads, however read-ahead, supersession and the reader are timed: the front buffer keeps the bytes the
      last load left, and is never a read's target. */
  lemma {:induction false} RunFront(s: Stage, es: seq<Event>)
    requires Inv(s) && s.consumer == Out && Run(s, es) && NoLoad(es)
    ensures var r := End(s, es);
            && Shaped(r) && r.consumer == Out && r.front == s.front
            && r.hb[r.front].data == s.hb[s.front].data && !Targeted(r, r.front)
    decreases |es|
  {
    if es != [] {
      assert !es[0].Load?;
      NextInv(s, es[0]);
      NextFront(s, es[0]);
      forall i | 0 <= i < |es[1..]| ensures !es[1..][i].Load? {
        assert es[1..][i] == es[i + 1];
      }
      RunFront(Next(s, es[0]), es[1..]);
    }
  }

  // ---------------------------------------------------------------- reads that succeed

  predicate Sound(s: Stage) {
    Shaped(s) && !s.hb[0].failed && !s.hb[1].failed && (FrontSettled(s) && s.loaded >= 0 ==> Current(s, s.loaded))
  }

  predicate ReadsSucceed(es: seq<Event>) {
    forall i :: 0 <= i < |es| ==> es[i].Read? ==> es[i].ok
  }

  lemma LookedSound(s: Stage)
    requires Inv(s) && Sound(s) && s.consumer.Waiting?
    ensures Sound(Looked(s, s.consumer.index, s.consumer.layer))
  {
  }

  lemma LoadSound(s: Stage, layer: nat, listed: bool)
    requires Inv(s) && Sound(s) && s.consumer == Out
    ensures Sound(Loading(s, layer, listed))
  {
    if s.loaded != layer {
      var (r, i) := Enqueued(s, layer, listed);
      EnqueuedInv(s, layer, listed);
      LookedSound(r.(consumer := Waiting(i, layer, false)));
    }
  }

  lemma ReadSound(s: Stage)
    requires Inv(s) && Sound(s) && s.reader != Asleep
    ensures Sound(ReaderMoved(s, true))
  {
  }

  lemma NextSound(s: Stage, e: Event)
    requires Inv(s) && Sound(s) && Enabled(s, e) && (e.Read? ==> e.ok)
    ensures Sound(Next(s, e))
  {
    match e
    case Load(l, listed) => LoadSound(s, l, listed);
    case Resume => LookedSound(s);
    case Read(_) => ReadSound(s);
    case _ =>
  }

  /** From the start, with reads that succeed: whenever no load is under way, the layer that counts as loaded is whole
      in the front buffer and on the device. */
  lemma {:induction false} RunSound(s: Stage, es: seq<Event>)
    requires Inv(s) && Sound(s) && Run(s, es) && ReadsSucceed(es)
    ensures var r := End(s, es);
            && Inv(r) && Sound(r)
            && (r.consumer == Out && r.loaded >= 0 ==> HoldsFront(r, r.loaded) && r.device == Whole(r.loaded))
    decreases |es|
  {
    if es != [] {
      NextInv(s, es[0]);
      NextSound(s, es[0]);
      forall i | 0 <= i < |es[1..]| && es[1..][i].Read? ensures es[1..][i].ok {
        assert es[1..][i] == es[i + 1];
      }
      RunSound(Next(s, es[0]), es[1..]);
    }
  }

  lemma StreamerSound(es: seq<Event>)
    requires Run(START, es) && ReadsSucceed(es)
    ensures var r := End(START, es);
            r.consumer == Out && r.loaded >= 0 ==> HoldsFront(r, r.loaded) && r.device == Whole(r.loaded)
  {
    RunSound(START, es);
  }

  lemma RunCons(s: Stage, e: Event, es: seq<Event>)
    requires Enabled(s, e) && Run(Next(s, e), es)
    ensures Run(s, [e] + es) && End(s, [e] + es) == End(Next(s, e), es)
  {
    assert ([e] + es)[1..] == es;
  }

  predicate Stale(s: Stage, layer: nat) {
    Enabled(s, Load(layer, false)) && s.loaded == layer && !HoldsFront(s, layer)
  }

  /** Only with reads that succeed: a load that had to read into the front buffer, because a read-ahead was landing in
      the other one, and failed, leaves the old layer counted as loaded; the next load of it returns at once. */
  lemma StaleFront()
    ensures exists es :: Run(START, es) && Stale(End(START, es), 4)
  {
    var mid := Stage([EMPTY, Buffer(4, true, false, false, Whole(4))], 1, NONE, 1, false, Looking, Out,
                     4, Whole(4));
    var last := FailedLoad(mid);
    var es := [Load(4, false), Read(true), Read(true), Read(true), Resume];
    var s1 := Next(START, es[0]);
    var s2 := Next(s1, es[1]);
    var s3 := Next(s2, es[2]);
    var s4 := Next(s3, es[3]);
    assert Next(s4, es[4]) == mid;
    RunCons(s4, es[4], last);
    RunCons(s3, es[3], [es[4]] + last);
    RunCons(s2, es[2], [es[3]] + ([es[4]] + last));
    RunCons(s1, es[1], [es[2]] + ([es[3]] + ([es[4]] + last)));
    RunCons(START, es[0], [es[1]] + ([es[2]] + ([es[3]] + ([es[4]] + last))));
  }

  lemma FailedLoad(s: Stage) returns (es: seq<Event>)
    requires s == Stage([EMPTY, Buffer(4, true, false, false, Whole(4))], 1, NONE, 1, false, Looking, Out,
                        4, Whole(4))
    ensures Run(s, es) && Stale(End(s, es), 4)
  {
    var s1 := Next(s, Prefetch(5, false));
    var s2 := Next(s1, Read(true));
    var s3 := Next(s2, Load(6, false));
    var s4 := Next(s3, Read(true));
    var s5 := Next(s4, Read(true));
    var s6 := Next(s5, Read(true));
    var s7 := Next(s6, Read(false));
    var s8 := Next(s7, Read(true));
    var s9 := Next(s8, Resume);
    assert Stale(s9, 4);
    es := [];
    RunCons(s8, Resume, es);
    es := [Resume] + es;
    RunCons(s7, Read(true), es);
    es := [Read(true)] + es;
    RunCons(s6, Read(false), es);
    es := [Read(false)] + es;
    RunCons(s5, Read(true), es);
    es := [Read(true)] + es;
    RunCons(s4, Read(true), es);
    es := [Read(true)] + es;
    RunCons(s3, Read(true), es);
    es := [Read(true)] + es;
    RunCons(s2, Load(6, false), es);
    es := [Load(6, false)] + es;
    RunCons(s1, Read(true), es);
    es := [Read(true)] + es;
    RunCons(s, Prefetch(5, false), es);
    es := [Prefetch(5, false)] + es;
  }

  // ---------------------------------------------------------------- the end of a prefill

  /** Forgetting the buffers whose read left out experts of the VRAM tier misses exactly the one being read into at that
      moment. */
  lemma DropForgets(s: Stage)
    requires Inv(s) && s.consumer == Out
    ensures var r := Dropped(s);
            && r.loaded == NONE
            && forall i :: 0 <= i < 2 ==>
                 (r.hb[i].listed <==> s.hb[i].listed && s.reader.Reading? && s.reader.target == i)
    ensures forall i :: 0 <= i < 2 && s.hb[i].listed && !Dropped(s).hb[i].listed ==>
              Dropped(s).hb[i].layer == NONE && !Targeted(Dropped(s), i)
  {
    assert TagKept(Dropped(s), 0) && TagKept(Dropped(s), 1) by {
      DropInv(s);
    }
  }

  // ---------------------------------------------------------------- the streamer

  class Streamer {
    const healthy: bool
    var hb: seq<Buffer>
    var front: int
    var wantLayer: int
    var wantBuf: int
    var reading: bool
    var reader: Reader
    var consumer: Consumer
    var loaded: int
    var device: Data

    ghost function View(): Stage
      reads this
    {
      Stage(hb, front, wantLayer, wantBuf, reading, reader, consumer, loaded, device)
    }

    /** `readsSucceed`: whether every read does, whatever the files. */
    constructor (readsSucceed: bool)
      ensures View() == START && healthy == readsSucceed
    {
      healthy := readsSucceed;
      hb, front, wantLayer, wantBuf, reading := [EMPTY, EMPTY], 0, NONE, 0, false;
      reader, consumer, loaded, device := Looking, Out, NONE, Torn;
    }

    method EnqueueLocked(layer: nat, listed: bool) returns (t: int)
      requires Inv(View()) && consumer == Out
      modifies this
      ensures (View(), t) == Enqueued(old(View()), layer, listed)
    {
      if hb[0].layer == layer {
        return 0;
      }
      if hb[1].layer == layer {
        return 1;
      }
      if wantLayer >= 0 {
        hb := hb[wantBuf := hb[wantBuf].(layer := NONE)];
      }
      t := if reading then 1 - wantBuf else 1 - front;
      hb := hb[t := Buffer(layer, false, false, listed, hb[t].data)];
      wantLayer, wantBuf := layer, t;
      reader := Wake(reader);
    }

    /** Reads ahead into the buffer behind the front when the layer is in neither and the reader has nothing to do. */
    method PrefetchLayer(layer: nat, listed: bool)
      requires Inv(View()) && consumer == Out
      modifies this
      ensures View() == Prefetched(old(View()), layer, listed) && Inv(View())
      ensures if old(hb[0].layer != layer && hb[1].layer != layer && wantLayer < 0 && !reading)
              then wantLayer == layer && wantBuf == 1 - front && reader != Asleep && hb[wantBuf].layer == layer
              else View() == old(View())
      ensures front == old(front) && hb[front] == old(hb[front])
    {
      PrefetchInv(View(), layer, listed);
      if hb[0].layer == layer || hb[1].layer == layer {
        return;
      }
      if wantLayer >= 0 || reading {
        return;
      }
      var t := 1 - front;
      hb := hb[t := Buffer(layer, false, false, listed, hb[t].data)];
      wantLayer, wantBuf := layer, t;
      reader := Wake(reader);
    }

    method DropVramStaging()
      requires Inv(View()) && consumer == Out
      modifies this
      ensures View() == Dropped(old(View())) && Inv(View())
    {
      DropInv(View());
      for i := 0 to 2
        invariant Shaped(View())
        invariant View() == if i == 0 then old(View())
                            else if i == 1 then DroppedOne(old(View()), 0)
                            else DroppedOne(DroppedOne(old(View()), 0), 1)
      {
        var b := hb[i];
        if !b.listed {
          continue;
        }
        if reading && wantBuf == i {
          continue;
        }
        if wantLayer == b.layer && wantBuf == i {
          wantLayer := NONE;
        }
        hb := hb[i := b.(layer := NONE, ready := false, listed := false)];
      }
      loaded := NONE;
    }

    method ReaderStep()
      requires Inv(View()) && reader != Asleep
      modifies this
      ensures exists ok :: (healthy ==> ok) && View() == ReaderMoved(old(View()), ok)
      ensures Inv(View())
    {
      ghost var before := View();
      var ok: bool := *;
      ok := ok || healthy;
      ReadInv(before, ok);
      assert Shaped(before);
      hide Inv;
      match reader
      case Looking =>
        if wantLayer < 0 {
          reader := Asleep;
        } else {
          reader := Reading(wantLayer, wantBuf);
          hb := hb[wantBuf := hb[wantBuf].(data := Torn)];
          wantLayer, reading := NONE, true;
        }
      case Reading(l, t) =>
        hb := hb[t := hb[t].(ready := ok, failed := !ok, data := if ok then Whole(l) else Torn)];
        reading, reader := false, Telling;
      case Telling =>
        reader := Looking;
        if consumer.Waiting? {
          consumer := consumer.(asleep := false);
        }
      assert View() == ReaderMoved(before, ok);
    }

    /** The consumer under the mutex, having just evaluated what it waits for. */
    method Look(i: int, layer: nat) returns (ok: bool)
      requires Shaped(View()) && 0 <= i < 2
      modifies this
      ensures View() == Looked(old(View()), i, layer)
      ensures ok <==> old(hb)[i].ready && !old(hb)[i].failed && old(hb)[i].layer == layer
    {
      var b := hb[i];
      if !((b.ready || b.failed) && b.layer == layer) {
        consumer := Waiting(i, layer, true);
        return false;
      }
      consumer := Out;
      if b.failed {
        hb := hb[i := b.(layer := NONE)];
        return false;
      }
      front, loaded, device := i, layer, b.data;
      return true;
    }

    method LoadBegin(layer: nat, listed: bool) returns (ok: bool)
      requires Inv(View()) && consumer == Out
      modifies this
      ensures View() == Loading(old(View()), layer, listed) && Inv(View())
      ensures ok ==> consumer == Out && loaded == layer && device == Whole(layer)
      ensures ok ==> (HoldsFront(View(), layer) <==> old(loaded) != layer || Current(old(View()), layer))
      ensures !ok ==> consumer == Out || (consumer.index in {0, 1} && consumer.layer == layer)
      ensures healthy && Sound(old(View())) ==> Sound(View()) && (ok || consumer.Waiting?)
    {
      ghost var before := View();
      LoadInv(before, layer, listed);
      if Sound(before) {
        LoadSound(before, layer, listed);
      }
      if layer == loaded {
        return true;
      }
      LoadGives(before, layer, listed);
      var t := EnqueueLocked(layer, listed);
      ok := Look(t, layer);
    }

    /** Make `layer` current. While the call sleeps the reader takes its steps, in whatever order the scheduler has
        them; that the call ends says that the wait is never stuck. */
    method LoadLayer(layer: nat, listed: bool) returns (ok: bool)
      requires Inv(View()) && consumer == Out
      modifies this
      ensures Inv(View()) && consumer == Out
      ensures ok ==> loaded == layer && device == Whole(layer)
      ensures ok ==> (HoldsFront(View(), layer) <==> old(loaded) != layer || Current(old(View()), layer))
      ensures healthy && Sound(old(View())) ==> ok && Sound(View())
    {
      ok := LoadBegin(layer, listed);
      while consumer != Out
        invariant Inv(View())
        invariant consumer != Out ==> !ok && consumer.layer == layer
        invariant ok ==> loaded == layer && device == Whole(layer)
        invariant ok ==> (HoldsFront(View(), layer) <==> old(loaded) != layer || Current(old(View()), layer))
        invariant consumer != Out ==> old(loaded) != layer
        invariant healthy && Sound(old(View())) ==> Sound(View()) && (ok || consumer != Out)
        decreases Rank(View())
      {
        ok := WaitStep(layer);
      }
    }

    /** One step of whichever thread can move while the consumer waits. */
    method WaitStep(layer: nat) returns (ok: bool)
      requires Inv(View()) && consumer.Waiting? && consumer.layer == layer
      modifies this
      ensures Inv(View()) && Rank(View()) < Rank(old(View()))
      ensures consumer.Waiting? ==> !ok && consumer.layer == layer
      ensures ok ==> loaded == layer && device == Whole(layer) && HoldsFront(View(), layer)
      ensures healthy && Sound(old(View())) ==> Sound(View()) && (ok || consumer.Waiting?)
    {
      NeverStuck(View());
      var first: bool := *;
      if consumer.asleep || (first && reader != Asleep) {
        ReadWhileWaiting();
        ok := false;
      } else {
        ok := LookAgain(layer);
      }
    }

    method ReadWhileWaiting()
      requires Inv(View()) && consumer.Waiting? && reader != Asleep
      modifies this
      ensures Inv(View()) && Rank(View()) < Rank(old(View()))
      ensures consumer.Waiting? && consumer.layer == old(consumer).layer
      ensures healthy && Sound(old(View())) ==> Sound(View())
    {
      ghost var before := View();
      ReaderStep();
      ghost var good :| (healthy ==> good) && View() == ReaderMoved(before, good);
      RankFalls(before, Read(good));
      if healthy && Sound(before) {
        ReadSound(before);
      }
    }

    method LookAgain(layer: nat) returns (ok: bool)
      requires Inv(View()) && consumer.Waiting? && consumer.layer == layer && !consumer.asleep
      modifies this
      ensures Inv(View()) && Rank(View()) < Rank(old(View()))
      ensures consumer.Waiting? ==> !ok && consumer.layer == layer
      ensures ok ==> loaded == layer && device == Whole(layer) && HoldsFront(View(), layer)
      ensures healthy && Sound(old(View())) ==> Sound(View()) && (ok || consumer.Waiting?)
    {
      ghost var before := View();
      RankFalls(before, Resume);
      LookedInv(before);
      ResumeTakes(before, layer);
      if Sound(before) {
        LookedSound(before);
      }
      ok := Look(consumer.index, layer);
    }
  }
}
