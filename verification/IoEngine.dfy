/**
 * The thread backend of the read engine: one mutex, a queue of jobs, a queue of
 * completed tags, and two condition variables.
 *
 * A `Pool` is everything the mutex guards together with where each thread stands.
 * The steps are the critical sections of the threads and, separately, the
 * notifications, which are sent after the mutex has been released: a wake-up that
 * has not been sent yet is a state of its own, so that a lost one would show.
 */
module IoEngine {

  type Tag = nat

  datatype Request = Request(shard: int, hasDst: bool, nbytes: nat, tag: Tag)

  /** Where a worker stands: about to look at the queue under the mutex, asleep on the queue's condition, reading a job
      outside the mutex, or about to announce a completion it has already recorded. */
  datatype Worker = Looking | Asleep | Reading(job: Request) | Telling

  /** What the submitting thread still has to announce. */
  datatype Poster = Quiet | WakeWorkers(refused: bool) | WakeReaper

  /** Where the collecting thread stands: not in the call, awake inside it, or asleep on the completion condition; `got`
      is what it has taken so far. */
  datatype Reaper =
    | Away
    | Awake(got: seq<Tag>, max: nat, min: nat)
    | Blocked(got: seq<Tag>, max: nat, min: nat)

  /** `accepted`, `returned`, `asked` and `read` log the whole run: every tag submitted and every tag handed back to a
      caller, every request submitted and every request a worker has finished. */
  datatype Pool = Pool(shards: nat, q: seq<Request>, done: seq<Tag>, inFlight: int,
                       workers: seq<Worker>, poster: Poster, reaper: Reaper,
                       accepted: seq<Tag>, returned: seq<Tag>, asked: seq<Request>, read: seq<Request>)

  predicate Malformed(r: Request, shards: nat) {
    r.shard < 0 || r.shard >= shards || !r.hasDst || r.nbytes == 0
  }

  // ---------------------------------------------------------------- counting

  function One<T(==)>(t: T, u: T): nat {
    if t == u then 1 else 0
  }

  function Count<T(==)>(s: seq<T>, t: T): nat {
    if s == [] then 0 else One(s[0], t) + Count(s[1..], t)
  }

  function Tags(rs: seq<Request>): (r: seq<Tag>)
    ensures |r| == |rs|
    ensures forall i :: 0 <= i < |rs| ==> r[i] == rs[i].tag
  {
    seq(|rs|, i requires 0 <= i < |rs| => rs[i].tag)
  }

  lemma {:induction false} CountAppend<T>(a: seq<T>, b: seq<T>, t: T)
    ensures Count(a + b, t) == Count(a, t) + Count(b, t)
  {
    if a == [] {
      assert a + b == b;
    } else {
      assert (a + b)[1..] == a[1..] + b;
      CountAppend(a[1..], b, t);
    }
  }

  lemma CountSnoc<T>(a: seq<T>, x: T, t: T)
    ensures Count(a + [x], t) == Count(a, t) + One(x, t)
  {
    CountAppend(a, [x], t);
    assert [x][1..] == [];
  }

  lemma {:induction false} CountIsMultiset<T>(s: seq<T>, t: T)
    ensures multiset(s)[t] == Count(s, t)
  {
    if s != [] {
      assert s == [s[0]] + s[1..];
      CountIsMultiset(s[1..], t);
    }
  }

  function Held(w: Worker, t: Tag): nat {
    if w.Reading? then One(w.job.tag, t) else 0
  }

  function Busy(ws: seq<Worker>, t: Tag): nat {
    if ws == [] then 0 else Held(ws[0], t) + Busy(ws[1..], t)
  }

  function On(w: Worker, x: Request): nat {
    if w.Reading? then One(w.job, x) else 0
  }

  /** How many workers are reading for the request. */
  function BusyOn(ws: seq<Worker>, x: Request): nat {
    if ws == [] then 0 else On(ws[0], x) + BusyOn(ws[1..], x)
  }

  /** How many requests with the tag were refused. */
  function Refusals(rs: seq<Request>, shards: nat, t: Tag): nat {
    if rs == [] then 0
    else Refusals(rs[..|rs| - 1], shards, t) + if Malformed(rs[|rs| - 1], shards) then One(rs[|rs| - 1].tag, t) else 0
  }

  lemma RefusalsSnoc(rs: seq<Request>, r: Request, shards: nat, t: Tag)
    ensures Refusals(rs + [r], shards, t) == Refusals(rs, shards, t) + if Malformed(r, shards) then One(r.tag, t) else 0
  {
    assert (rs + [r])[..|rs|] == rs;
  }

  function IsReading(w: Worker): nat {
    if w.Reading? then 1 else 0
  }

  function Reads(ws: seq<Worker>): nat {
    if ws == [] then 0 else IsReading(ws[0]) + Reads(ws[1..])
  }

  function Cost(w: Worker): nat {
    match w
    case Asleep => 0
    case Looking => 1
    case Telling => 3
    case Reading(_) => 4
  }

  function Costs(ws: seq<Worker>): nat {
    if ws == [] then 0 else Cost(ws[0]) + Costs(ws[1..])
  }

  lemma {:induction false} WorkerBusy(ws: seq<Worker>, i: nat, w: Worker, t: Tag)
    requires i < |ws|
    ensures Busy(ws[i := w], t) + Held(ws[i], t) == Busy(ws, t) + Held(w, t)
  {
    if i == 0 {
      assert ws[0 := w][1..] == ws[1..];
    } else {
      assert ws[i := w][1..] == ws[1..][i - 1 := w];
      WorkerBusy(ws[1..], i - 1, w, t);
    }
  }

  lemma {:induction false} WorkerOn(ws: seq<Worker>, i: nat, w: Worker, x: Request)
    requires i < |ws|
    ensures BusyOn(ws[i := w], x) + On(ws[i], x) == BusyOn(ws, x) + On(w, x)
  {
    if i == 0 {
      assert ws[0 := w][1..] == ws[1..];
    } else {
      assert ws[i := w][1..] == ws[1..][i - 1 := w];
      WorkerOn(ws[1..], i - 1, w, x);
    }
  }

  lemma {:induction false} WorkerSet(ws: seq<Worker>, i: nat, w: Worker)
    requires i < |ws|
    ensures Reads(ws[i := w]) + IsReading(ws[i]) == Reads(ws) + IsReading(w)
    ensures Costs(ws[i := w]) + Cost(ws[i]) == Costs(ws) + Cost(w)
  {
    if i == 0 {
      assert ws[0 := w][1..] == ws[1..];
    } else {
      assert ws[i := w][1..] == ws[1..][i - 1 := w];
      WorkerSet(ws[1..], i - 1, w);
    }
  }

  function Woken(ws: seq<Worker>): (r: seq<Worker>)
    ensures |r| == |ws|
    ensures forall i :: 0 <= i < |ws| ==> r[i] == if ws[i] == Asleep then Looking else ws[i]
  {
    seq(|ws|, i requires 0 <= i < |ws| => if ws[i] == Asleep then Looking else ws[i])
  }

  lemma {:induction false} WokenFacts(ws: seq<Worker>)
    ensures Reads(Woken(ws)) == Reads(ws)
    ensures Costs(Woken(ws)) <= Costs(ws) + |ws|
  {
    if ws != [] {
      assert Woken(ws)[1..] == Woken(ws[1..]);
      WokenFacts(ws[1..]);
    }
  }

  lemma {:induction false} WokenOn(ws: seq<Worker>, x: Request)
    ensures BusyOn(Woken(ws), x) == BusyOn(ws, x)
  {
    if ws != [] {
      assert Woken(ws)[1..] == Woken(ws[1..]);
      WokenOn(ws[1..], x);
    }
  }

  lemma {:induction false} WokenBusy(ws: seq<Worker>, t: Tag)
    ensures Busy(Woken(ws), t) == Busy(ws, t)
  {
    if ws != [] {
      assert Woken(ws)[1..] == Woken(ws[1..]);
      WokenBusy(ws[1..], t);
    }
  }

  // ---------------------------------------------------------------- steps

  /** The critical section of a submission, one request at a time: a malformed one is completed on the spot, as an error
      and outside the count; the others are queued and counted. */
  function QueueOne(p: Pool, r: Request): Pool {
    if Malformed(r, p.shards)
    then p.(done := p.done + [r.tag], accepted := p.accepted + [r.tag], asked := p.asked + [r])
    else p.(q := p.q + [r], inFlight := p.inFlight + 1, accepted := p.accepted + [r.tag], asked := p.asked + [r])
  }

  function Queue(p: Pool, rs: seq<Request>): Pool
    decreases |rs|
  {
    if rs == [] then p else QueueOne(Queue(p, rs[..|rs| - 1]), rs[|rs| - 1])
  }

  predicate AnyQueued(p: Pool, rs: seq<Request>) {
    exists i :: 0 <= i < |rs| && !Malformed(rs[i], p.shards)
  }

  predicate AnyRefused(p: Pool, rs: seq<Request>) {
    exists i :: 0 <= i < |rs| && Malformed(rs[i], p.shards)
  }

  predicate CanPost(p: Pool) {
    p.poster == Quiet
  }

  function Posted(p: Pool, rs: seq<Request>): Pool
    requires CanPost(p)
  {
    Queue(p, rs).(poster := if AnyQueued(p, rs) then WakeWorkers(AnyRefused(p, rs))
                            else if AnyRefused(p, rs) then WakeReaper else Quiet)
  }

  function Notified(r: Reaper): Reaper {
    if r.Blocked? then Awake(r.got, r.max, r.min) else r
  }

  /** The collecting loop from where it stands until it returns or has to sleep. */
  function Collect(p: Pool, got: seq<Tag>, max: nat, min: nat): Pool
    decreases |p.done|
  {
    if |got| >= max then p.(reaper := Away, returned := p.returned + got)
    else if p.done == [] then
      if |got| >= min || p.inFlight == 0
      then p.(reaper := Away, returned := p.returned + got)
      else p.(reaper := Blocked(got, max, min))
    else Collect(p.(done := p.done[1..]), got + [p.done[0]], max, min)
  }

  function Called(p: Pool, max: nat, min: nat): Pool
    requires p.reaper == Away
  {
    p.(reaper := Awake([], max, min))
  }

  /** Threads by number: the workers first, then the submitter's pending notification, then the collector. */
  predicate MayMove(workers: seq<Worker>, poster: Poster, reaper: Reaper, a: int) {
    if 0 <= a < |workers| then workers[a] != Asleep
    else if a == |workers| then poster != Quiet
    else a == |workers| + 1 && reaper.Awake?
  }

  predicate Able(p: Pool, a: int) {
    MayMove(p.workers, p.poster, p.reaper, a)
  }

  function WorkerMoved(p: Pool, a: nat): Pool
    requires a < |p.workers| && p.workers[a] != Asleep
  {
    match p.workers[a]
    case Looking =>
      if p.q == [] then p.(workers := p.workers[a := Asleep])
      else p.(q := p.q[1..], workers := p.workers[a := Reading(p.q[0])])
    case Reading(job) =>
      p.(done := p.done + [job.tag], inFlight := p.inFlight - 1, workers := p.workers[a := Telling],
         read := p.read + [job])
    case Telling =>
      p.(workers := p.workers[a := Looking], reaper := Notified(p.reaper))
  }

  function PosterMoved(p: Pool): Pool
    requires p.poster != Quiet
  {
    if p.poster.WakeWorkers?
    then p.(workers := Woken(p.workers), poster := if p.poster.refused then WakeReaper else Quiet)
    else p.(reaper := Notified(p.reaper), poster := Quiet)
  }

  function Moved(p: Pool, a: int): Pool
    requires Able(p, a)
  {
    if a < |p.workers| then WorkerMoved(p, a)
    else if a == |p.workers| then PosterMoved(p)
    else Collect(p, p.reaper.got, p.reaper.max, p.reaper.min)
  }

  // ---------------------------------------------------------------- invariant

  function Taken(r: Reaper): seq<Tag> {
    if r.Away? then [] else r.got
  }

  /** How often a tag is on its way: taken by a call that has not returned, completed, queued, or being read. */
  function Copies(p: Pool, t: Tag): nat {
    Count(Taken(p.reaper), t) + Count(p.done, t) + Count(Tags(p.q), t) + Busy(p.workers, t)
  }

  predicate Balanced(p: Pool, t: Tag) {
    Count(p.accepted, t) == Count(p.returned, t) + Copies(p, t)
  }

  /** Every accepted tag is in exactly one place, once for every time it was submitted. */
  ghost predicate Conserved(p: Pool) {
    forall t :: Balanced(p, t)
  }

  /** A request is refused, or queued, being read or read, once for every time it was submitted. */
  predicate Served(p: Pool, x: Request) {
    Count(p.q, x) + BusyOn(p.workers, x) + Count(p.read, x) == if Malformed(x, p.shards) then 0 else Count(p.asked, x)
  }

  /** A tag completed is that of a request read or refused. */
  predicate Answered(p: Pool, t: Tag) {
    Count(p.returned, t) + Count(Taken(p.reaper), t) + Count(p.done, t)
        == Count(Tags(p.read), t) + Refusals(p.asked, p.shards, t)
  }

  ghost predicate Honest(p: Pool) {
    && (forall x :: Served(p, x))
    && (forall t :: Answered(p, t))
    && p.accepted == Tags(p.asked)
  }

  /** The count is of the reads queued or under way. */
  predicate Counted(p: Pool) {
    && p.inFlight == |p.q| + Reads(p.workers)
    && |p.accepted| == |p.returned| + |Taken(p.reaper)| + |p.done| + p.inFlight
  }

  /** A worker sleeps beside a job only while the notification is still to be sent. */
  predicate WorkersCalled(p: Pool) {
    p.q != [] && Asleep in p.workers ==> p.poster.WakeWorkers?
  }

  predicate NewsComing(p: Pool) {
    || Telling in p.workers
    || p.poster == WakeReaper
    || p.poster == WakeWorkers(true)
  }

  /** A sleeping collector either still has reason to sleep, or is about to be woken. */
  predicate ReaperCalled(p: Pool) {
    p.reaper.Blocked? ==>
      && |p.reaper.got| < p.reaper.max
      && |p.reaper.got| < p.reaper.min
      && ((p.done == [] && p.inFlight > 0) || NewsComing(p))
  }

  predicate Calls(p: Pool) {
    |p.workers| > 0 && Counted(p) && WorkersCalled(p) && ReaperCalled(p)
  }

  ghost predicate Inv(p: Pool) {
    Calls(p) && Conserved(p) && Honest(p)
  }

  /** Work left for the threads when nobody submits or calls. */
  function Rank(p: Pool): nat {
    6 * |p.q| + Costs(p.workers)
    + (match p.poster case Quiet => 0 case WakeReaper => 2 case WakeWorkers(_) => |p.workers| + 3)
    + (if p.reaper.Awake? then 1 else 0)
  }

  // ---------------------------------------------------------------- submission

  lemma {:induction false} QueueFacts(p: Pool, rs: seq<Request>)
    requires Counted(p)
    ensures var r := Queue(p, rs);
            && Counted(r) && r.accepted == p.accepted + Tags(rs) && r.inFlight >= p.inFlight
            && r.workers == p.workers && r.shards == p.shards && r.reaper == p.reaper
            && r.returned == p.returned && r.poster == p.poster
            && (!AnyQueued(p, rs) ==> r.q == p.q)
            && (!AnyRefused(p, rs) ==> r.done == p.done)
    decreases |rs|
  {
    if rs != [] {
      var init, last := rs[..|rs| - 1], rs[|rs| - 1];
      QueueFacts(p, init);
      assert Tags(rs) == Tags(init) + [last.tag];
      assert AnyQueued(p, init) ==> AnyQueued(p, rs) by {
        if i :| 0 <= i < |init| && !Malformed(init[i], p.shards) {
          assert !Malformed(rs[i], p.shards);
        }
      }
      assert AnyRefused(p, init) ==> AnyRefused(p, rs) by {
        if i :| 0 <= i < |init| && Malformed(init[i], p.shards) {
          assert Malformed(rs[i], p.shards);
        }
      }
    } else {
      assert p.accepted + Tags(rs) == p.accepted;
    }
  }

  lemma QueueOneHonest(p: Pool, r: Request)
    requires Honest(p)
    ensures Honest(QueueOne(p, r))
  {
    var n := QueueOne(p, r);
    assert Tags(p.asked + [r]) == Tags(p.asked) + [r.tag];
    forall x ensures Served(n, x) {
      assert Served(p, x);
      CountSnoc(p.q, r, x);
      CountSnoc(p.asked, r, x);
    }
    forall t ensures Answered(n, t) {
      assert Answered(p, t);
      CountSnoc(p.done, r.tag, t);
      RefusalsSnoc(p.asked, r, p.shards, t);
    }
  }

  lemma {:induction false} QueueHonest(p: Pool, rs: seq<Request>)
    requires Honest(p)
    ensures Honest(Queue(p, rs)) && Queue(p, rs).asked == p.asked + rs && Queue(p, rs).read == p.read
    decreases |rs|
  {
    if rs != [] {
      QueueHonest(p, rs[..|rs| - 1]);
      QueueOneHonest(Queue(p, rs[..|rs| - 1]), rs[|rs| - 1]);
      assert rs == rs[..|rs| - 1] + [rs[|rs| - 1]];
    }
  }

  lemma QueueOneBalanced(p: Pool, r: Request, t: Tag)
    requires Balanced(p, t)
    ensures Balanced(QueueOne(p, r), t)
  {
    CountSnoc(p.accepted, r.tag, t);
    CountSnoc(p.done, r.tag, t);
    CountSnoc(Tags(p.q), r.tag, t);
    assert Tags(p.q + [r]) == Tags(p.q) + [r.tag];
  }

  lemma {:induction false} QueueBalanced(p: Pool, rs: seq<Request>, t: Tag)
    requires Balanced(p, t)
    ensures Balanced(Queue(p, rs), t)
    decreases |rs|
  {
    if rs != [] {
      QueueBalanced(p, rs[..|rs| - 1], t);
      QueueOneBalanced(Queue(p, rs[..|rs| - 1]), rs[|rs| - 1], t);
    }
  }

  lemma PostedCalls(p: Pool, rs: seq<Request>)
    requires Calls(p) && CanPost(p)
    ensures Calls(Posted(p, rs)) && Posted(p, rs).accepted == p.accepted + Tags(rs)
  {
    QueueFacts(p, rs);
  }

  lemma PostedInv(p: Pool, rs: seq<Request>)
    requires Inv(p) && CanPost(p)
    ensures Inv(Posted(p, rs)) && Posted(p, rs).accepted == p.accepted + Tags(rs)
    ensures Posted(p, rs).returned == p.returned && Posted(p, rs).reaper == p.reaper
  {
    PostedCalls(p, rs);
    QueueFacts(p, rs);
    forall t ensures Balanced(Posted(p, rs), t) {
      assert Balanced(p, t);
      QueueBalanced(p, rs, t);
    }
    PostedHonest(p, rs);
  }

  lemma PostedHonest(p: Pool, rs: seq<Request>)
    requires Honest(p) && CanPost(p)
    ensures Honest(Posted(p, rs)) && Posted(p, rs).asked == p.asked + rs && Posted(p, rs).read == p.read
  {
    QueueHonest(p, rs);
    var q, n := Queue(p, rs), Posted(p, rs);
    forall x ensures Served(n, x) { assert Served(q, x); }
    forall t ensures Answered(n, t) { assert Answered(q, t); }
  }

  // ---------------------------------------------------------------- collection

  /** What a collecting loop leaves, counting from what was returned before the call. */
  predicate Collected(p: Pool, r: Pool, max: nat, min: nat) {
    && r.workers == p.workers && r.poster == p.poster && r.q == p.q && r.accepted == p.accepted
    && r.inFlight == p.inFlight && r.shards == p.shards && r.asked == p.asked && r.read == p.read
    && match r.reaper
       case Awake(_, _, _) => false
       case Blocked(got, max', min') =>
         r.done == [] && r.returned == p.returned && max' == max && min' == min && |got| < max && |got| < min
       case Away =>
         && p.returned <= r.returned
         && (|r.returned| - |p.returned| >= Least(min, max) || |r.returned| == |r.accepted|)
  }

  function Least(a: int, b: int): int {
    if a <= b then a else b
  }

  lemma {:induction false} CollectFacts(p: Pool, got: seq<Tag>, max: nat, min: nat)
    requires p.inFlight >= 0
    requires |p.accepted| == |p.returned| + |got| + |p.done| + p.inFlight
    ensures Collected(p, Collect(p, got, max, min), max, min)
    ensures |Collect(p, got, max, min).accepted|
         == |Collect(p, got, max, min).returned| + |Taken(Collect(p, got, max, min).reaper)|
            + |Collect(p, got, max, min).done| + p.inFlight
    ensures Collect(p, got, max, min).reaper.Blocked? ==> p.inFlight > 0
    ensures Collect(p, got, max, min).reaper.Away? && |got| <= max ==>
              |Collect(p, got, max, min).returned| <= |p.returned| + max
    decreases |p.done|
  {
    if |got| < max && p.done != [] {
      CollectFacts(p.(done := p.done[1..]), got + [p.done[0]], max, min);
    }
  }

  lemma {:induction false} CollectBalanced(p: Pool, got: seq<Tag>, max: nat, min: nat, t: Tag)
    requires Count(p.accepted, t) == Count(p.returned, t) + Count(got, t) + Count(p.done, t)
                                     + Count(Tags(p.q), t) + Busy(p.workers, t)
    ensures Balanced(Collect(p, got, max, min), t)
    decreases |p.done|
  {
    CountAppend(p.returned, got, t);
    if |got| < max && p.done != [] {
      CountSnoc(got, p.done[0], t);
      CollectBalanced(p.(done := p.done[1..]), got + [p.done[0]], max, min, t);
    }
  }

  lemma {:induction false} CollectAnswered(p: Pool, got: seq<Tag>, max: nat, min: nat, t: Tag)
    requires Count(p.returned, t) + Count(got, t) + Count(p.done, t)
        == Count(Tags(p.read), t) + Refusals(p.asked, p.shards, t)
    ensures Answered(Collect(p, got, max, min), t)
    decreases |p.done|
  {
    CountAppend(p.returned, got, t);
    if |got| < max && p.done != [] {
      CountSnoc(got, p.done[0], t);
      CollectAnswered(p.(done := p.done[1..]), got + [p.done[0]], max, min, t);
    }
  }

  lemma CollectHonest(p: Pool)
    requires Honest(p) && Counted(p) && p.reaper.Awake?
    ensures Honest(Collect(p, p.reaper.got, p.reaper.max, p.reaper.min))
  {
    var r := Collect(p, p.reaper.got, p.reaper.max, p.reaper.min);
    CollectFacts(p, p.reaper.got, p.reaper.max, p.reaper.min);
    forall x ensures Served(r, x) { assert Served(p, x); }
    forall t ensures Answered(r, t) {
      assert Answered(p, t);
      CollectAnswered(p, p.reaper.got, p.reaper.max, p.reaper.min, t);
    }
  }

  lemma CollectInv(p: Pool)
    requires Inv(p) && p.reaper.Awake?
    ensures Inv(Collect(p, p.reaper.got, p.reaper.max, p.reaper.min))
    ensures Rank(Collect(p, p.reaper.got, p.reaper.max, p.reaper.min)) < Rank(p)
  {
    var r := Collect(p, p.reaper.got, p.reaper.max, p.reaper.min);
    CollectFacts(p, p.reaper.got, p.reaper.max, p.reaper.min);
    forall t ensures Balanced(r, t) {
      assert Balanced(p, t);
      CollectBalanced(p, p.reaper.got, p.reaper.max, p.reaper.min, t);
    }
    CollectHonest(p);
  }

  // ---------------------------------------------------------------- workers and notices

  lemma OthersSame(ws: seq<Worker>, a: nat, w: Worker)
    requires a < |ws|
    ensures Asleep in ws[a := w] && w != Asleep ==> Asleep in ws
    ensures Telling in ws && ws[a] != Telling ==> Telling in ws[a := w]
  {
    if Asleep in ws[a := w] && w != Asleep {
      var i :| 0 <= i < |ws| && ws[a := w][i] == Asleep;
      assert ws[i] == Asleep;
    }
    if Telling in ws && ws[a] != Telling {
      var i :| 0 <= i < |ws| && ws[i] == Telling;
      assert ws[a := w][i] == Telling;
    }
  }

  lemma WorkerMovedCalls(p: Pool, a: nat)
    requires Calls(p) && a < |p.workers| && p.workers[a] != Asleep
    ensures Calls(WorkerMoved(p, a))
    ensures Rank(WorkerMoved(p, a)) < Rank(p)
  {
    var w := WorkerMoved(p, a).workers[a];
    WorkerSet(p.workers, a, w);
    OthersSame(p.workers, a, w);
    if p.workers[a].Reading? {
      assert WorkerMoved(p, a).workers[a] == Telling;
    }
  }

  lemma WorkerMovedInv(p: Pool, a: nat)
    requires Inv(p) && a < |p.workers| && p.workers[a] != Asleep
    ensures Inv(WorkerMoved(p, a))
    ensures Rank(WorkerMoved(p, a)) < Rank(p)
  {
    WorkerMovedCalls(p, a);
    forall t ensures Balanced(WorkerMoved(p, a), t) {
      assert Balanced(p, t);
      WorkerMovedBalanced(p, a, t);
    }
    WorkerMovedHonest(p, a);
  }

  lemma WorkerMovedHonest(p: Pool, a: nat)
    requires Honest(p) && a < |p.workers| && p.workers[a] != Asleep
    ensures Honest(WorkerMoved(p, a))
  {
    var n := WorkerMoved(p, a);
    forall x ensures Served(n, x) {
      assert Served(p, x);
      WorkerOn(p.workers, a, n.workers[a], x);
      if p.workers[a].Reading? { CountSnoc(p.read, p.workers[a].job, x); }
    }
    forall t ensures Answered(n, t) {
      assert Answered(p, t);
      if p.workers[a].Reading? {
        CountSnoc(p.done, p.workers[a].job.tag, t);
        CountSnoc(Tags(p.read), p.workers[a].job.tag, t);
        assert Tags(n.read) == Tags(p.read) + [p.workers[a].job.tag];
      }
    }
  }

  lemma WorkerMovedBalanced(p: Pool, a: nat, t: Tag)
    requires a < |p.workers| && p.workers[a] != Asleep && Balanced(p, t)
    ensures Balanced(WorkerMoved(p, a), t)
  {
    WorkerBusy(p.workers, a, WorkerMoved(p, a).workers[a], t);
    match p.workers[a]
    case Looking =>
      if p.q != [] {
        assert Tags(p.q)[1..] == Tags(p.q[1..]);
      }
    case Reading(x) => CountSnoc(p.done, x.tag, t);
    case Telling =>
  }

  lemma PosterMovedHonest(p: Pool)
    requires Honest(p) && p.poster != Quiet
    ensures Honest(PosterMoved(p))
  {
    forall x ensures Served(PosterMoved(p), x) {
      assert Served(p, x);
      WokenOn(p.workers, x);
    }
    forall t ensures Answered(PosterMoved(p), t) { assert Answered(p, t); }
  }

  lemma PosterMovedInv(p: Pool)
    requires Inv(p) && p.poster != Quiet
    ensures Inv(PosterMoved(p))
    ensures Rank(PosterMoved(p)) < Rank(p)
  {
    WokenFacts(p.workers);
    forall t ensures Balanced(PosterMoved(p), t) {
      assert Balanced(p, t);
      WokenBusy(p.workers, t);
    }
    PosterMovedHonest(p);
    if Telling in p.workers {
      var i :| 0 <= i < |p.workers| && p.workers[i] == Telling;
      assert Woken(p.workers)[i] == Telling;
    }
  }

  lemma MovedInv(p: Pool, a: int)
    requires Inv(p) && Able(p, a)
    ensures Inv(Moved(p, a))
    ensures Moved(p, a).accepted == p.accepted
    ensures Rank(Moved(p, a)) < Rank(p)
  {
    if a < |p.workers| {
      WorkerMovedInv(p, a);
    } else if a == |p.workers| {
      PosterMovedInv(p);
    } else {
      CollectInv(p);
      CollectFacts(p, p.reaper.got, p.reaper.max, p.reaper.min);
    }
  }

  lemma MovedQuiet(p: Pool, a: int)
    requires Inv(p) && Able(p, a)
    ensures p.poster == Quiet ==> Moved(p, a).poster == Quiet
  {
    if a > |p.workers| {
      CollectFacts(p, p.reaper.got, p.reaper.max, p.reaper.min);
    }
  }

  lemma {:induction false} SomeReading(ws: seq<Worker>) returns (i: nat)
    requires Reads(ws) > 0
    ensures i < |ws| && ws[i].Reading?
  {
    if ws[0].Reading? {
      i := 0;
    } else {
      var j := SomeReading(ws[1..]);
      i := j + 1;
    }
  }

  /** No stuck wait: while a collector is inside its call, some thread can move. */
  lemma NeverStuck(p: Pool)
    requires Calls(p) && !p.reaper.Away?
    ensures exists a :: 0 <= a <= |p.workers| + 1 && Able(p, a)
  {
    if p.poster != Quiet {
      assert Able(p, |p.workers|);
    } else if p.reaper.Awake? {
      assert Able(p, |p.workers| + 1);
    } else if Telling in p.workers {
      var i :| 0 <= i < |p.workers| && p.workers[i] == Telling;
      assert Able(p, i);
    } else if p.q != [] {
      assert p.workers[0] != Asleep;
      assert Able(p, 0);
    } else {
      var i := SomeReading(p.workers);
      assert Able(p, i);
    }
  }

  // ---------------------------------------------------------------- runs

  datatype Event = Submit(rs: seq<Request>) | Reap(max: nat, min: nat) | Move(who: int)

  predicate Enabled(p: Pool, e: Event) {
    match e
    case Submit(_) => CanPost(p)
    case Reap(_, _) => p.reaper == Away
    case Move(a) => Able(p, a)
  }

  function Next(p: Pool, e: Event): Pool
    requires Enabled(p, e)
  {
    match e
    case Submit(rs) => Posted(p, rs)
    case Reap(max, min) => Called(p, max, min)
    case Move(a) => Moved(p, a)
  }

  function Asked(e: Event): seq<Request> {
    if e.Submit? then e.rs else []
  }

  /** The read a step ends: that of a worker reading outside the mutex. */
  function Finished(p: Pool, e: Event): seq<Request> {
    if e.Move? && 0 <= e.who < |p.workers| && p.workers[e.who].Reading? then [p.workers[e.who].job] else []
  }

  lemma NextInv(p: Pool, e: Event)
    requires Inv(p) && Enabled(p, e)
    ensures Inv(Next(p, e)) && Next(p, e).shards == p.shards
    ensures Next(p, e).asked == p.asked + Asked(e) && Next(p, e).read == p.read + Finished(p, e)
  {
    match e
    case Submit(rs) =>
      PostedInv(p, rs);
      PostedHonest(p, rs);
      QueueFacts(p, rs);
    case Reap(max, min) =>
      forall t ensures Balanced(Called(p, max, min), t) && Answered(Called(p, max, min), t) {
        assert Balanced(p, t) && Answered(p, t);
      }
      forall x ensures Served(Called(p, max, min), x) { assert Served(p, x); }
    case Move(a) =>
      MovedInv(p, a);
      MovedLogs(p, a);
  }

  lemma MovedLogs(p: Pool, a: int)
    requires Inv(p) && Able(p, a)
    ensures Moved(p, a).shards == p.shards && Moved(p, a).asked == p.asked
    ensures Moved(p, a).read == p.read + Finished(p, Move(a))
  {
    if a > |p.workers| {
      CollectFacts(p, p.reaper.got, p.reaper.max, p.reaper.min);
    }
  }

  predicate Run(p: Pool, es: seq<Event>)
    decreases |es|
  {
    es != [] ==> Enabled(p, es[0]) && Run(Next(p, es[0]), es[1..])
  }

  function End(p: Pool, es: seq<Event>): Pool
    requires Run(p, es)
    decreases |es|
  {
    if es == [] then p else End(Next(p, es[0]), es[1..])
  }

  function Submitted(es: seq<Event>): seq<Request> {
    if es == [] then [] else Asked(es[0]) + Submitted(es[1..])
  }

  function AllFinished(p: Pool, es: seq<Event>): seq<Request>
    requires Run(p, es)
    decreases |es|
  {
    if es == [] then [] else Finished(p, es[0]) + AllFinished(Next(p, es[0]), es[1..])
  }

  function Idle(shards: nat, workers: nat): Pool {
    Pool(shards, [], [], 0, seq(workers, i => Looking), Quiet, Away, [], [], [], [])
  }

  lemma {:induction false} IdleBusy(n: nat, t: Tag)
    ensures Busy(seq(n, i => Looking), t) == 0 && Reads(seq(n, i => Looking)) == 0
  {
    if n > 0 {
      assert seq(n, i => Looking)[1..] == seq(n - 1, i => Looking);
      IdleBusy(n - 1, t);
    }
  }

  lemma IdleInv(shards: nat, workers: nat)
    requires workers > 0
    ensures Inv(Idle(shards, workers))
  {
    forall t ensures Balanced(Idle(shards, workers), t) {
      IdleBusy(workers, t);
    }
    forall x ensures Served(Idle(shards, workers), x) { IdleOn(workers, x); }
    IdleBusy(workers, 0);
  }

  lemma {:induction false} IdleOn(n: nat, x: Request)
    ensures BusyOn(seq(n, i => Looking), x) == 0
  {
    if n > 0 {
      assert seq(n, i => Looking)[1..] == seq(n - 1, i => Looking);
      IdleOn(n - 1, x);
    }
  }

  lemma {:induction false} RunInv(p: Pool, es: seq<Event>)
    requires Inv(p) && Run(p, es)
    ensures Inv(End(p, es)) && End(p, es).shards == p.shards
    ensures End(p, es).asked == p.asked + Submitted(es) && End(p, es).read == p.read + AllFinished(p, es)
    decreases |es|
  {
    if es != [] {
      var n := Next(p, es[0]);
      NextInv(p, es[0]);
      RunInv(n, es[1..]);
      Regroup(p.asked, Asked(es[0]), Submitted(es[1..]));
      Regroup(p.read, Finished(p, es[0]), AllFinished(n, es[1..]));
    }
  }

  lemma Regroup<T>(a: seq<T>, b: seq<T>, c: seq<T>)
    ensures a + b + c == a + (b + c)
  {
  }

  /** Over every interleaving, malformed requests included: no tag comes back more often than it was submitted; and once
      no thread can move, every submitted tag has come back exactly once or waits, completed, for the next collector. */
  lemma ExactlyOnce(shards: nat, workers: nat, es: seq<Event>)
    requires workers > 0 && Run(Idle(shards, workers), es)
    ensures multiset(End(Idle(shards, workers), es).returned) <= multiset(Tags(Submitted(es)))
    ensures var r := End(Idle(shards, workers), es);
            (forall a :: !Able(r, a)) ==>
              r.reaper.Away? && r.inFlight == 0 && multiset(Tags(Submitted(es))) == multiset(r.returned + r.done)
  {
    IdleInv(shards, workers);
    var p := Idle(shards, workers);
    RunInv(p, es);
    var r := End(p, es);
    assert r.accepted == Tags(Submitted(es));
    forall t ensures multiset(r.returned)[t] <= multiset(r.accepted)[t] {
      assert Balanced(r, t);
      CountIsMultiset(r.returned, t);
      CountIsMultiset(r.accepted, t);
    }
    if forall a :: !Able(r, a) {
      AtRest(r);
    }
  }

  lemma AtRest(r: Pool)
    requires Inv(r) && forall a :: !Able(r, a)
    ensures r.reaper.Away? && r.inFlight == 0 && r.q == [] && Reads(r.workers) == 0
    ensures multiset(r.accepted) == multiset(r.returned + r.done)
  {
    if !r.reaper.Away? {
      NeverStuck(r);
    }
    assert !Able(r, 0) && !Able(r, |r.workers|);
    if Reads(r.workers) > 0 {
      var i := SomeReading(r.workers);
      assert Able(r, i);
    }
    forall t ensures multiset(r.accepted)[t] == multiset(r.returned + r.done)[t] {
      assert Balanced(r, t);
      NoneBusy(r.workers, t);
      CountAppend(r.returned, r.done, t);
      CountIsMultiset(r.accepted, t);
      CountIsMultiset(r.returned + r.done, t);
    }
  }

  lemma {:induction false} NoneOn(ws: seq<Worker>, x: Request)
    requires Reads(ws) == 0
    ensures BusyOn(ws, x) == 0
  {
    if ws != [] {
      NoneOn(ws[1..], x);
    }
  }

  lemma {:induction false} NoneBusy(ws: seq<Worker>, t: Tag)
    requires Reads(ws) == 0
    ensures Busy(ws, t) == 0
  {
    if ws != [] {
      NoneBusy(ws[1..], t);
    }
  }

  lemma CountIn<T>(s: seq<T>, t: T)
    ensures Count(s, t) > 0 <==> t in s
  {
    CountIsMultiset(s, t);
    assert t in multiset(s) <==> t in s;
  }

  lemma {:induction false} OneOfTag(rs: seq<Request>, x: Request, y: Request)
    requires x in rs && y in rs && x.tag == y.tag && Count(Tags(rs), x.tag) == 1
    ensures x == y
  {
    assert Tags(rs)[1..] == Tags(rs[1..]);
    if rs[0].tag == x.tag {
      forall z | z in rs[1..] ensures z.tag != x.tag {
        var i :| 0 <= i < |rs[1..]| && rs[1..][i] == z;
        CountIn(Tags(rs[1..]), x.tag);
        assert Tags(rs[1..])[i] == z.tag;
      }
    } else {
      OneOfTag(rs[1..], x, y);
    }
  }

  lemma {:induction false} NoneRefused(rs: seq<Request>, shards: nat, t: Tag)
    requires forall x :: x in rs && x.tag == t ==> 0 <= x.shard < shards && x.hasDst && x.nbytes > 0
    ensures Refusals(rs, shards, t) == 0
    decreases |rs|
  {
    if rs != [] {
      assert rs[|rs| - 1] in rs;
      NoneRefused(rs[..|rs| - 1], shards, t);
    }
  }

  lemma {:induction false} BusyIn(ws: seq<Worker>, i: nat)
    requires i < |ws| && ws[i].Reading?
    ensures BusyOn(ws, ws[i].job) > 0
  {
    if i > 0 {
      BusyIn(ws[1..], i - 1);
    }
  }

  /** Over every interleaving: what is queued, being read or read was submitted, for a shard there is, with somewhere to
      put at least one byte, and no request is read more often than submitted. */
  lemma OnlyGoodRead(shards: nat, workers: nat, es: seq<Event>, x: Request)
    requires workers > 0 && Run(Idle(shards, workers), es)
    requires var r := End(Idle(shards, workers), es);
             x in r.q || x in r.read || exists i :: 0 <= i < |r.workers| && r.workers[i] == Reading(x)
    ensures 0 <= x.shard < shards && x.hasDst && x.nbytes > 0 && x in Submitted(es)
    ensures multiset(AllFinished(Idle(shards, workers), es))[x] <= multiset(Submitted(es))[x]
  {
    var r := End(Idle(shards, workers), es);
    IdleInv(shards, workers);
    RunInv(Idle(shards, workers), es);
    assert Served(r, x) && r.asked == Submitted(es) && r.read == AllFinished(Idle(shards, workers), es);
    CountIn(r.q, x);
    CountIn(r.read, x);
    CountIn(r.asked, x);
    CountIsMultiset(r.asked, x);
    CountIsMultiset(r.read, x);
    if i :| 0 <= i < |r.workers| && r.workers[i] == Reading(x) {
      BusyIn(r.workers, i);
    }
  }

  /** Over every interleaving: the tag of one request only is completed, taken or returned no sooner than a worker has
      finished reading, unless the request names no shard, has nowhere to go or asks for nothing. */
  lemma ReadFirst(shards: nat, workers: nat, es: seq<Event>, x: Request)
    requires workers > 0 && Run(Idle(shards, workers), es)
    requires x in Submitted(es) && multiset(Tags(Submitted(es)))[x.tag] == 1
    requires var r := End(Idle(shards, workers), es); x.tag in r.returned + Taken(r.reaper) + r.done
    ensures x in AllFinished(Idle(shards, workers), es)
         || x.shard < 0 || x.shard >= shards || !x.hasDst || x.nbytes == 0
  {
    var r := End(Idle(shards, workers), es);
    IdleInv(shards, workers);
    RunInv(Idle(shards, workers), es);
    assert r.asked == Submitted(es) && r.read == AllFinished(Idle(shards, workers), es);
    CountIsMultiset(Tags(r.asked), x.tag);
    if 0 <= x.shard < shards && x.hasDst && x.nbytes > 0 {
      forall y | y in r.asked && y.tag == x.tag ensures y == x { OneOfTag(r.asked, x, y); }
      NoneRefused(r.asked, shards, x.tag);
      CountIn(r.returned, x.tag);
      CountIn(Taken(r.reaper), x.tag);
      CountIn(r.done, x.tag);
      assert Answered(r, x.tag);
      CountIn(Tags(r.read), x.tag);
      var i :| 0 <= i < |r.read| && Tags(r.read)[i] == x.tag;
      var y := r.read[i];
      CountIn(r.read, y);
      assert Served(r, y);
      CountIn(r.asked, y);
    }
  }

  /** Once no thread can move, exactly the requests for a shard there is, with somewhere to put at least one byte, have
      been read, each as often as submitted. */
  lemma AllGoodRead(shards: nat, workers: nat, es: seq<Event>, x: Request)
    requires workers > 0 && Run(Idle(shards, workers), es)
    requires forall a :: !Able(End(Idle(shards, workers), es), a)
    ensures multiset(AllFinished(Idle(shards, workers), es))[x]
         == if 0 <= x.shard < shards && x.hasDst && x.nbytes > 0 then multiset(Submitted(es))[x] else 0
  {
    var r := End(Idle(shards, workers), es);
    IdleInv(shards, workers);
    RunInv(Idle(shards, workers), es);
    AtRest(r);
    assert Served(r, x) && r.asked == Submitted(es) && r.read == AllFinished(Idle(shards, workers), es);
    NoneOn(r.workers, x);
    CountIsMultiset(r.asked, x);
    CountIsMultiset(r.read, x);
  }

  /** A call that began in `p` and stands at `r`: while it is inside, nothing is recorded as returned; once it has ended
      it has delivered at least the least of what was asked for, what fits, and what was undelivered when it began, and
      never more than fits. */
  predicate Delivering(p: Pool, r: Pool, max: nat, min: nat) {
    && |p.accepted| <= |r.accepted|
    && if r.reaper.Away? then
         Least(Least(min, max), |p.accepted| - |p.returned|) <= |r.returned| - |p.returned| <= max
       else
         r.returned == p.returned && r.reaper.max == max && r.reaper.min == min && |r.reaper.got| <= max
  }

  lemma CollectDelivers(p: Pool, r: Pool, max: nat, min: nat)
    requires Calls(r) && r.reaper.Awake? && Delivering(p, r, max, min)
    ensures Delivering(p, Collect(r, r.reaper.got, max, min), max, min)
  {
    CollectFacts(r, r.reaper.got, max, min);
  }

  lemma DeliveringNext(p: Pool, r: Pool, e: Event, max: nat, min: nat)
    requires Inv(r) && Delivering(p, r, max, min) && Enabled(r, e) && !e.Reap?
    ensures Delivering(p, Next(r, e), max, min)
  {
    if e.Submit? {
      PostedInv(r, e.rs);
    } else if e.who > |r.workers| {
      CollectDelivers(p, r, max, min);
    }
  }

  predicate NoReap(es: seq<Event>) {
    forall i :: 0 <= i < |es| ==> !es[i].Reap?
  }

  lemma {:induction false} RunDelivers(p: Pool, r: Pool, es: seq<Event>, max: nat, min: nat)
    requires Inv(r) && Delivering(p, r, max, min) && Run(r, es) && NoReap(es)
    ensures Delivering(p, End(r, es), max, min)
    decreases |es|
  {
    if es != [] {
      assert !es[0].Reap?;
      DeliveringNext(p, r, es[0], max, min);
      NextInv(r, es[0]);
      forall i | 0 <= i < |es[1..]| ensures !es[1..][i].Reap? {
        assert es[1..][i] == es[i + 1];
      }
      RunDelivers(p, Next(r, es[0]), es[1..], max, min);
    }
  }

  /** Whatever the threads and other submissions do meanwhile. */
  lemma ReapDelivers(p: Pool, max: nat, min: nat, es: seq<Event>)
    requires Inv(p) && p.reaper == Away
    requires Run(Called(p, max, min), es) && NoReap(es)
    ensures Delivering(p, End(Called(p, max, min), es), max, min)
  {
    NextInv(p, Reap(max, min));
    RunDelivers(p, Called(p, max, min), es, max, min);
  }

  predicate MovesOnly(es: seq<Event>) {
    forall i :: 0 <= i < |es| ==> es[i].Move?
  }

  /** With no new submission the threads come to rest within a known number of steps, whatever the scheduler: with
      `NeverStuck`, every call returns. */
  lemma {:induction false} RunRests(p: Pool, es: seq<Event>)
    requires Inv(p) && Run(p, es) && MovesOnly(es)
    ensures |es| + Rank(End(p, es)) <= Rank(p)
    decreases |es|
  {
    if es != [] {
      assert es[0].Move?;
      MovedInv(p, es[0].who);
      forall i | 0 <= i < |es[1..]| ensures es[1..][i].Move? {
        assert es[1..][i] == es[i + 1];
      }
      RunRests(Next(p, es[0]), es[1..]);
    }
  }

  // ---------------------------------------------------------------- the engine

  /** A depth of zero means the default of 256, and no more than 32 threads are started. */
  function WorkerCount(queueDepth: nat): nat {
    Least(if queueDepth == 0 then 256 else queueDepth, 32)
  }

  class Engine {
    const shards: nat
    var q: seq<Request>
    var done: seq<Tag>
    var inFlight: int
    var workers: seq<Worker>
    var poster: Poster
    var reaper: Reaper
    ghost var accepted: seq<Tag>
    ghost var returned: seq<Tag>
    ghost var asked: seq<Request>
    ghost var read: seq<Request>

    ghost function View(): Pool
      reads this
    {
      Pool(shards, q, done, inFlight, workers, poster, reaper, accepted, returned, asked, read)
    }

    constructor (shardCount: nat, queueDepth: nat)
      ensures View() == Idle(shardCount, WorkerCount(queueDepth)) && Inv(View())
      ensures |workers| == if queueDepth == 0 || queueDepth > 32 then 32 else queueDepth
    {
      shards := shardCount;
      q, done, inFlight := [], [], 0;
      var n := WorkerCount(queueDepth);
      workers := seq(n, i => Looking);
      poster, reaper := Quiet, Away;
      accepted, returned, asked, read := [], [], [], [];
      new;
      IdleInv(shardCount, n);
    }

    method Submit(rs: seq<Request>) returns (n: nat)
      requires Inv(View()) && CanPost(View())
      modifies this
      ensures View() == Posted(old(View()), rs) && Inv(View())
      ensures n == |rs|
    {
      ghost var before := View();
      var queuedJobs := 0;
      var i := 0;
      while i < |rs|
        invariant 0 <= i <= |rs| && queuedJobs <= i
        invariant View() == Queue(before, rs[..i])
        invariant queuedJobs > 0 <==> AnyQueued(before, rs[..i])
        invariant queuedJobs < i <==> AnyRefused(before, rs[..i])
      {
        var r := rs[i];
        ghost var sofar := rs[..i + 1];
        assert sofar[..i] == rs[..i] && sofar[i] == r;
        AnySnoc(before, sofar);
        if r.shard < 0 || r.shard >= shards || !r.hasDst || r.nbytes == 0 {
          done := done + [r.tag];
        } else {
          q := q + [r];
          inFlight := inFlight + 1;
          queuedJobs := queuedJobs + 1;
        }
        accepted, asked := accepted + [r.tag], asked + [r];
        i := i + 1;
      }
      assert rs[..i] == rs;
      poster := if queuedJobs > 0 then WakeWorkers(queuedJobs < |rs|)
                else if queuedJobs < |rs| then WakeReaper else Quiet;
      PostedInv(before, rs);
      n := |rs|;
    }

    /** One step of worker `w`: look, read, or announce. */
    method WorkerStep(w: nat)
      requires Inv(View()) && w < |workers| && workers[w] != Asleep
      modifies this
      ensures View() == WorkerMoved(old(View()), w) && Inv(View())
    {
      WorkerMovedInv(View(), w);
      match workers[w]
      case Looking =>
        if q == [] {
          workers := workers[w := Asleep];
        } else {
          var job := q[0];
          q := q[1..];
          workers := workers[w := Reading(job)];
        }
      case Reading(job) =>
        done, read := done + [job.tag], read + [job];
        inFlight := inFlight - 1;
        workers := workers[w := Telling];
      case Telling =>
        reaper := Notified(reaper);
        workers := workers[w := Looking];
    }

    method PosterStep()
      requires Inv(View()) && poster != Quiet
      modifies this
      ensures View() == PosterMoved(old(View())) && Inv(View())
    {
      PosterMovedInv(View());
      if poster.WakeWorkers? {
        workers := Woken(workers);
        poster := if poster.refused then WakeReaper else Quiet;
      } else {
        reaper := Notified(reaper);
        poster := Quiet;
      }
    }

    /** The collecting loop up to its return or its sleep. */
    method Drain(tags: seq<Tag>, max: nat, min: nat) returns (got: seq<Tag>)
      requires Inv(View()) && reaper == Awake(tags, max, min)
      modifies this
      ensures View() == Collect(old(View()), tags, max, min) && Inv(View())
      ensures reaper == Away || reaper == Blocked(got, max, min)
      ensures returned == if reaper == Away then old(returned) + got else old(returned)
    {
      ghost var start := View();
      CollectInv(start);
      got := tags;
      var sleep := false;
      while |got| < max
        invariant Collect(View(), got, max, min) == Collect(start, tags, max, min)
        invariant returned == start.returned
        invariant !sleep
        decreases |done|
      {
        if done == [] {
          sleep := |got| < min && inFlight != 0;
          break;
        }
        got := got + [done[0]];
        done := done[1..];
      }
      if sleep {
        reaper := Blocked(got, max, min);
      } else {
        reaper := Away;
        returned := returned + got;
      }
    }

    /** A submission with its notifications, as its caller sees it. */
    method Post(rs: seq<Request>) returns (n: nat)
      requires Inv(View()) && CanPost(View())
      modifies this
      ensures Inv(View()) && poster == Quiet && n == |rs|
      ensures accepted == old(accepted) + Tags(rs) && returned == old(returned)
      ensures old(reaper) == Away ==> reaper == Away
    {
      PostedInv(View(), rs);
      n := Submit(rs);
      while poster != Quiet
        invariant Inv(View()) && accepted == old(accepted) + Tags(rs) && returned == old(returned)
        invariant old(reaper) == Away ==> reaper == Away
        decreases if poster.WakeWorkers? then 2 else if poster.WakeReaper? then 1 else 0
      {
        PosterStep();
      }
    }

    /** One step of any thread that can take one. */
    method Schedule(tags: seq<Tag>) returns (got: seq<Tag>)
      requires Inv(View()) && reaper != Away && reaper.got == tags
      modifies this
      ensures exists a :: Able(old(View()), a) && View() == Moved(old(View()), a)
      ensures Inv(View()) && Rank(View()) < Rank(old(View()))
      ensures old(poster) == Quiet ==> poster == Quiet
      ensures if reaper == Away then returned == old(returned) + got else reaper.got == got && returned == old(returned)
    {
      ghost var before := View();
      NeverStuck(before);
      ghost var able :| 0 <= able <= |workers| + 1 && Able(before, able);
      var a: int :| 0 <= a <= |workers| + 1 && MayMove(workers, poster, reaper, a);
      assert MayMove(workers, poster, reaper, a);
      MovedInv(before, a);
      got := tags;
      MovedQuiet(before, a);
      if a < |workers| {
        WorkerStep(a);
      } else if a == |workers| {
        PosterStep();
      } else {
        got := Drain(tags, reaper.max, reaper.min);
      }
      assert View() == Moved(before, a);
    }

    /** The call as its caller sees it, the other threads being scheduled in any order while it sleeps. That it ends
        says that no wait is stuck. */
    method Reap(max: nat, min: nat) returns (tags: seq<Tag>)
      requires Inv(View()) && reaper == Away
      modifies this
      ensures Inv(View()) && reaper == Away && (old(poster) == Quiet ==> poster == Quiet)
      ensures accepted == old(accepted) && returned == old(returned) + tags
      ensures Least(Least(min, max), |accepted| - |old(returned)|) <= |tags| <= max
    {
      ghost var start := View();
      NextInv(start, Event.Reap(max, min));
      reaper := Awake([], max, min);
      tags := [];
      while reaper != Away
        invariant Inv(View()) && accepted == start.accepted && (old(poster) == Quiet ==> poster == Quiet)
        invariant Delivering(start, View(), max, min)
        invariant if reaper == Away then returned == start.returned + tags else reaper.got == tags
        decreases Rank(View())
      {
        ghost var before := View();
        tags := Schedule(tags);
        ghost var a :| Able(before, a) && View() == Moved(before, a);
        MovedInv(before, a);
        DeliveringNext(start, before, Move(a), max, min);
      }
    }
  }

  lemma AnySnoc(p: Pool, rs: seq<Request>)
    requires rs != []
    ensures var init, last := rs[..|rs| - 1], rs[|rs| - 1];
            && AnyQueued(p, rs) == (AnyQueued(p, init) || !Malformed(last, p.shards))
            && AnyRefused(p, rs) == (AnyRefused(p, init) || Malformed(last, p.shards))
  {
    var init, last := rs[..|rs| - 1], rs[|rs| - 1];
    assert rs == init + [last];
    forall i | 0 <= i < |init| ensures rs[i] == init[i] {
    }
    if AnyQueued(p, init) {
      var i :| 0 <= i < |init| && !Malformed(init[i], p.shards);
      assert !Malformed(rs[i], p.shards);
    }
    if AnyRefused(p, init) {
      var i :| 0 <= i < |init| && Malformed(init[i], p.shards);
      assert Malformed(rs[i], p.shards);
    }
  }
}
