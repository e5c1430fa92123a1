/**
 * Filling the staging of one layer: slices the RAM tier holds are copied, slices the VRAM
 * tier holds are left out, and the runs between them are read in chunks from aligned
 * edges, which may read the fringe of a neighbouring slice again.
 */
module ReadRuns {
  import opened Arithmetic
  import opened Overlay
  import opened DioLayout

  const CHUNK := 16777216

  /** One part of a layer: where expert zero's slice begins in its file, and the bytes of a slice. The slices follow one
      another. */
  datatype Part = Part(offset: nat, nbytes: nat)

  function At(p: Part, e: nat): nat {
    p.offset + e * p.nbytes
  }

  function Begin(p: Part, g: nat): nat
    requires Grain(g)
  {
    AlignDown(p.offset, g)
  }

  function Span(p: Part, n: nat, g: nat): nat
    requires Grain(g)
  {
    AlignUp(p.offset - Begin(p, g) + p.nbytes * n, g)
  }

  /** A part in the staging: its place, the stretch of its file that is laid out there, and the file. */
  datatype Placed = Placed(part: Part, off: nat, begin: nat, span: nat, file: nat -> Byte)

  /** What fills the staging: a read of a stretch of the file, or a copy of the slice the RAM tier holds. */
  datatype Job = Read(q: nat, r: Request) | Copy(q: nat, expert: nat)

  predicate Reaches(j: Job, ps: seq<Placed>, q: nat, x: nat) {
    && j.q == q && q < |ps|
    && match j
       case Read(_, r) => r.offset <= x < r.offset + r.nbytes
       case Copy(_, e) => At(ps[q].part, e) <= x < At(ps[q].part, e) + ps[q].part.nbytes
  }

  predicate ByteCovered(jobs: seq<Job>, ps: seq<Placed>, q: nat, x: nat) {
    exists j :: j in jobs && Reaches(j, ps, q, x)
  }

  /** Every file byte of `[lo, hi)` of part `q` is brought by some job. */
  predicate RunCovered(jobs: seq<Job>, ps: seq<Placed>, q: nat, lo: nat, hi: nat) {
    forall x :: lo <= x < hi ==> ByteCovered(jobs, ps, q, x)
  }

  predicate Provided(jobs: seq<Job>, ps: seq<Placed>, q: nat, e: nat)
    requires q < |ps|
  {
    RunCovered(jobs, ps, q, At(ps[q].part, e), At(ps[q].part, e) + ps[q].part.nbytes)
  }

  /** A read stays in its part's stretch and goes to the place that corresponds to its position in the file. */
  predicate ReadLies(r: Request, p: Placed) {
    && p.begin <= r.offset && r.offset + r.nbytes <= p.begin + p.span
    && r.dst == p.off + (r.offset - p.begin)
  }

  predicate Lies(j: Job, ps: seq<Placed>, n: nat) {
    && j.q < |ps|
    && (j.Read? ==> ReadLies(j.r, ps[j.q]))
    && (j.Copy? ==> j.expert < n)
  }

  predicate AllLie(jobs: seq<Job>, ps: seq<Placed>, n: nat) {
    forall j :: j in jobs ==> Lies(j, ps, n)
  }

  /** What the read engine asks of a request that is to land in place. */
  predicate ReadAligned(r: Request, g: nat)
    requires Grain(g)
  {
    Aligned(r.offset, g) && Aligned(r.nbytes, g) && 0 < r.nbytes <= CHUNK
  }

  predicate AllAligned(jobs: seq<Job>, g: nat)
    requires Grain(g)
  {
    forall j :: j in jobs && j.Read? ==> ReadAligned(j.r, g)
  }

  /** The parts follow one another, and each stretch holds its part's slices. */
  predicate Stacked(ps: seq<Placed>, n: nat) {
    && (forall q :: 0 <= q && q + 1 < |ps| ==> ps[q + 1].off == ps[q].off + ps[q].span)
    && (forall q :: 0 <= q < |ps| ==> ps[q].begin <= ps[q].part.offset && At(ps[q].part, n) <= ps[q].begin + ps[q].span)
  }

  /** The layout as it is computed. */
  predicate LaidOut(ps: seq<Placed>, n: nat, g: nat)
    requires Grain(g)
  {
    && (ps != [] ==> ps[0].off == 0)
    && (forall q :: 0 <= q && q + 1 < |ps| ==> ps[q + 1].off == ps[q].off + ps[q].span)
    && (forall q :: 0 <= q < |ps| ==> ps[q].begin == Begin(ps[q].part, g) && ps[q].span == Span(ps[q].part, n, g))
  }

  lemma LaidOutStacks(ps: seq<Placed>, n: nat, g: nat)
    requires Grain(g) && LaidOut(ps, n, g)
    ensures Stacked(ps, n)
  {
    forall q | 0 <= q < |ps|
      ensures ps[q].begin <= ps[q].part.offset && At(ps[q].part, n) <= ps[q].begin + ps[q].span
    {
      EdgesInside(ps[q].part, n, n, n, g);
      AlignFacts(ps[q].part.offset, g);
      AlignFacts(At(ps[q].part, n), g);
    }
  }

  // ---------------------------------------------------------------- planning

  lemma Further(jobs: seq<Job>, more: seq<Job>, ps: seq<Placed>, q: nat, lo: nat, hi: nat)
    requires RunCovered(jobs, ps, q, lo, hi) && forall j :: j in jobs ==> j in more
    ensures RunCovered(more, ps, q, lo, hi)
  {
    forall x | lo <= x < hi ensures ByteCovered(more, ps, q, x) {
      assert ByteCovered(jobs, ps, q, x);
      var j :| j in jobs && Reaches(j, ps, q, x);
      assert j in more;
    }
  }

  lemma {:induction false} SpanEnd(p: Part, n: nat, g: nat)
    requires Grain(g)
    ensures Begin(p, g) + Span(p, n, g) == AlignUp(At(p, n), g)
    ensures Aligned(Begin(p, g), g) && Begin(p, g) <= p.offset
  {
    assert p.nbytes * n == n * p.nbytes;
    UpFrom(p.offset, n * p.nbytes, g);
  }

  lemma {:induction false} UpFrom(offset: nat, m: nat, g: nat)
    requires Grain(g)
    ensures Aligned(AlignDown(offset, g), g) && AlignDown(offset, g) <= offset
    ensures AlignDown(offset, g) + AlignUp(offset - AlignDown(offset, g) + m, g) == AlignUp(offset + m, g)
  {
    AlignFacts(offset, g);
    UpOn(offset - AlignDown(offset, g) + m, AlignDown(offset, g), offset + m, g);
  }

  lemma {:induction false} UpOn(x: nat, k: nat, y: nat, g: nat)
    requires Grain(g) && Aligned(k, g) && y == x + k
    ensures k + AlignUp(x, g) == AlignUp(y, g)
  {
    PadShift(x, k, y, g);
  }

  /** The run's aligned edges stay in the part's span. */
  lemma EdgesInside(p: Part, n: nat, e: nat, e2: nat, g: nat)
    requires Grain(g) && e <= e2 <= n
    ensures Begin(p, g) <= AlignDown(At(p, e), g)
    ensures AlignUp(At(p, e2), g) <= Begin(p, g) + Span(p, n, g)
    ensures Aligned(Begin(p, g) + Span(p, n, g), g)
  {
    Monotone(e2, n, p.nbytes);
    var end := Begin(p, g) + Span(p, n, g);
    assert end == AlignUp(At(p, n), g) by {
      SpanEnd(p, n, g);
    }
    assert AlignUp(At(p, e2), g) <= end by {
      AlignUpMonotone(At(p, e2), At(p, n), g);
    }
    assert Begin(p, g) <= AlignDown(At(p, e), g) by {
      DownMonotone(p.offset, At(p, e), g);
    }
    assert Aligned(end, g) by {
      AlignFacts(At(p, n), g);
    }
  }

  function Least(a: nat, b: nat): nat {
    if a <= b then a else b
  }

  /** Every read is of the stretch from lo up to hi. */
  predicate Between(jobs: seq<Job>, lo: nat, hi: nat) {
    forall j :: j in jobs && j.Read? ==> lo <= j.r.offset && j.r.offset + j.r.nbytes <= hi
  }

  /** Some experts in a row, none held and none in VRAM, whose aligned window the read is in. */
  ghost predicate OfMissing(r: Request, p: Part, n: nat, held: seq<bool>, inVram: seq<bool>, g: nat)
    requires Grain(g) && |held| == n
  {
    exists e, e2 :: 0 <= e < e2 <= n && AllMissing(held, inVram, e, e2)
      && AlignDown(At(p, e), g) <= r.offset && r.offset + r.nbytes <= AlignUp(At(p, e2), g)
  }

  ghost predicate AllMissing(held: seq<bool>, inVram: seq<bool>, e: nat, e2: nat) {
    forall x :: e <= x < e2 && x < |held| ==> !held[x] && !Skipped(inVram, x)
  }

  /** One run of missing experts, chunk by chunk. */
  method PlanRun(q: nat, ghost ps: seq<Placed>, p: Part, off: nat, begin: nat, span: nat, n: nat, e: nat, e2: nat,
          g: nat)
    returns (jobs: seq<Job>)
    requires Grain(g) && e < e2 <= n && q < |ps| && ps[q].part == p && ps[q].off == off
    requires ps[q].begin == begin == Begin(p, g) && ps[q].span == span == Span(p, n, g)
    ensures AllLie(jobs, ps, n) && AllAligned(jobs, g) && ReadsOf(jobs, q)
    ensures RunCovered(jobs, ps, q, At(p, e), At(p, e2))
    ensures Between(jobs, AlignDown(At(p, e), g), AlignUp(At(p, e2), g))
  {
    RunEdges(p, n, e, e2, g);
    var a0 := AlignDown(At(p, e), g);
    var a1 := Least(AlignUp(At(p, e2), g), begin + span);
    jobs := PlanChunks(q, ps, off, begin, span, n, a0, a1, g);
    Narrower(jobs, ps, q, a0, a1, At(p, e), At(p, e2));
  }

  lemma RunEdges(p: Part, n: nat, e: nat, e2: nat, g: nat)
    requires Grain(g) && e < e2 <= n
    ensures var a0, a1 := AlignDown(At(p, e), g), AlignUp(At(p, e2), g);
            && Begin(p, g) <= a0 <= At(p, e) <= At(p, e2) <= a1 <= Begin(p, g) + Span(p, n, g)
            && Aligned(a0, g) && Aligned(a1, g)
  {
    EdgesInside(p, n, e, e2, g);
    AlignFacts(At(p, e), g);
    AlignFacts(At(p, e2), g);
    Monotone(e, e2, p.nbytes);
  }

  lemma Narrower(jobs: seq<Job>, ps: seq<Placed>, q: nat, lo: nat, hi: nat, a: nat, b: nat)
    requires RunCovered(jobs, ps, q, lo, hi) && lo <= a && b <= hi
    ensures RunCovered(jobs, ps, q, a, b)
  {
  }

  method PlanChunks(q: nat, ghost ps: seq<Placed>, off: nat, begin: nat, ghost span: nat, ghost n: nat, a0: nat,
          a1: nat, g: nat)
    returns (jobs: seq<Job>)
    requires Grain(g) && Aligned(a0, g) && Aligned(a1, g) && q < |ps|
    requires ps[q].off == off && ps[q].begin == begin <= a0 && ps[q].span == span && a1 <= begin + span
    ensures AllLie(jobs, ps, n) && AllAligned(jobs, g) && ReadsOf(jobs, q)
    ensures RunCovered(jobs, ps, q, a0, a1) && Between(jobs, a0, a1)
  {
    jobs := [];
    var at := a0;
    while at < a1
      invariant a0 <= at && (at < a1 ==> Aligned(at, g))
      invariant AllLie(jobs, ps, n) && AllAligned(jobs, g) && ReadsOf(jobs, q)
      invariant RunCovered(jobs, ps, q, a0, Least(at, a1)) && Between(jobs, a0, a1)
      decreases if at < a1 then a1 - at else 0
    {
      var len := Least(CHUNK, a1 - at);
      var job := Read(q, Request(at, len, off + (at - begin)));
      ChunkAligned(at, a1, g);
      ChunkCovers(jobs, job, ps, q, a0, at);
      jobs := jobs + [job];
      at := at + CHUNK;
    }
  }

  lemma ChunkAligned(at: nat, a1: nat, g: nat)
    requires Grain(g) && Aligned(at, g) && Aligned(a1, g) && at < a1
    ensures Aligned(Least(CHUNK, a1 - at), g) && Aligned(at + CHUNK, g)
  {
    NextAligned(at, g);
    AlignedDifference(at, a1, g);
  }

  lemma NextAligned(at: nat, g: nat)
    requires Grain(g) && Aligned(at, g)
    ensures Aligned(at + CHUNK, g) && Aligned(CHUNK, g)
  {
    DownIs(CHUNK, g);
    AlignedSum(at, CHUNK, g);
  }

  lemma ChunkCovers(jobs: seq<Job>, job: Job, ps: seq<Placed>, q: nat, lo: nat, at: nat)
    requires RunCovered(jobs, ps, q, lo, at) && job.Read? && job.q == q < |ps| && job.r.offset == at
    ensures RunCovered(jobs + [job], ps, q, lo, at + job.r.nbytes)
  {
    Further(jobs, jobs + [job], ps, q, lo, at);
    forall x | at <= x < at + job.r.nbytes ensures ByteCovered(jobs + [job], ps, q, x) {
      assert job in jobs + [job] && Reaches(job, ps, q, x);
    }
  }

  predicate Skipped(inVram: seq<bool>, e: nat) {
    e < |inVram| && inVram[e]
  }

  predicate ReadsOf(jobs: seq<Job>, q: nat) {
    forall j :: j in jobs ==> j.Read? && j.q == q
  }

  /** The copies of a part are of slices that the RAM tier holds and VRAM does not. */
  predicate CopiesOf(jobs: seq<Job>, q: nat, held: seq<bool>, inVram: seq<bool>) {
    forall j :: j in jobs ==> j.Copy? && j.q == q && j.expert < |held| && held[j.expert] && !Skipped(inVram, j.expert)
  }

  predicate ProvidedTo(jobs: seq<Job>, ps: seq<Placed>, q: nat, m: nat, inVram: seq<bool>)
    requires q < |ps|
  {
    forall e :: 0 <= e < m && !Skipped(inVram, e) ==> Provided(jobs, ps, q, e)
  }

  /** One part: copies for the held slices, runs of reads between, nothing for the slices in VRAM. */
  method PlanPart(q: nat, ghost ps: seq<Placed>, p: Part, off: nat, n: nat, held: seq<bool>, inVram: seq<bool>, g: nat)
    returns (fetched: seq<Job>, copied: seq<Job>)
    requires Grain(g) && |held| == n && q < |ps| && ps[q].part == p && ps[q].off == off
    requires ps[q].begin == Begin(p, g) && ps[q].span == Span(p, n, g)
    ensures AllLie(fetched, ps, n) && AllLie(copied, ps, n) && AllAligned(fetched, g)
    ensures ReadsOf(fetched, q) && CopiesOf(copied, q, held, inVram)
    ensures ProvidedTo(fetched + copied, ps, q, n, inVram)
    ensures forall e :: 0 <= e < n ==> (Copy(q, e) in copied <==> held[e] && !Skipped(inVram, e))
    ensures forall j :: j in fetched ==> OfMissing(j.r, p, n, held, inVram, g)
  {
    fetched, copied := [], [];
    var begin, span := Begin(p, g), Span(p, n, g);
    var e := 0;
    while e < n
      invariant 0 <= e <= n
      invariant AllLie(fetched, ps, n) && AllLie(copied, ps, n) && AllAligned(fetched, g)
      invariant ReadsOf(fetched, q) && CopiesOf(copied, q, held, inVram)
      invariant ProvidedTo(fetched + copied, ps, q, e, inVram)
      invariant forall x :: 0 <= x < n ==> (Copy(q, x) in copied <==> x < e && held[x] && !Skipped(inVram, x))
      invariant forall j :: j in fetched ==> OfMissing(j.r, p, n, held, inVram, g)
    {
      if Skipped(inVram, e) {
        e := e + 1;
        continue;
      }
      if held[e] {
        CopyProvides(fetched + copied, fetched + (copied + [Copy(q, e)]), ps, q, e, inVram);
        copied := copied + [Copy(q, e)];
        e := e + 1;
        continue;
      }
      var e2 := e + 1;
      while e2 < n && !held[e2] && !Skipped(inVram, e2)
        invariant e < e2 <= n && AllMissing(held, inVram, e, e2)
      {
        e2 := e2 + 1;
      }
      var run := PlanRun(q, ps, p, off, begin, span, n, e, e2, g);
      RunProvides(fetched + copied, run, (fetched + run) + copied, ps, q, e, e2, inVram);
      forall j | j in run ensures OfMissing(j.r, p, n, held, inVram, g) { assert AllMissing(held, inVram, e, e2); }
      fetched := fetched + run;
      e := e2;
    }
  }

  lemma CopyProvides(jobs: seq<Job>, more: seq<Job>, ps: seq<Placed>, q: nat, e: nat, inVram: seq<bool>)
    requires q < |ps| && ProvidedTo(jobs, ps, q, e, inVram)
    requires Copy(q, e) in more && forall j :: j in jobs ==> j in more
    ensures ProvidedTo(more, ps, q, e + 1, inVram)
  {
    forall x | 0 <= x < e + 1 && !Skipped(inVram, x) ensures Provided(more, ps, q, x) {
      var p := ps[q].part;
      if x < e {
        assert Provided(jobs, ps, q, x);
        Further(jobs, more, ps, q, At(p, x), At(p, x) + p.nbytes);
      } else {
        forall y | At(p, e) <= y < At(p, e) + p.nbytes ensures ByteCovered(more, ps, q, y) {
          assert Reaches(Copy(q, e), ps, q, y);
        }
      }
    }
  }

  lemma RunProvides(jobs: seq<Job>, run: seq<Job>, more: seq<Job>, ps: seq<Placed>, q: nat, e: nat, e2: nat,
                    inVram: seq<bool>)
    requires q < |ps| && ProvidedTo(jobs, ps, q, e, inVram) && e <= e2
    requires RunCovered(run, ps, q, At(ps[q].part, e), At(ps[q].part, e2))
    requires forall j :: j in jobs || j in run ==> j in more
    ensures ProvidedTo(more, ps, q, e2, inVram)
  {
    var p := ps[q].part;
    forall x | 0 <= x < e2 && !Skipped(inVram, x) ensures Provided(more, ps, q, x) {
      if x < e {
        assert Provided(jobs, ps, q, x);
        Further(jobs, more, ps, q, At(p, x), At(p, x) + p.nbytes);
      } else {
        Monotone(e, x, p.nbytes);
        Monotone(x, e2, p.nbytes);
        Further(run, more, ps, q, At(p, x), At(p, x) + p.nbytes);
      }
    }
  }

  lemma StillProvided(jobs: seq<Job>, more: seq<Job>, ps: seq<Placed>, q: nat, n: nat, inVram: seq<bool>)
    requires q < |ps| && ProvidedTo(jobs, ps, q, n, inVram) && forall j :: j in jobs ==> j in more
    ensures ProvidedTo(more, ps, q, n, inVram)
  {
    forall e | 0 <= e < n && !Skipped(inVram, e) ensures Provided(more, ps, q, e) {
      assert Provided(jobs, ps, q, e);
      Further(jobs, more, ps, q, At(ps[q].part, e), At(ps[q].part, e) + ps[q].part.nbytes);
    }
  }

  /** All parts, one behind the other in the staging. */
  method Plan(ghost ps: seq<Placed>, parts: seq<Part>, n: nat, held: seq<bool>, inVram: seq<bool>, g: nat)
    returns (offs: seq<nat>, fetched: seq<Job>, copied: seq<Job>)
    requires Grain(g) && |held| == n && |ps| == |parts| && LaidOut(ps, n, g)
    requires forall q :: 0 <= q < |parts| ==> ps[q].part == parts[q]
    ensures |offs| == |ps| && forall q :: 0 <= q < |ps| ==> offs[q] == ps[q].off
    ensures AllLie(fetched + copied, ps, n) && AllAligned(fetched, g) && Stacked(ps, n)
    ensures forall j :: j in fetched ==> j.Read?
    ensures forall j :: j in copied ==> j.Copy? && j.expert < n && held[j.expert] && !Skipped(inVram, j.expert)
    ensures forall q :: 0 <= q < |ps| ==> ProvidedTo(fetched + copied, ps, q, n, inVram)
    ensures forall q, e :: 0 <= q < |ps| && 0 <= e < n ==> (Copy(q, e) in copied <==> held[e] && !Skipped(inVram, e))
    ensures forall j :: j in fetched ==> j.q < |ps| && OfMissing(j.r, ps[j.q].part, n, held, inVram, g)
  {
    LaidOutStacks(ps, n, g);
    var off := 0;
    offs, fetched, copied := [], [], [];
    for q := 0 to |parts|
      invariant |offs| == q && forall i :: 0 <= i < q ==> offs[i] == ps[i].off
      invariant q < |ps| ==> off == ps[q].off
      invariant AllLie(fetched, ps, n) && AllLie(copied, ps, n) && AllAligned(fetched, g)
      invariant forall j :: j in fetched ==> j.Read?
      invariant forall j :: j in copied ==> j.Copy? && j.expert < n && held[j.expert] && !Skipped(inVram, j.expert)
      invariant forall i :: 0 <= i < q ==> ProvidedTo(fetched + copied, ps, i, n, inVram)
      invariant forall i, e :: 0 <= i < |ps| && 0 <= e < n ==>
                  (Copy(i, e) in copied <==> i < q && held[e] && !Skipped(inVram, e))
      invariant forall j :: j in fetched ==> j.q < q && OfMissing(j.r, ps[j.q].part, n, held, inVram, g)
    {
      var f, c := PlanPart(q, ps, parts[q], off, n, held, inVram, g);
      ghost var all := (fetched + f) + (copied + c);
      StillProvided(f + c, all, ps, q, n, inVram);
      forall i | 0 <= i < q ensures ProvidedTo(all, ps, i, n, inVram) {
        StillProvided(fetched + copied, all, ps, i, n, inVram);
      }
      offs := offs + [off];
      fetched, copied := fetched + f, copied + c;
      off := off + Span(parts[q], n, g);
    }
  }

  // ---------------------------------------------------------------- what the jobs bring

  /** The byte that belongs at an address of the staging: the file's at the same distance from the beginning of its
      part's stretch. */
  function HomeAt(ps: seq<Placed>, d: nat): Byte {
    if ps == [] then 0
    else
      var last := ps[|ps| - 1];
      if d >= last.off then last.file(last.begin + (d - last.off)) else HomeAt(ps[..|ps| - 1], d)
  }

  function HomeOf(ps: seq<Placed>): nat -> Byte {
    (d: nat) => HomeAt(ps, d)
  }

  lemma {:induction false} HomeIn(ps: seq<Placed>, n: nat, q: nat, d: nat)
    requires Stacked(ps, n) && q < |ps| && ps[q].off <= d < ps[q].off + ps[q].span
    ensures HomeAt(ps, d) == ps[q].file(ps[q].begin + (d - ps[q].off))
  {
    if q + 1 < |ps| {
      LaterOff(ps, n, q + 1, |ps| - 1);
      HomeIn(ps[..|ps| - 1], n, q, d);
    }
  }

  lemma {:induction false} LaterOff(ps: seq<Placed>, n: nat, q: nat, r: nat)
    requires Stacked(ps, n) && q <= r < |ps|
    ensures ps[q].off <= ps[r].off
  {
    if q < r {
      LaterOff(ps, n, q, r - 1);
    }
  }

  /** Where a part's file position goes. */
  function PlaceOf(p: Placed, x: nat): nat
    requires x >= p.begin
  {
    p.off + (x - p.begin)
  }

  function JobFrom(j: Job, ps: seq<Placed>): nat
    requires j.q < |ps|
  {
    if j.Read? then j.r.offset else At(ps[j.q].part, j.expert)
  }

  function JobLength(j: Job, ps: seq<Placed>): nat
    requires j.q < |ps|
  {
    if j.Read? then j.r.nbytes else ps[j.q].part.nbytes
  }

  /** Slice `e` of a part in the staging. */
  function SliceAt(p: Placed, e: nat): nat
    requires p.begin <= p.part.offset
  {
    p.off + (p.part.offset - p.begin) + e * p.part.nbytes
  }

  function JobAt(j: Job, ps: seq<Placed>): nat
    requires j.q < |ps| && ps[j.q].begin <= ps[j.q].part.offset
  {
    if j.Read? then j.r.dst else SliceAt(ps[j.q], j.expert)
  }

  /** A read brings the file's bytes; a copy the RAM tier's, which are those of the file when the tier holds the slice.
      */
  function JobOp(j: Job, ps: seq<Placed>): Op
    requires j.q < |ps| && ps[j.q].begin <= ps[j.q].part.offset
  {
    Op(JobAt(j, ps), Values(ps[j.q].file, JobFrom(j, ps), JobLength(j, ps)))
  }

  predicate Planned(jobs: seq<Job>, ps: seq<Placed>, n: nat) {
    AllLie(jobs, ps, n) && Stacked(ps, n)
  }

  function JobOps(jobs: seq<Job>, ps: seq<Placed>, n: nat): (ops: seq<Op>)
    requires Planned(jobs, ps, n)
    ensures |ops| == |jobs|
    ensures forall i :: 0 <= i < |jobs| ==> jobs[i] in jobs && ops[i] == JobOp(jobs[i], ps)
  {
    seq(|jobs|, i requires 0 <= i < |jobs| => assert jobs[i] in jobs; JobOp(jobs[i], ps))
  }

  /** The read engine's aligned window for such a request is the request itself, so its operation is the same direct or
      through a bounce buffer. */
  lemma WindowIsRequest(r: Request, file: nat -> Byte, g: nat, bounce: bool)
    requires Grain(g) && ReadAligned(r, g)
    ensures OpOf(r, file, g, bounce) == Op(r.dst, Values(file, r.offset, r.nbytes))
  {
    AlignedWindow(r.offset, r.nbytes, g);
    var h := Home(r, file, g);
    assert OpOf(r, file, g, bounce) == Op(r.dst, Values(h, r.dst, r.nbytes));
    forall i | 0 <= i < r.nbytes ensures Values(h, r.dst, r.nbytes)[i] == Values(file, r.offset, r.nbytes)[i] {
      assert h(r.dst + i) == file(r.offset + i);
    }
  }

  lemma AlignedWindow(offset: nat, nbytes: nat, g: nat)
    requires Grain(g) && Aligned(offset, g) && Aligned(nbytes, g) && 0 < nbytes <= CHUNK
    ensures Pad(offset, g) == 0 && AlignDown(offset, g) == offset && PaddedSize(offset, nbytes, g) == nbytes
  {
    assert Pad(offset, g) == 0 && AlignDown(offset, g) == offset by {
      AlignedIsFixed(offset, g);
    }
    assert PaddedSize(offset, nbytes, g) == AlignUp(nbytes, g) by {
      SizeIs(offset, nbytes, g);
    }
    assert AlignUp(nbytes, g) == nbytes by {
      AlignedIsFixed(nbytes, g);
    }
  }

  lemma SliceInside(p: Placed, e: nat, n: nat)
    requires p.begin <= p.part.offset && At(p.part, n) <= p.begin + p.span && e < n
    ensures At(p.part, e) >= p.begin && SliceAt(p, e) == PlaceOf(p, At(p.part, e))
    ensures SliceAt(p, e) + p.part.nbytes <= p.off + p.span
  {
    Monotone(e, n, p.part.nbytes);
  }

  lemma JobInside(j: Job, ps: seq<Placed>, n: nat)
    requires Stacked(ps, n) && Lies(j, ps, n)
    ensures JobFrom(j, ps) >= ps[j.q].begin && JobAt(j, ps) == PlaceOf(ps[j.q], JobFrom(j, ps))
    ensures ps[j.q].off <= JobAt(j, ps) && JobAt(j, ps) + JobLength(j, ps) <= ps[j.q].off + ps[j.q].span
  {
    if j.Copy? {
      SliceInside(ps[j.q], j.expert, n);
    }
  }

  lemma {:induction false} JobsHomed(jobs: seq<Job>, ps: seq<Placed>, n: nat)
    requires Planned(jobs, ps, n)
    ensures Homed(JobOps(jobs, ps, n), HomeOf(ps))
  {
    var ops := JobOps(jobs, ps, n);
    forall i, d: nat | 0 <= i < |ops| && Within(ops[i], d)
      ensures ops[i].bytes[d - ops[i].at] == HomeOf(ps)(d)
    {
      assert jobs[i] in jobs;
      JobInside(jobs[i], ps, n);
      HomeIn(ps, n, jobs[i].q, d);
    }
  }

  /** However the reads and the copies interleave. */
  lemma JobsSettle(jobs: seq<Job>, ps: seq<Placed>, n: nat, mem: nat -> Byte, ws: seq<Write>, d: nat)
    requires Planned(jobs, ps, n) && Executes(ws, JobOps(jobs, ps, n))
    ensures Apply(mem, ws)(d) == if Covered(JobOps(jobs, ps, n), d) then HomeAt(ps, d) else mem(d)
  {
    JobsHomed(jobs, ps, n);
    AnyOrder(mem, ws, JobOps(jobs, ps, n), HomeOf(ps), d);
  }

  lemma PlaceCovered(jobs: seq<Job>, ps: seq<Placed>, n: nat, q: nat, x: nat)
    requires Planned(jobs, ps, n) && q < |ps| && ByteCovered(jobs, ps, q, x)
    ensures x >= ps[q].begin && Covered(JobOps(jobs, ps, n), PlaceOf(ps[q], x))
    ensures PlaceOf(ps[q], x) < ps[q].off + ps[q].span
  {
    var j :| j in jobs && Reaches(j, ps, q, x);
    JobInside(j, ps, n);
    var i :| 0 <= i < |jobs| && jobs[i] == j;
    assert Within(JobOps(jobs, ps, n)[i], PlaceOf(ps[q], x));
  }

  /** However the reads and the copies interleave, byte by byte: every slice that is not in VRAM ends up as the file has
      it. */
  lemma {:induction false} Staged(jobs: seq<Job>, ps: seq<Placed>, n: nat, inVram: seq<bool>,
               mem: nat -> Byte, ws: seq<Write>, q: nat, e: nat, k: nat)
    requires Planned(jobs, ps, n) && q < |ps| && ProvidedTo(jobs, ps, q, n, inVram)
    requires Executes(ws, JobOps(jobs, ps, n))
    requires e < n && !Skipped(inVram, e) && k < ps[q].part.nbytes
    ensures Apply(mem, ws)(SliceAt(ps[q], e) + k) == ps[q].file(At(ps[q].part, e) + k)
  {
    SliceCovered(jobs, ps, n, inVram, q, e, k);
    SettledTo(jobs, ps, n, mem, ws, SliceAt(ps[q], e) + k, ps[q].file(At(ps[q].part, e) + k));
  }

  lemma {:induction false} SettledTo(jobs: seq<Job>, ps: seq<Placed>, n: nat,
               mem: nat -> Byte, ws: seq<Write>, d: nat, value: Byte)
    requires Planned(jobs, ps, n) && Executes(ws, JobOps(jobs, ps, n))
    requires Covered(JobOps(jobs, ps, n), d) && HomeAt(ps, d) == value
    ensures Apply(mem, ws)(d) == value
  {
    JobsSettle(jobs, ps, n, mem, ws, d);
  }

  lemma SliceCovered(jobs: seq<Job>, ps: seq<Placed>, n: nat, inVram: seq<bool>, q: nat, e: nat, k: nat)
    requires Planned(jobs, ps, n) && q < |ps| && ProvidedTo(jobs, ps, q, n, inVram)
    requires e < n && !Skipped(inVram, e) && k < ps[q].part.nbytes
    ensures Covered(JobOps(jobs, ps, n), SliceAt(ps[q], e) + k)
    ensures HomeAt(ps, SliceAt(ps[q], e) + k) == ps[q].file(At(ps[q].part, e) + k)
  {
    var x := At(ps[q].part, e) + k;
    assert Provided(jobs, ps, q, e);
    assert ByteCovered(jobs, ps, q, x);
    SliceInside(ps[q], e, n);
    PlaceCovered(jobs, ps, n, q, x);
    HomeIn(ps, n, q, PlaceOf(ps[q], x));
  }

  predicate InStack(ps: seq<Placed>, d: nat) {
    exists q :: 0 <= q < |ps| && ps[q].off <= d < ps[q].off + ps[q].span
  }

  /** Nothing is written outside the parts' stretches. */
  lemma {:induction false} NothingElse(jobs: seq<Job>, ps: seq<Placed>, n: nat, mem: nat -> Byte, ws: seq<Write>,
          d: nat)
    requires Planned(jobs, ps, n) && Executes(ws, JobOps(jobs, ps, n)) && !InStack(ps, d)
    ensures Apply(mem, ws)(d) == mem(d)
  {
    JobsSettle(jobs, ps, n, mem, ws, d);
    if Covered(JobOps(jobs, ps, n), d) {
      var i :| 0 <= i < |jobs| && Within(JobOps(jobs, ps, n)[i], d);
      assert jobs[i] in jobs;
      JobInside(jobs[i], ps, n);
    }
  }

  /** Two executions of the same plan agree everywhere. */
  lemma OrderFree(jobs: seq<Job>, ps: seq<Placed>, n: nat, mem: nat -> Byte,
                  one: seq<Write>, other: seq<Write>, d: nat)
    requires Planned(jobs, ps, n) && Executes(one, JobOps(jobs, ps, n)) && Executes(other, JobOps(jobs, ps, n))
    ensures Apply(mem, one)(d) == Apply(mem, other)(d)
  {
    JobsSettle(jobs, ps, n, mem, one, d);
    JobsSettle(jobs, ps, n, mem, other, d);
  }
}
