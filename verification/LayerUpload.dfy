/**
 * From the staging to the device: for every part the runs of experts that were staged are
 * uploaded, then the slices the VRAM tier holds are copied on the device, and the bytes
 * behind the last part are zero.
 */
module LayerUpload {
  import opened Arithmetic
  import D = DioLayout
  import O = Overlay
  import R = ReadRuns

  type Byte = O.Byte

  const TAIL := 8192

  /** A part's slices: from `src` on in the staging, `slice` bytes each. */
  datatype Part = Part(src: nat, slice: nat)

  /** What the VRAM tier holds of an expert: one slice for each part, in the file's layout once copied. */
  datatype Resident = Resident(expert: nat, parts: seq<seq<Byte>>)

  // ---------------------------------------------------------------- bytes

  function Put(s: seq<Byte>, at: nat, bytes: seq<Byte>): (r: seq<Byte>)
    requires at + |bytes| <= |s|
    ensures |r| == |s|
  {
    s[..at] + bytes + s[at + |bytes|..]
  }

  lemma PutInside(s: seq<Byte>, at: nat, bytes: seq<Byte>, lo: nat, hi: nat)
    requires at + |bytes| <= |s| && lo <= hi <= |bytes|
    ensures Put(s, at, bytes)[at + lo..at + hi] == bytes[lo..hi]
  {
  }

  lemma PutOutside(s: seq<Byte>, at: nat, bytes: seq<Byte>, lo: nat, hi: nat)
    requires at + |bytes| <= |s| && lo <= hi <= |s| && (hi <= at || at + |bytes| <= lo)
    ensures Put(s, at, bytes)[lo..hi] == s[lo..hi]
  {
  }

  method CopyBytes(a: array<Byte>, at: nat, bytes: seq<Byte>)
    requires at + |bytes| <= a.Length
    modifies a
    ensures a[..] == Put(old(a[..]), at, bytes)
  {
    for i := 0 to |bytes|
      invariant a[..at] == old(a[..at]) && a[at + i..] == old(a[at + i..])
      invariant a[at..at + i] == bytes[..i]
    {
      a[at + i] := bytes[i];
    }
    assert a[..] == a[..at] + a[at..at + |bytes|] + a[at + |bytes|..];
  }

  lemma SubSlice(s: seq<Byte>, t: seq<Byte>, a: nat, b: nat, c: nat, lo: nat, hi: nat)
    requires a <= b <= |s| && c + (b - a) <= |t| && s[a..b] == t[c..c + (b - a)] && a <= lo <= hi <= b
    ensures s[lo..hi] == t[c + (lo - a)..c + (hi - a)]
  {
    forall k | lo <= k < hi ensures s[k] == t[c + (k - a)] {
      assert s[a..b][k - a] == t[c..c + (b - a)][k - a];
    }
  }

  lemma SameOutside(s: seq<Byte>, t: seq<Byte>, lo: nat, hi: nat, a: nat, b: nat)
    requires |s| == |t| && lo <= hi <= |s| && s[..lo] == t[..lo] && s[hi..] == t[hi..]
    requires a <= b <= |s| && (b <= lo || hi <= a)
    ensures s[a..b] == t[a..b]
  {
    forall k | a <= k < b ensures s[k] == t[k] {
      if b <= lo {
        assert s[..lo][k] == t[..lo][k];
      } else {
        assert s[hi..][k - hi] == t[hi..][k - hi];
      }
    }
  }

  // ---------------------------------------------------------------- slots

  function Slot(base: nat, size: nat, e: nat): nat {
    base + e * size
  }

  lemma SlotOrder(base: nat, size: nat, e: nat, f: nat)
    requires e <= f
    ensures Slot(base, size, e) <= Slot(base, size, f)
    ensures e < f ==> Slot(base, size, e) + size <= Slot(base, size, f)
  {
    Monotone(e, f, size);
  }

  /** The distance between two slots does not depend on where the first one is. */
  lemma SlotShift(base: nat, other: nat, size: nat, e: nat, f: nat)
    ensures Slot(base, size, f) - Slot(base, size, e) == Slot(other, size, f) - Slot(other, size, e)
  {
  }

  /** Slot `e` holds the wanted bytes. */
  predicate SlotIs(s: seq<Byte>, base: nat, size: nat, e: nat, want: nat -> seq<Byte>) {
    && Slot(base, size, e) + size <= |s|
    && s[Slot(base, size, e)..Slot(base, size, e) + size] == want(e)
  }

  /** Slots `[0, m)` hold the wanted bytes, except the skipped ones. */
  predicate Filled(s: seq<Byte>, base: nat, size: nat, m: nat, inVram: seq<bool>, want: nat -> seq<Byte>) {
    forall e :: 0 <= e < m && !R.Skipped(inVram, e) ==> SlotIs(s, base, size, e, want)
  }

  /** The part's own stretch is all that changed. */
  predicate OnlyPart(s: seq<Byte>, t: seq<Byte>, base: nat, size: nat, n: nat) {
    && |s| == |t| && Slot(base, size, n) <= |s|
    && s[..base] == t[..base] && s[Slot(base, size, n)..] == t[Slot(base, size, n)..]
  }

  lemma SlotStays(s: seq<Byte>, t: seq<Byte>, base: nat, size: nat, e: nat, lo: nat, hi: nat, want: nat -> seq<Byte>)
    requires SlotIs(s, base, size, e, want) && |s| == |t| && lo <= hi <= |s| && s[..lo] == t[..lo] && s[hi..] == t[hi..]
    requires Slot(base, size, e) + size <= lo || hi <= Slot(base, size, e)
    ensures SlotIs(t, base, size, e, want)
  {
    SameOutside(s, t, lo, hi, Slot(base, size, e), Slot(base, size, e) + size);
  }

  /** One part: runs of staged experts, each as one copy. */
  method UploadPart(device: array<Byte>, staging: seq<Byte>, p: Part, dev: nat, n: nat, inVram: seq<bool>,
                    ghost want: nat -> seq<Byte>)
    requires Filled(staging, p.src, p.slice, n, inVram, want) && Slot(p.src, p.slice, n) <= |staging|
    requires Slot(dev, p.slice, n) <= device.Length
    modifies device
    ensures Filled(device[..], dev, p.slice, n, inVram, want)
    ensures OnlyPart(old(device[..]), device[..], dev, p.slice, n)
  {
    var e := 0;
    var size := p.slice;
    SlotOrder(dev, size, 0, n);
    while e < n
      invariant 0 <= e <= n
      invariant Filled(device[..], dev, size, e, inVram, want)
      invariant OnlyPart(old(device[..]), device[..], dev, size, n)
    {
      if R.Skipped(inVram, e) {
        e := e + 1;
        continue;
      }
      var e2 := e + 1;
      while e2 < n && !R.Skipped(inVram, e2)
        invariant e < e2 <= n
      {
        e2 := e2 + 1;
      }
      ghost var before := device[..];
      RunFits(p.src, dev, size, n, e, e2);
      CopyBytes(device, Slot(dev, size, e), staging[Slot(p.src, size, e)..Slot(p.src, size, e2)]);
      RunUploaded(before, device[..], staging, p.src, dev, size, n, e, e2, inVram, want);
      OnlyPartTwice(old(device[..]), before, device[..], dev, size, n);
      e := e2;
    }
  }

  lemma RunFits(src: nat, dev: nat, size: nat, n: nat, e: nat, e2: nat)
    requires e <= e2 <= n
    ensures Slot(src, size, e) <= Slot(src, size, e2) <= Slot(src, size, n)
    ensures Slot(dev, size, e) + (Slot(src, size, e2) - Slot(src, size, e)) == Slot(dev, size, e2) <= Slot(dev, size, n)
    ensures dev <= Slot(dev, size, e)
  {
    SlotOrder(src, size, e, e2);
    SlotOrder(src, size, e2, n);
    SlotOrder(dev, size, e2, n);
    SlotOrder(dev, size, 0, e);
    SlotShift(src, dev, size, e, e2);
  }

  lemma OnlyPartTwice(s: seq<Byte>, t: seq<Byte>, u: seq<Byte>, base: nat, size: nat, n: nat)
    requires OnlyPart(s, t, base, size, n) && OnlyPart(t, u, base, size, n)
    ensures OnlyPart(s, u, base, size, n)
  {
  }

  lemma RunUploaded(s: seq<Byte>, t: seq<Byte>, staging: seq<Byte>, src: nat, dev: nat, size: nat, n: nat,
                    e: nat, e2: nat, inVram: seq<bool>, want: nat -> seq<Byte>)
    requires e < e2 <= n && Slot(dev, size, n) <= |s| && Slot(src, size, n) <= |staging|
    requires Slot(src, size, e) <= Slot(src, size, e2) <= Slot(src, size, n)
    requires Slot(dev, size, e) + (Slot(src, size, e2) - Slot(src, size, e)) == Slot(dev, size, e2) <= Slot(dev, size,
        n)
    requires dev <= Slot(dev, size, e)
    requires Filled(staging, src, size, n, inVram, want) && Filled(s, dev, size, e, inVram, want)
    requires t == Put(s, Slot(dev, size, e), staging[Slot(src, size, e)..Slot(src, size, e2)])
    ensures Filled(t, dev, size, e2, inVram, want) && OnlyPart(s, t, dev, size, n)
  {
    var at, bytes := Slot(dev, size, e), staging[Slot(src, size, e)..Slot(src, size, e2)];
    PutInside(s, at, bytes, 0, |bytes|);
    assert t[..at] == s[..at] && t[at + |bytes|..] == s[at + |bytes|..];
    forall x | 0 <= x < e2 && !R.Skipped(inVram, x) ensures SlotIs(t, dev, size, x, want) {
      if x < e {
        SlotOrder(dev, size, x, e);
        SlotStays(s, t, dev, size, x, at, at + |bytes|, want);
      } else {
        assert SlotIs(staging, src, size, x, want);
        SlotUploaded(t, staging, src, dev, size, e, e2, x, want);
      }
    }
    PutOutside(s, at, bytes, 0, dev);
    PutOutside(s, at, bytes, Slot(dev, size, n), |s|);
  }

  lemma SlotUploaded(t: seq<Byte>, staging: seq<Byte>, src: nat, dev: nat, size: nat, e: nat, e2: nat, x: nat,
                     want: nat -> seq<Byte>)
    requires e <= x < e2 && SlotIs(staging, src, size, x, want)
    requires Slot(src, size, e) <= Slot(src, size, e2) <= |staging|
    requires Slot(dev, size, e2) <= |t|
        && Slot(dev, size, e) + (Slot(src, size, e2) - Slot(src, size, e)) == Slot(dev, size, e2)
    requires t[Slot(dev, size, e)..Slot(dev, size, e2)] == staging[Slot(src, size, e)..Slot(src, size, e2)]
    ensures SlotIs(t, dev, size, x, want)
  {
    SlotOrder(dev, size, e, x);
    SlotOrder(dev, size, x, e2);
    SlotShift(dev, src, size, e, x);
    SubSlice(t, staging, Slot(dev, size, e), Slot(dev, size, e2), Slot(src, size, e),
             Slot(dev, size, x), Slot(dev, size, x) + size);
  }

  // ---------------------------------------------------------------- layers

  /** What every slice of the layer is in the file. */
  datatype Layer = Layer(n: nat, parts: seq<Part>, want: (nat, nat) -> seq<Byte>)

  function WantOf(l: Layer, q: nat): nat -> seq<Byte> {
    (e: nat) => l.want(q, e)
  }

  /** Where part `q` begins on the device, and with `q` the number of parts, where the last one ends. */
  function Dev(l: Layer, q: nat): nat
    requires q <= |l.parts|
  {
    if q == 0 then 0 else Slot(Dev(l, q - 1), l.parts[q - 1].slice, l.n)
  }

  lemma {:induction false} DevOrder(l: Layer, q: nat, r: nat)
    requires q <= r <= |l.parts|
    ensures Dev(l, q) <= Dev(l, r)
  {
    if q < r {
      DevOrder(l, q, r - 1);
      SlotOrder(Dev(l, r - 1), l.parts[r - 1].slice, 0, l.n);
    }
  }

  predicate StagedLayer(l: Layer, staging: seq<Byte>, inVram: seq<bool>) {
    forall q :: 0 <= q < |l.parts| ==>
      && Slot(l.parts[q].src, l.parts[q].slice, l.n) <= |staging|
      && Filled(staging, l.parts[q].src, l.parts[q].slice, l.n, inVram, WantOf(l, q))
  }

  predicate EntryOf(l: Layer, v: Resident) {
    && v.expert < l.n && |v.parts| == |l.parts|
    && forall q :: 0 <= q < |l.parts| ==> v.parts[q] == l.want(q, v.expert) && |v.parts[q]| == l.parts[q].slice
  }

  /** What the VRAM tier lists: its experts' own bytes, of the file's sizes, and an entry for every expert marked as
      left out. */
  predicate Listed(l: Layer, vres: seq<Resident>, inVram: seq<bool>) {
    && (forall i :: 0 <= i < |vres| ==> EntryOf(l, vres[i]))
    && (forall e :: 0 <= e < l.n && R.Skipped(inVram, e) ==> exists v :: v in vres && v.expert == e)
  }

  predicate PartFilled(l: Layer, s: seq<Byte>, q: nat, inVram: seq<bool>)
    requires q < |l.parts|
  {
    Filled(s, Dev(l, q), l.parts[q].slice, l.n, inVram, WantOf(l, q))
  }

  predicate ZeroTail(s: seq<Byte>, from: nat) {
    from + TAIL <= |s| && forall k :: from <= k < from + TAIL ==> s[k] == 0
  }

  function Zeros(n: nat): (z: seq<Byte>)
    ensures |z| == n && forall i :: 0 <= i < n ==> z[i] == 0
  {
    seq(n, i => 0)
  }

  lemma PartStays(l: Layer, s: seq<Byte>, t: seq<Byte>, q: nat, inVram: seq<bool>, lo: nat)
    requires q < |l.parts| && PartFilled(l, s, q, inVram)
    requires |s| == |t| && Dev(l, q + 1) <= lo <= |s| && s[..lo] == t[..lo]
    ensures PartFilled(l, t, q, inVram)
  {
    var base, size := Dev(l, q), l.parts[q].slice;
    forall e | 0 <= e < l.n && !R.Skipped(inVram, e) ensures SlotIs(t, base, size, e, WantOf(l, q)) {
      assert SlotIs(s, base, size, e, WantOf(l, q));
      SlotOrder(base, size, e, l.n);
      assert Slot(base, size, e) + size <= Dev(l, q + 1);
      assert s[|s|..] == t[|s|..];
      SlotStays(s, t, base, size, e, lo, |s|, WantOf(l, q));
    }
  }

  /** One part: the bytes behind it are zeroed first, then its runs are uploaded. */
  method ClearAndUpload(l: Layer, device: array<Byte>, staging: seq<Byte>, q: nat, d: nat, inVram: seq<bool>)
    requires q < |l.parts| && d == Dev(l, q) && Slot(d, l.parts[q].slice, l.n) + TAIL <= device.Length
    requires StagedLayer(l, staging, inVram)
    modifies device
    ensures PartFilled(l, device[..], q, inVram) && ZeroTail(device[..], Slot(d, l.parts[q].slice, l.n))
    ensures d <= device.Length && device[..d] == old(device[..d])
  {
    var end := Slot(d, l.parts[q].slice, l.n);
    SlotOrder(d, l.parts[q].slice, 0, l.n);
    ghost var before := device[..];
    CopyBytes(device, end, Zeros(TAIL));
    PutInside(before, end, Zeros(TAIL), 0, TAIL);
    ghost var cleared := device[..];
    assert cleared[..d] == before[..d];
    UploadPart(device, staging, l.parts[q], d, l.n, inVram, WantOf(l, q));
    TailStays(cleared, device[..], end);
  }

  /** The uploads of all parts; the zeroed bytes behind a part are overwritten by the next part, if there is one. False
      when the device's buffer is too small. */
  method UploadLayer(l: Layer, device: array<Byte>, staging: seq<Byte>, inVram: seq<bool>) returns (ok: bool)
    requires l.n > 0 && StagedLayer(l, staging, inVram)
    modifies device
    ensures ok <==> l.parts == [] || Dev(l, |l.parts|) + TAIL <= device.Length
    ensures ok ==> forall q :: 0 <= q < |l.parts| ==> PartFilled(l, device[..], q, inVram)
    ensures ok && l.parts != [] ==> ZeroTail(device[..], Dev(l, |l.parts|))
  {
    var d := 0;
    for q := 0 to |l.parts|
      invariant d == Dev(l, q)
      invariant q > 0 ==> d + TAIL <= device.Length && ZeroTail(device[..], d)
      invariant forall r :: 0 <= r < q ==> PartFilled(l, device[..], r, inVram)
    {
      var end := Slot(d, l.parts[q].slice, l.n);
      DevOrder(l, q + 1, |l.parts|);
      if end + TAIL > device.Length {
        return false;
      }
      ghost var before := device[..];
      ClearAndUpload(l, device, staging, q, d, inVram);
      forall r | 0 <= r < q ensures PartFilled(l, device[..], r, inVram) {
        DevOrder(l, r + 1, q);
        PartStays(l, before, device[..], r, inVram, d);
      }
      d := end;
    }
    return true;
  }

  lemma TailStays(s: seq<Byte>, t: seq<Byte>, end: nat)
    requires |s| == |t| && end + TAIL <= |s| && s[end..] == t[end..] && s[end..end + TAIL] == Zeros(TAIL)[0..TAIL]
    ensures ZeroTail(t, end)
  {
    forall k | end <= k < end + TAIL ensures t[k] == 0 {
      assert t[end..][k - end] == s[end..][k - end];
      assert s[end..end + TAIL][k - end] == Zeros(TAIL)[0..TAIL][k - end];
    }
  }

  /** Parts before `q` as filled as `has` says, the others as `had` says. */
  predicate PartsFilled(l: Layer, s: seq<Byte>, q: nat, had: seq<bool>, has: seq<bool>) {
    && (forall r :: 0 <= r < q && r < |l.parts| ==> PartFilled(l, s, r, has))
    && (forall r :: q <= r < |l.parts| ==> PartFilled(l, s, r, had))
  }

  /** One expert's slices, copied on the device into their slots. */
  method CopyResident(l: Layer, device: array<Byte>, v: Resident, ghost had: seq<bool>, ghost has: seq<bool>)
    requires EntryOf(l, v) && Dev(l, |l.parts|) + TAIL <= device.Length
    requires PartsFilled(l, device[..], 0, had, has) && ZeroTail(device[..], Dev(l, |l.parts|))
    requires |had| == |has| && forall x :: 0 <= x < |has| && !has[x] ==> !had[x] || x == v.expert
    requires forall x :: 0 <= x < |has| && !had[x] ==> !has[x]
    modifies device
    ensures PartsFilled(l, device[..], |l.parts|, had, has) && ZeroTail(device[..], Dev(l, |l.parts|))
  {
    for q := 0 to |l.parts|
      invariant PartsFilled(l, device[..], q, had, has)
      invariant ZeroTail(device[..], Dev(l, |l.parts|))
    {
      ghost var before := device[..];
      SliceFits(l, q, v.expert);
      CopyBytes(device, Slot(Dev(l, q), l.parts[q].slice, v.expert), v.parts[q]);
      forall r | 0 <= r < |l.parts|
        ensures (r <= q ==> PartFilled(l, device[..], r, has)) && (r > q ==> PartFilled(l, device[..], r, had))
      {
        if r < q {
          SliceCopied(l, before, device[..], q, v.expert, r, has, has);
        } else if r == q {
          SliceCopied(l, before, device[..], q, v.expert, r, had, has);
        } else {
          SliceCopied(l, before, device[..], q, v.expert, r, had, had);
        }
      }
      TailBehind(l, before, device[..], q, v.expert);
    }
  }

  /** Experts marked in `left` are still to be copied: none that came before entry `i`. */
  predicate ToCopy(left: seq<bool>, inVram: seq<bool>, vres: seq<Resident>, i: nat) {
    && |left| == |inVram| && i <= |vres|
    && forall e :: 0 <= e < |left| && left[e] ==> inVram[e] && NotIn(vres, i, e)
  }

  predicate NotIn(vres: seq<Resident>, i: nat, e: nat) {
    forall k :: 0 <= k < i && k < |vres| ==> vres[k].expert != e
  }

  /** The device's own copies, in whatever order the tier lists them. */
  method CopyFromVram(l: Layer, device: array<Byte>, vres: seq<Resident>, inVram: seq<bool>)
    requires Listed(l, vres, inVram) && Dev(l, |l.parts|) + TAIL <= device.Length
    requires PartsFilled(l, device[..], 0, inVram, inVram) && ZeroTail(device[..], Dev(l, |l.parts|))
    modifies device
    ensures forall q :: 0 <= q < |l.parts| ==> PartFilled(l, device[..], q, [])
    ensures ZeroTail(device[..], Dev(l, |l.parts|))
  {
    ghost var left := inVram;
    assert ToCopy(left, inVram, vres, 0);
    for i := 0 to |vres|
      invariant ToCopy(left, inVram, vres, i)
      invariant PartsFilled(l, device[..], 0, left, left) && ZeroTail(device[..], Dev(l, |l.parts|))
    {
      var v := vres[i];
      ghost var now := ToCopyNext(left, inVram, vres, i);
      CopyResident(l, device, v, left, now);
      left := now;
    }
    forall q | 0 <= q < |l.parts| ensures PartFilled(l, device[..], q, []) {
      NoneLeft(l, device[..], q, vres, inVram, left);
    }
  }

  lemma NoneLeft(l: Layer, s: seq<Byte>, q: nat, vres: seq<Resident>, inVram: seq<bool>, left: seq<bool>)
    requires q < |l.parts| && PartFilled(l, s, q, left) && Listed(l, vres, inVram)
    requires ToCopy(left, inVram, vres, |vres|)
    ensures PartFilled(l, s, q, [])
  {
    forall e | 0 <= e < l.n && R.Skipped(inVram, e) ensures !R.Skipped(left, e) {
      var v :| v in vres && v.expert == e;
      var k :| 0 <= k < |vres| && vres[k] == v;
      assert !NotIn(vres, |vres|, e);
    }
    forall e | 0 <= e < l.n ensures SlotIs(s, Dev(l, q), l.parts[q].slice, e, WantOf(l, q)) {
      assert !R.Skipped(left, e);
    }
  }

  lemma ToCopyNext(left: seq<bool>, inVram: seq<bool>, vres: seq<Resident>, i: nat) returns (now: seq<bool>)
    requires ToCopy(left, inVram, vres, i) && i < |vres|
    ensures ToCopy(now, inVram, vres, i + 1)
    ensures forall x :: 0 <= x < |now| && !now[x] ==> !left[x] || x == vres[i].expert
    ensures forall x :: 0 <= x < |now| && !left[x] ==> !now[x]
  {
    var e := vres[i].expert;
    now := if e < |left| then left[e := false] else left;
    forall x | 0 <= x < |now| && now[x] ensures inVram[x] && NotIn(vres, i + 1, x) {
      assert left[x] && NotIn(vres, i, x);
    }
  }

  lemma SliceFits(l: Layer, q: nat, e: nat)
    requires q < |l.parts| && e < l.n
    ensures Dev(l, q) <= Slot(Dev(l, q), l.parts[q].slice, e)
    ensures Slot(Dev(l, q), l.parts[q].slice, e) + l.parts[q].slice <= Dev(l, q + 1) <= Dev(l, |l.parts|)
  {
    SlotOrder(Dev(l, q), l.parts[q].slice, 0, e);
    SlotOrder(Dev(l, q), l.parts[q].slice, e, l.n);
    DevOrder(l, q + 1, |l.parts|);
  }

  /** One slice copied into its slot: that slot is right, the others are as they were. */
  lemma SliceCopied(l: Layer, s: seq<Byte>, t: seq<Byte>, q: nat, e: nat, r: nat, had: seq<bool>, has: seq<bool>)
    requires q < |l.parts| && r < |l.parts| && e < l.n && |l.want(q, e)| == l.parts[q].slice
    requires Dev(l, |l.parts|) <= |s| && PartFilled(l, s, r, had)
    requires Slot(Dev(l, q), l.parts[q].slice, e) + l.parts[q].slice <= |s|
    requires t == Put(s, Slot(Dev(l, q), l.parts[q].slice, e), l.want(q, e))
    requires |had| == |has| && forall x :: 0 <= x < |has| && !has[x] ==> !had[x] || (r == q && x == e)
    ensures PartFilled(l, t, r, has)
  {
    var at, size := Slot(Dev(l, q), l.parts[q].slice, e), l.parts[q].slice;
    SliceFits(l, q, e);
    PutInside(s, at, l.want(q, e), 0, size);
    assert t[..at] == s[..at] && t[at + size..] == s[at + size..];
    forall x | 0 <= x < l.n && !R.Skipped(has, x) ensures SlotIs(t, Dev(l, r), l.parts[r].slice, x, WantOf(l, r)) {
      if !(r == q && x == e) {
        assert SlotIs(s, Dev(l, r), l.parts[r].slice, x, WantOf(l, r));
        SlotsApart(l, q, e, r, x);
        SlotStays(s, t, Dev(l, r), l.parts[r].slice, x, at, at + size, WantOf(l, r));
      }
    }
  }

  lemma SlotsApart(l: Layer, q: nat, e: nat, r: nat, x: nat)
    requires q < |l.parts| && r < |l.parts| && e < l.n && x < l.n && !(q == r && e == x)
    ensures var a, b := Slot(Dev(l, q), l.parts[q].slice, e), Slot(Dev(l, r), l.parts[r].slice, x);
            a + l.parts[q].slice <= b || b + l.parts[r].slice <= a
  {
    if q < r {
      PartsApart(l, q, e, r, x);
    } else if r < q {
      PartsApart(l, r, x, q, e);
    } else if e < x {
      SlotOrder(Dev(l, q), l.parts[q].slice, e, x);
    } else {
      SlotOrder(Dev(l, q), l.parts[q].slice, x, e);
    }
  }

  lemma PartsApart(l: Layer, q: nat, e: nat, r: nat, x: nat)
    requires q < r < |l.parts| && e < l.n && x < l.n
    ensures Slot(Dev(l, q), l.parts[q].slice, e) + l.parts[q].slice <= Slot(Dev(l, r), l.parts[r].slice, x)
  {
    DevNext(l, q, r);
    Below(Dev(l, q), l.parts[q].slice, e, l.n, Dev(l, r), l.parts[r].slice, x);
  }

  lemma {:induction false} DevNext(l: Layer, q: nat, r: nat)
    requires q < r <= |l.parts|
    ensures Slot(Dev(l, q), l.parts[q].slice, l.n) <= Dev(l, r)
  {
    if q + 1 < r {
      DevNext(l, q, r - 1);
      SlotOrder(Dev(l, r - 1), l.parts[r - 1].slice, 0, l.n);
    }
  }

  lemma Below(base: nat, size: nat, e: nat, n: nat, next: nat, other: nat, x: nat)
    requires e < n && Slot(base, size, n) <= next
    ensures Slot(base, size, e) + size <= Slot(next, other, x)
  {
    SlotOrder(base, size, e, n);
    SlotOrder(next, other, 0, x);
  }

  lemma TailBehind(l: Layer, s: seq<Byte>, t: seq<Byte>, q: nat, e: nat)
    requires q < |l.parts| && e < l.n && |l.want(q, e)| == l.parts[q].slice
    requires Slot(Dev(l, q), l.parts[q].slice, e) + l.parts[q].slice <= |s|
    requires ZeroTail(s, Dev(l, |l.parts|)) && t == Put(s, Slot(Dev(l, q), l.parts[q].slice, e), l.want(q, e))
    ensures ZeroTail(t, Dev(l, |l.parts|))
  {
    var from := Dev(l, |l.parts|);
    SliceFits(l, q, e);
    forall k | from <= k < from + TAIL ensures t[k] == 0 {
      assert t[k] == s[k];
    }
  }

  /** The whole of it: every expert of the layer, staged or in VRAM, is on the device. */
  method LoadLayer(l: Layer, device: array<Byte>, staging: seq<Byte>, vres: seq<Resident>, inVram: seq<bool>)
    returns (ok: bool)
    requires l.n > 0 && l.parts != [] && StagedLayer(l, staging, inVram) && Listed(l, vres, inVram)
    modifies device
    ensures ok <==> Dev(l, |l.parts|) + TAIL <= device.Length
    ensures ok ==> forall q :: 0 <= q < |l.parts| ==> PartFilled(l, device[..], q, [])
    ensures ok ==> ZeroTail(device[..], Dev(l, |l.parts|))
  {
    ok := UploadLayer(l, device, staging, inVram);
    if ok {
      CopyFromVram(l, device, vres, inVram);
    }
  }

  // ---------------------------------------------------------------- from the reads on

  /** The slices of a part as its file has them. */
  function FileSlices(p: R.Placed): nat -> seq<Byte> {
    (e: nat) => D.Values(p.file, R.At(p.part, e), p.part.nbytes)
  }

  /** What the reads and copies of a plan leave, in whatever order they landed, is what the uploads need. */
  lemma ReadsStage(jobs: seq<R.Job>, ps: seq<R.Placed>, n: nat, inVram: seq<bool>,
                   mem: nat -> Byte, ws: seq<O.Write>, staging: seq<Byte>, q: nat)
    requires R.Planned(jobs, ps, n) && q < |ps| && R.ProvidedTo(jobs, ps, q, n, inVram)
    requires O.Executes(ws, R.JobOps(jobs, ps, n)) && ps[q].off + ps[q].span <= |staging|
    requires forall d :: 0 <= d < |staging| ==> staging[d] == O.Apply(mem, ws)(d)
    ensures var src := ps[q].off + (ps[q].part.offset - ps[q].begin);
            && Slot(src, ps[q].part.nbytes, n) <= |staging|
            && Filled(staging, src, ps[q].part.nbytes, n, inVram, FileSlices(ps[q]))
  {
    var src, size := ps[q].off + (ps[q].part.offset - ps[q].begin), ps[q].part.nbytes;
    forall e | 0 <= e < n && !R.Skipped(inVram, e) ensures SlotIs(staging, src, size, e, FileSlices(ps[q])) {
      R.SliceInside(ps[q], e, n);
      SliceStaged(jobs, ps, n, inVram, mem, ws, staging, q, e);
    }
  }

  lemma SliceStaged(jobs: seq<R.Job>, ps: seq<R.Placed>, n: nat, inVram: seq<bool>,
                    mem: nat -> Byte, ws: seq<O.Write>, staging: seq<Byte>, q: nat, e: nat)
    requires R.Planned(jobs, ps, n) && q < |ps| && R.ProvidedTo(jobs, ps, q, n, inVram)
    requires O.Executes(ws, R.JobOps(jobs, ps, n))
    requires forall d :: 0 <= d < |staging| ==> staging[d] == O.Apply(mem, ws)(d)
    requires e < n && !R.Skipped(inVram, e) && R.SliceAt(ps[q], e) + ps[q].part.nbytes <= |staging|
    ensures SlotIs(staging, ps[q].off + (ps[q].part.offset - ps[q].begin), ps[q].part.nbytes, e, FileSlices(ps[q]))
  {
    var at, size := R.SliceAt(ps[q], e), ps[q].part.nbytes;
    var want := FileSlices(ps[q])(e);
    forall k | 0 <= k < size ensures staging[at..at + size][k] == want[k] {
      R.Staged(jobs, ps, n, inVram, mem, ws, q, e, k);
    }
  }
}
