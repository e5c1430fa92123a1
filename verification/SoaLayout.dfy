/**
 * The device keeps some quantised types with all codes first and all scales after them;
 * the file keeps blocks, each a two-byte scale and its codes. A slot that comes back from
 * the device is put into the file's order in place.
 */
module SoaLayout {

  type Byte = bv8

  /** The size of `n` blocks of `b` bytes, one block at a time. */
  function Total(n: nat, b: nat): nat {
    if n == 0 then 0 else Total(n - 1, b) + b
  }

  lemma {:induction false} TotalIs(n: nat, b: nat)
    ensures Total(n, b) == n * b
  {
    if n > 0 {
      TotalIs(n - 1, b);
      assert n * b == (n - 1) * b + b;
    }
  }

  lemma {:induction false} TotalOrder(j: nat, n: nat, b: nat)
    requires j < n
    ensures Total(j, b) + b <= Total(n, b)
  {
    if j + 1 < n {
      TotalOrder(j, n - 1, b);
    }
  }

  lemma {:induction false} Split(n: nat, c: nat)
    ensures Total(n, c + 2) == Total(n, c) + 2 * n
  {
    if n > 0 {
      Split(n - 1, c);
    }
  }

  /** The number of whole blocks in a part, as the code divides. */
  function Whole(bytes: nat, c: nat): (n: nat)
    ensures Total(n, c + 2) <= bytes < Total(n, c + 2) + (c + 2)
  {
    TotalIs(bytes / (c + 2), c + 2);
    bytes / (c + 2)
  }

  /** Block `j` of the file's `f` is scale `j` and codes `j` of the device's `d`, where `n` blocks of two bytes of scale
      and `c` bytes of codes are laid out. */
  predicate SameBlock(f: seq<Byte>, d: seq<Byte>, n: nat, c: nat, j: nat) {
    && j < n
    && Total(j, c + 2) + 2 + c <= |f| && Total(n, c) + 2 * j + 2 <= |d| && Total(j, c) + c <= |d|
    && f[Total(j, c + 2)..Total(j, c + 2) + 2] == d[Total(n, c) + 2 * j..Total(n, c) + 2 * j + 2]
    && f[Total(j, c + 2) + 2..Total(j, c + 2) + 2 + c] == d[Total(j, c)..Total(j, c) + c]
  }

  predicate SameUpTo(f: seq<Byte>, d: seq<Byte>, n: nat, c: nat, m: nat) {
    forall j :: 0 <= j < m ==> SameBlock(f, d, n, c, j)
  }

  /** The same bytes in the two orders; past the last whole block there is nothing to reorder. */
  predicate Reordered(f: seq<Byte>, d: seq<Byte>, c: nat) {
    var n := Whole(|f|, c);
    && |f| == |d|
    && SameUpTo(f, d, n, c, n)
    && f[Total(n, c + 2)..] == d[Total(n, c + 2)..]
  }

  // ---------------------------------------------------------------- one-to-one

  /** Every position is a byte of some block. */
  lemma {:induction false} InBlock(k: nat, n: nat, b: nat) returns (j: nat, i: nat)
    requires k < Total(n, b)
    ensures j < n && i < b && k == Total(j, b) + i
  {
    if k >= Total(n - 1, b) {
      j, i := n - 1, k - Total(n - 1, b);
    } else {
      j, i := InBlock(k, n - 1, b);
    }
  }

  lemma SameAt(f: seq<Byte>, d: seq<Byte>, x: nat, y: nat, len: nat, i: nat)
    requires x + len <= |f| && y + len <= |d| && f[x..x + len] == d[y..y + len] && i < len
    ensures f[x + i] == d[y + i]
  {
    assert f[x..x + len][i] == d[y..y + len][i];
  }

  lemma SameFileByte(f: seq<Byte>, g: seq<Byte>, d: seq<Byte>, n: nat, c: nat, k: nat)
    requires k < Total(n, c + 2) && k < |f| == |g|
    requires SameUpTo(f, d, n, c, n) && SameUpTo(g, d, n, c, n)
    ensures f[k] == g[k]
  {
    var j, i := InBlock(k, n, c + 2);
    assert SameBlock(f, d, n, c, j) && SameBlock(g, d, n, c, j);
    BlockByte(f, d, Total(j, c + 2), Total(n, c) + 2 * j, Total(j, c), c, i);
    BlockByte(g, d, Total(j, c + 2), Total(n, c) + 2 * j, Total(j, c), c, i);
  }

  /** A block's byte, given where the block, its scale and its codes are. */
  lemma BlockByte(f: seq<Byte>, d: seq<Byte>, at: nat, scale: nat, codes: nat, c: nat, i: nat)
    requires at + 2 + c <= |f| && scale + 2 <= |d| && codes + c <= |d| && i < 2 + c
    requires f[at..at + 2] == d[scale..scale + 2] && f[at + 2..at + 2 + c] == d[codes..codes + c]
    ensures f[at + i] == if i < 2 then d[scale + i] else d[codes + (i - 2)]
  {
    if i < 2 {
      SameAt(f, d, at, scale, 2, i);
    } else {
      SameAt(f, d, at + 2, codes, c, i - 2);
    }
  }

  lemma {:induction false} SameDeviceByte(f: seq<Byte>, d: seq<Byte>, e: seq<Byte>, n: nat, c: nat, k: nat)
    requires k < Total(n, c + 2) && k < |d| == |e|
    requires SameUpTo(f, d, n, c, n) && SameUpTo(f, e, n, c, n)
    ensures d[k] == e[k]
  {
    Split(n, c);
    if k < Total(n, c) {
      var j, i := InBlock(k, n, c);
      SameCode(f, d, e, n, c, j, i);
    } else {
      var j, i := Halved(k - Total(n, c));
      SameScale(f, d, e, n, c, j, i);
    }
  }

  lemma Halved(x: nat) returns (j: nat, i: nat)
    ensures x == 2 * j + i && i < 2
  {
    j, i := x / 2, x % 2;
  }

  lemma {:induction false} SameCode(f: seq<Byte>, d: seq<Byte>, e: seq<Byte>, n: nat, c: nat, j: nat, i: nat)
    requires j < n && i < c && Total(j, c) + i < |d| == |e|
    requires SameUpTo(f, d, n, c, n) && SameUpTo(f, e, n, c, n)
    ensures d[Total(j, c) + i] == e[Total(j, c) + i]
  {
    assert SameBlock(f, d, n, c, j) && SameBlock(f, e, n, c, j);
    SameAt(f, d, Total(j, c + 2) + 2, Total(j, c), c, i);
    SameAt(f, e, Total(j, c + 2) + 2, Total(j, c), c, i);
  }

  lemma {:induction false} SameScale(f: seq<Byte>, d: seq<Byte>, e: seq<Byte>, n: nat, c: nat, j: nat, i: nat)
    requires j < n && i < 2 && Total(n, c) + 2 * j + i < |d| == |e|
    requires SameUpTo(f, d, n, c, n) && SameUpTo(f, e, n, c, n)
    ensures d[Total(n, c) + 2 * j + i] == e[Total(n, c) + 2 * j + i]
  {
    assert SameBlock(f, d, n, c, j) && SameBlock(f, e, n, c, j);
    SameAt(f, d, Total(j, c + 2), Total(n, c) + 2 * j, 2, i);
    SameAt(f, e, Total(j, c + 2), Total(n, c) + 2 * j, 2, i);
  }

  /** The device's bytes determine the file's. */
  lemma FileUnique(f: seq<Byte>, g: seq<Byte>, d: seq<Byte>, c: nat)
    requires Reordered(f, d, c) && Reordered(g, d, c)
    ensures f == g
  {
    var n := Whole(|f|, c);
    forall k | 0 <= k < |f| ensures f[k] == g[k] {
      if k < Total(n, c + 2) {
        SameFileByte(f, g, d, n, c, k);
      } else {
        assert f[Total(n, c + 2)..][k - Total(n, c + 2)] == g[Total(n, c + 2)..][k - Total(n, c + 2)];
      }
    }
  }

  /** And the file's determine the device's: the reordering loses nothing. */
  lemma DeviceUnique(f: seq<Byte>, d: seq<Byte>, e: seq<Byte>, c: nat)
    requires Reordered(f, d, c) && Reordered(f, e, c)
    ensures d == e
  {
    var n := Whole(|f|, c);
    forall k | 0 <= k < |d| ensures d[k] == e[k] {
      if k < Total(n, c + 2) {
        SameDeviceByte(f, d, e, n, c, k);
      } else {
        assert d[Total(n, c + 2)..][k - Total(n, c + 2)] == e[Total(n, c + 2)..][k - Total(n, c + 2)];
      }
    }
  }

  // ---------------------------------------------------------------- in place

  /** One part of a slot: where its payload is, and the bytes of codes in a block. */
  datatype Part = Part(at: nat, bytes: nat, codes: nat, soa: bool)

  predicate Fits(p: Part, length: nat) {
    p.at + p.bytes <= length
  }

  predicate Apart(parts: seq<Part>, length: nat) {
    && (forall q :: 0 <= q < |parts| ==> Fits(parts[q], length))
    && (forall q, r :: 0 <= q < r < |parts| ==> parts[q].at + parts[q].bytes <= parts[r].at)
  }

  function Payload(s: seq<Byte>, p: Part): seq<Byte>
    requires Fits(p, |s|)
  {
    s[p.at..p.at + p.bytes]
  }

  /** Nothing changed outside `[lo, hi)`. */
  predicate SameOutside(s: seq<Byte>, t: seq<Byte>, lo: nat, hi: nat) {
    lo <= hi <= |s| == |t| && s[..lo] == t[..lo] && s[hi..] == t[hi..]
  }

  /** Block `j` has been put at address `at`. */
  predicate BlockPut(s: seq<Byte>, at: nat, d: seq<Byte>, n: nat, c: nat, j: nat) {
    && j < n && at + 2 + c <= |s|
    && Total(n, c) + 2 * j + 2 <= |d| && Total(j, c) + c <= |d|
    && s[at..at + 2] == d[Total(n, c) + 2 * j..Total(n, c) + 2 * j + 2]
    && s[at + 2..at + 2 + c] == d[Total(j, c)..Total(j, c) + c]
  }

  /** One block: its scale, then its codes. */
  method BlockToFile(slot: array<Byte>, at: nat, scratch: seq<Byte>, c: nat, scales: nat, codes: nat)
    requires at + 2 + c <= slot.Length && scales + 2 <= |scratch| && codes + c <= |scratch|
    modifies slot
    ensures slot[..][at..at + 2] == scratch[scales..scales + 2]
    ensures slot[..][at + 2..at + 2 + c] == scratch[codes..codes + c]
    ensures SameOutside(slot[..], old(slot[..]), at, at + 2 + c)
  {
    slot[at] := scratch[scales];
    slot[at + 1] := scratch[scales + 1];
    for i := 0 to c
      invariant slot[at..at + 2] == scratch[scales..scales + 2]
      invariant slot[at + 2..at + 2 + i] == scratch[codes..codes + i]
      invariant slot[..at] == old(slot[..at]) && slot[at + 2 + c..] == old(slot[at + 2 + c..])
    {
      slot[at + 2 + i] := scratch[codes + i];
    }
  }

  /** One part, through a scratch copy. */
  method PartToFile(slot: array<Byte>, p: Part)
    requires Fits(p, slot.Length)
    modifies slot
    ensures Reordered(Payload(slot[..], p), Payload(old(slot[..]), p), p.codes)
    ensures SameOutside(slot[..], old(slot[..]), p.at, p.at + p.bytes)
  {
    var c := p.codes;
    var n := Whole(p.bytes, c);
    var scratch := slot[p.at..p.at + p.bytes];
    ghost var start := slot[..];
    Split(n, c);
    TotalIs(n, c);
    var at, scales, codes := p.at, n * c, 0;
    assert SameUpTo(Payload(slot[..], p), scratch, n, c, 0) && SameOutside(slot[..], start, p.at, at);
    hide SameUpTo, SameOutside;
    for j := 0 to n
      invariant at == p.at + Total(j, c + 2) && Total(j, c + 2) <= Total(n, c + 2)
      invariant scales == Total(n, c) + 2 * j && codes == Total(j, c)
      invariant SameUpTo(Payload(slot[..], p), scratch, n, c, j)
      invariant SameOutside(slot[..], start, p.at, at)
    {
      TotalOrder(j, n, c + 2);
      ghost var before := slot[..];
      NextBlock(slot, p, scratch, n, j, at, scales, codes);
      OutsideMore(start, before, slot[..], p.at, at, at + 2 + c);
      at, scales, codes := at + 2 + c, scales + 2, codes + c;
    }
    TailKept(start, slot[..], p, at);
  }

  method NextBlock(slot: array<Byte>, p: Part, scratch: seq<Byte>, ghost n: nat, ghost j: nat, at: nat, scales: nat,
          codes: nat)
    requires Fits(p, slot.Length) && j < n && |scratch| == p.bytes
    requires at == p.at + Total(j, p.codes + 2) && at + 2 + p.codes <= p.at + p.bytes
        && Total(n, p.codes + 2) <= p.bytes
    requires scales == Total(n, p.codes) + 2 * j && codes == Total(j, p.codes)
    requires SameUpTo(Payload(slot[..], p), scratch, n, p.codes, j)
    modifies slot
    ensures SameUpTo(Payload(slot[..], p), scratch, n, p.codes, j + 1)
    ensures SameOutside(slot[..], old(slot[..]), at, at + 2 + p.codes)
  {
    Split(n, p.codes);
    TotalOrder(j, n, p.codes);
    ghost var before := slot[..];
    BlockToFile(slot, at, scratch, p.codes, scales, codes);
    BlocksKept(before, slot[..], p, scratch, n, j, at);
  }

  lemma BlocksKept(s: seq<Byte>, t: seq<Byte>, p: Part, d: seq<Byte>, n: nat, j: nat, at: nat)
    requires |s| == |t| && Fits(p, |s|) && at == p.at + Total(j, p.codes + 2) && at + 2 + p.codes <= p.at + p.bytes
    requires BlockPut(t, at, d, n, p.codes, j) && SameOutside(t, s, at, at + 2 + p.codes)
    requires SameUpTo(Payload(s, p), d, n, p.codes, j)
    ensures SameUpTo(Payload(t, p), d, n, p.codes, j + 1)
  {
    forall k | 0 <= k < j + 1 ensures SameBlock(Payload(t, p), d, n, p.codes, k) {
      if k < j {
        assert SameBlock(Payload(s, p), d, n, p.codes, k);
        TotalOrder(k, j, p.codes + 2);
        BlockStays(s, t, p, d, n, k, at);
      } else {
        NewBytes(t, p, Total(j, p.codes + 2), p.codes);
      }
    }
  }

  lemma BlockStays(s: seq<Byte>, t: seq<Byte>, p: Part, d: seq<Byte>, n: nat, k: nat, at: nat)
    requires |s| == |t| && Fits(p, |s|) && SameBlock(Payload(s, p), d, n, p.codes, k)
    requires p.at + Total(k, p.codes + 2) + 2 + p.codes <= at <= p.at + p.bytes && s[..at] == t[..at]
    ensures SameBlock(Payload(t, p), d, n, p.codes, k)
  {
    SameBytes(s, t, p, Total(k, p.codes + 2), p.codes, at);
  }

  lemma SameBytes(s: seq<Byte>, t: seq<Byte>, p: Part, x: nat, c: nat, at: nat)
    requires |s| == |t| && Fits(p, |s|) && p.at + x + 2 + c <= at <= p.at + p.bytes && s[..at] == t[..at]
    ensures Payload(s, p)[x..x + 2] == Payload(t, p)[x..x + 2]
    ensures Payload(s, p)[x + 2..x + 2 + c] == Payload(t, p)[x + 2..x + 2 + c]
  {
    Within(s, t, p, x, x + 2, at);
    Within(s, t, p, x + 2, x + 2 + c, at);
  }

  lemma NewBytes(t: seq<Byte>, p: Part, x: nat, c: nat)
    requires Fits(p, |t|) && x + 2 + c <= p.bytes
    ensures Payload(t, p)[x..x + 2] == t[p.at + x..p.at + x + 2]
    ensures Payload(t, p)[x + 2..x + 2 + c] == t[p.at + x + 2..p.at + x + 2 + c]
  {
    SubPayload(t, p, x, x + 2);
    SubPayload(t, p, x + 2, x + 2 + c);
  }

  lemma SubPayload(s: seq<Byte>, p: Part, lo: nat, hi: nat)
    requires Fits(p, |s|) && lo <= hi <= p.bytes
    ensures Payload(s, p)[lo..hi] == s[p.at + lo..p.at + hi]
  {
    assert forall k | lo <= k < hi :: Payload(s, p)[k] == s[p.at + k];
  }

  lemma Within(s: seq<Byte>, t: seq<Byte>, p: Part, lo: nat, hi: nat, at: nat)
    requires |s| == |t| && Fits(p, |s|) && lo <= hi && p.at + hi <= at <= p.at + p.bytes && s[..at] == t[..at]
    ensures Payload(s, p)[lo..hi] == Payload(t, p)[lo..hi]
  {
    forall k | lo <= k < hi ensures Payload(s, p)[k] == Payload(t, p)[k] {
      assert s[..at][p.at + k] == t[..at][p.at + k];
    }
  }

  lemma OutsideMore(s: seq<Byte>, t: seq<Byte>, u: seq<Byte>, lo: nat, mid: nat, hi: nat)
    requires SameOutside(t, s, lo, mid) && SameOutside(u, t, mid, hi)
    ensures SameOutside(u, s, lo, hi)
  {
    assert u[..lo] == u[..mid][..lo];
    assert t[..mid][..lo] == t[..lo];
    assert t[hi..] == t[mid..][hi - mid..] && s[hi..] == s[mid..][hi - mid..];
  }

  lemma TailKept(s: seq<Byte>, t: seq<Byte>, p: Part, at: nat)
    requires |s| == |t| && Fits(p, |s|) && p.at <= at <= p.at + p.bytes && SameOutside(t, s, p.at, at)
    ensures Payload(t, p)[at - p.at..] == Payload(s, p)[at - p.at..]
    ensures SameOutside(t, s, p.at, p.at + p.bytes)
  {
    var hi := p.at + p.bytes;
    assert Payload(t, p)[at - p.at..] == t[at..][..hi - at];
    assert Payload(s, p)[at - p.at..] == s[at..][..hi - at];
    assert t[hi..] == t[at..][hi - at..] && s[hi..] == s[at..][hi - at..];
  }

  /** The whole slot: parts of a reordered type are put back, the others are left. */
  method SlotToFile(slot: array<Byte>, parts: seq<Part>)
    requires Apart(parts, slot.Length)
    modifies slot
    ensures forall q :: 0 <= q < |parts| ==> PutBack(parts[q], slot[..], old(slot[..]))
  {
    ghost var start := slot[..];
    for q := 0 to |parts|
      invariant forall r :: 0 <= r < q ==> PutBack(parts[r], slot[..], start)
      invariant forall r :: q <= r < |parts| ==> Payload(slot[..], parts[r]) == Payload(start, parts[r])
    {
      if !parts[q].soa {
        continue;
      }
      ghost var before := slot[..];
      PartToFile(slot, parts[q]);
      forall r | 0 <= r < |parts| && r != q ensures Payload(slot[..], parts[r]) == Payload(before, parts[r]) {
        PayloadApart(before, slot[..], parts[q], parts[r]);
      }
    }
  }

  predicate PutBack(p: Part, now: seq<Byte>, was: seq<Byte>) {
    && Fits(p, |now|) && |now| == |was|
    && if p.soa then Reordered(Payload(now, p), Payload(was, p), p.codes) else Payload(now, p) == Payload(was, p)
  }

  lemma PayloadApart(s: seq<Byte>, t: seq<Byte>, p: Part, r: Part)
    requires Fits(p, |s|) && Fits(r, |s|) && SameOutside(t, s, p.at, p.at + p.bytes)
    requires p.at + p.bytes <= r.at || r.at + r.bytes <= p.at
    ensures Payload(s, r) == Payload(t, r)
  {
    var hi := p.at + p.bytes;
    forall k | 0 <= k < r.bytes ensures Payload(s, r)[k] == Payload(t, r)[k] {
      if hi <= r.at {
        assert s[hi..][r.at + k - hi] == t[hi..][r.at + k - hi];
      } else {
        assert s[..p.at][r.at + k] == t[..p.at][r.at + k];
      }
    }
  }

  /** A part that the device reordered from a file's bytes comes back as those bytes. */
  lemma RoundTrip(p: Part, file: seq<Byte>, was: seq<Byte>, now: seq<Byte>)
    requires p.soa && Fits(p, |was|) && Reordered(file, Payload(was, p), p.codes) && PutBack(p, now, was)
    ensures Payload(now, p) == file
  {
    FileUnique(file, Payload(now, p), Payload(was, p), p.codes);
  }
}
