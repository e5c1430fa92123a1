/**
 * Direct reads: where an aligned read puts the bytes that were asked for, how a slot is
 * laid out so that every expert's read fits it, and why a read may be split.
 */
module DioLayout {
  import opened Arithmetic
  import opened Overlay

  /** A conversion to 32 bits. */
  function Low32(x: nat): (r: nat)
    ensures r <= x && r < 0x1_0000_0000
    ensures x < 0x1_0000_0000 ==> r == x
  {
    if x < 0x1_0000_0000 then x else Low32(x - 0x1_0000_0000)
  }

  lemma {:induction false} Low32Is(x: nat)
    ensures Low32(x) == x % 0x1_0000_0000
  {
    if x < 0x1_0000_0000 {
      DivIs(x, 0, x, 0x1_0000_0000);
    } else {
      Low32Is(x - 0x1_0000_0000);
      var y := x - 0x1_0000_0000;
      DivIs(x, y / 0x1_0000_0000 + 1, y % 0x1_0000_0000, 0x1_0000_0000);
    }
  }

  /** The two alignments the engine ever sets. */
  predicate Grain(g: nat) {
    g == 512 || g == 4096
  }

  /** The last whole block's end. */
  function AlignDown(x: nat, g: nat): (r: nat)
    requires Grain(g)
    ensures r <= x < r + g
  {
    if x < g then 0 else AlignDown(x - g, g) + g
  }

  predicate Aligned(x: nat, g: nat)
    requires Grain(g)
  {
    AlignDown(x, g) == x
  }

  /** Rounding down is taking the remainder off. */
  lemma {:induction false} DownIs(x: nat, g: nat)
    requires Grain(g)
    ensures AlignDown(x, g) == x - x % g
  {
    if x < g {
      DivIs(x, 0, x, g);
    } else {
      var y := x - g;
      DownIs(y, g);
      DivIs(x, y / g + 1, y % g, g);
    }
  }

  function AlignUp(x: nat, g: nat): nat
    requires Grain(g)
  {
    AlignDown(x + g - 1, g)
  }

  /** The masks the code computes with are remainders. */
  lemma MaskIsRemainder(x: bv64)
    ensures x & !511 == x - x % 512
    ensures x & !4095 == x - x % 4096
  {
  }

  function Pad(offset: nat, g: nat): nat
    requires Grain(g)
  {
    offset - AlignDown(offset, g)
  }

  /** In the code's widths: the sum is one of two 32-bit numbers, and so is the result. */
  function PaddedSize(offset: nat, nbytes: nat, g: nat): nat
    requires Grain(g)
  {
    Low32(AlignUp(Low32(Pad(offset, g) + nbytes), g))
  }

  lemma AlignFacts(x: nat, g: nat)
    requires Grain(g)
    ensures AlignDown(x, g) <= x < AlignDown(x, g) + g && Aligned(AlignDown(x, g), g)
    ensures x <= AlignUp(x, g) < x + g && Aligned(AlignUp(x, g), g)
  {
    DownFacts(x, g);
    DownFacts(x + g - 1, g);
  }

  lemma {:induction false} DownFacts(x: nat, g: nat)
    requires Grain(g)
    ensures AlignDown(x, g) <= x < AlignDown(x, g) + g && Aligned(AlignDown(x, g), g)
  {
    if x >= g {
      DownFacts(x - g, g);
    }
  }

  /** Whole blocks on top (`y` is x + k) move everything by as much. */
  lemma {:induction false} PadShift(x: nat, k: nat, y: nat, g: nat)
    requires Grain(g) && Aligned(k, g) && y == x + k
    ensures Pad(y, g) == Pad(x, g)
    ensures AlignDown(y, g) == AlignDown(x, g) + k
    ensures AlignUp(y, g) == AlignUp(x, g) + k
  {
    DownShift(x, k, y, g);
    UpMoves(x, k, y, x + g - 1, y + g - 1, g);
  }

  lemma {:induction false} UpMoves(x: nat, k: nat, y: nat, a: nat, b: nat, g: nat)
    requires Grain(g) && Aligned(k, g) && a == x + g - 1 && b == y + g - 1 && b == a + k
    ensures AlignUp(y, g) == AlignUp(x, g) + k
  {
    DownShift(a, k, b, g);
  }

  lemma {:induction false} DownShift(x: nat, k: nat, y: nat, g: nat)
    requires Grain(g) && Aligned(k, g) && y == x + k
    ensures AlignDown(y, g) == AlignDown(x, g) + k
    decreases k
  {
    if k > 0 {
      DownShift(x, k - g, y - g, g);
    }
  }

  lemma {:induction false} DownMonotone(x: nat, y: nat, g: nat)
    requires Grain(g) && x <= y
    ensures AlignDown(x, g) <= AlignDown(y, g)
    decreases y
  {
    if x >= g {
      DownMonotone(x - g, y - g, g);
    }
  }

  lemma {:induction false} AlignUpMonotone(x: nat, y: nat, g: nat)
    requires Grain(g) && x <= y
    ensures AlignUp(x, g) <= AlignUp(y, g)
  {
    DownMonotone(x + g - 1, y + g - 1, g);
  }

  lemma AlignedSum(a: nat, b: nat, g: nat)
    requires Grain(g) && Aligned(a, g) && Aligned(b, g)
    ensures Aligned(a + b, g)
  {
    DownShift(a, b, a + b, g);
  }

  lemma AlignedDifference(a: nat, b: nat, g: nat)
    requires Grain(g) && Aligned(a, g) && Aligned(b, g) && a <= b
    ensures Aligned(b - a, g)
  {
    DownShift(b - a, a, b, g);
  }

  lemma AlignedIsFixed(x: nat, g: nat)
    requires Grain(g) && Aligned(x, g)
    ensures Pad(x, g) == 0 && AlignDown(x, g) == x && AlignUp(x, g) == x
  {
    DownShift(g - 1, x, x + g - 1, g);
  }

  /** The aligned read covers what was asked for exactly when its size is still a 32-bit number. */
  lemma {:induction false} CoversIff(offset: nat, nbytes: nat, g: nat)
    requires Grain(g) && 0 < nbytes < 0x1_0000_0000
    ensures Pad(offset, g) + nbytes <= PaddedSize(offset, nbytes, g) <==> Fits32(offset, nbytes, g)
  {
    var x := Pad(offset, g) + nbytes;
    if x < 0x1_0000_0000 {
      UpTo(x, g);
    } else {
      UpTo(Low32(x), g);
    }
  }

  /** Rounding up stays a 32-bit number exactly as far as the last whole block. */
  lemma {:induction false} UpTo(x: nat, g: nat)
    requires Grain(g) && x < 0x1_0000_0000
    ensures x <= AlignUp(x, g) <= 0x1_0000_0000
    ensures AlignUp(x, g) < 0x1_0000_0000 <==> x <= 0x1_0000_0000 - g
  {
    AlignFacts(x, g);
    Top(g);
    AlignUpMonotone(x, 0x1_0000_0000, g);
    if x <= 0x1_0000_0000 - g {
      AlignUpMonotone(x, 0x1_0000_0000 - g, g);
    } else {
      AlignedDifference(AlignUp(x, g), 0x1_0000_0000, g);
    }
  }

  /** The bound of the 32-bit numbers is a whole number of blocks, and so is one block less. */
  lemma Top(g: nat)
    requires Grain(g)
    ensures AlignUp(0x1_0000_0000, g) == 0x1_0000_0000 && Aligned(0x1_0000_0000, g)
    ensures AlignUp(0x1_0000_0000 - g, g) == 0x1_0000_0000 - g
  {
    DownIs(0x1_0000_0000, g);
    DownIs(0x1_0000_0000 - g, g);
    AlignedIsFixed(0x1_0000_0000, g);
    AlignedIsFixed(0x1_0000_0000 - g, g);
  }

  predicate Fits32(offset: nat, nbytes: nat, g: nat)
    requires Grain(g)
  {
    Pad(offset, g) + nbytes <= 0x1_0000_0000 - g
  }

  lemma {:induction false} SizeIs(offset: nat, nbytes: nat, g: nat)
    requires Grain(g) && Fits32(offset, nbytes, g)
    ensures PaddedSize(offset, nbytes, g) == AlignUp(Pad(offset, g) + nbytes, g)
    ensures Pad(offset, g) + nbytes <= PaddedSize(offset, nbytes, g)
    ensures Aligned(PaddedSize(offset, nbytes, g), g)
  {
    AlignFacts(Pad(offset, g) + nbytes, g);
  }

  // ---------------------------------------------------------------- slots

  /** The slice of expert zero of one part, and the distance from one expert to the next. */
  datatype Range = Range(offset: nat, nbytes: nat, stride: nat)

  predicate Usable(r: Range, g: nat) {
    Grain(g) && r.nbytes > 0 && Aligned(r.stride, g) && Fits32(r.offset, r.nbytes, g)
  }

  function SlotSize(rs: seq<Range>, g: nat): nat
    requires Grain(g)
  {
    if rs == [] then 0 else SlotSize(rs[..|rs| - 1], g) + PaddedSize(rs[|rs| - 1].offset, rs[|rs| - 1].nbytes, g)
  }

  datatype Layout = Layout(offs: seq<nat>, pays: seq<nat>, block: nat)

  /** Where expert `e`'s slice of a part begins in the file. */
  function ExpertAt(r: Range, e: nat): nat {
    r.offset + e * r.stride
  }

  /** The aligned read of one expert's part lies between the part's start and the next part's, starts on a boundary, and
      brings the payload to the fixed place. */
  predicate PartFits(l: Layout, rs: seq<Range>, q: nat, e: nat, g: nat)
    requires Grain(g) && |l.offs| == |l.pays| == |rs| && q < |rs|
  {
    var at := ExpertAt(rs[q], e);
    && Aligned(l.offs[q], g)
    && l.offs[q] + PaddedSize(at, rs[q].nbytes, g) == (if q + 1 < |rs| then l.offs[q + 1] else l.block)
    && l.pays[q] == Pad(at, g)
    && l.pays[q] + rs[q].nbytes <= PaddedSize(at, rs[q].nbytes, g)
  }

  predicate Placed(offs: seq<nat>, pays: seq<nat>, off: nat, rs: seq<Range>, i: nat, g: nat)
    requires Grain(g) && i < |offs| == |pays| <= |rs|
  {
    && Aligned(offs[i], g) && pays[i] == Pad(rs[i].offset, g)
    && (if i + 1 < |offs| then offs[i + 1] else off) == offs[i] + PaddedSize(rs[i].offset, rs[i].nbytes, g)
  }

  /** The next part does not start where this one's read ends. */
  predicate Broken(offs: seq<nat>, off: nat, rs: seq<Range>, i: nat, g: nat)
    requires Grain(g) && i < |offs| <= |rs|
  {
    (if i + 1 < |offs| then offs[i + 1] else off) != offs[i] + PaddedSize(rs[i].offset, rs[i].nbytes, g)
  }

  /** The parts' places in a slot, one behind the other, in 32-bit numbers: they hold every expert's reads exactly when
      the whole slot is such a number. */
  method MakeLayout(rs: seq<Range>, g: nat) returns (l: Layout)
    requires Grain(g) && forall i :: 0 <= i < |rs| ==> Usable(rs[i], g)
    ensures |l.offs| == |l.pays| == |rs|
    ensures SlotSize(rs, g) < 0x1_0000_0000 ==> l.block == SlotSize(rs, g)
    ensures (forall q, e: nat :: 0 <= q < |rs| ==> PartFits(l, rs, q, e, g)) <==> SlotSize(rs, g) < 0x1_0000_0000
  {
    var off: nat := 0;
    var offs: seq<nat>, pays: seq<nat> := [], [];
    ghost var wrapped := -1;
    for q := 0 to |rs|
      invariant LaidTo(rs, q, offs, pays, off, wrapped, g)
    {
      var next := Low32(off + PaddedSize(rs[q].offset, rs[q].nbytes, g));
      wrapped := LaidNext(rs, q, offs, pays, off, wrapped, next, g);
      offs := offs + [off];
      pays := pays + [Pad(rs[q].offset, g)];
      off := next;
    }
    assert rs[..|rs|] == rs;
    l := Layout(offs, pays, off);
    LayoutFits(l, rs, g, wrapped);
  }

  /** The first q parts are placed; `wrapped` is the first whose end is not a 32-bit number, if there is one. */
  ghost predicate LaidTo(rs: seq<Range>, q: nat, offs: seq<nat>, pays: seq<nat>, off: nat, wrapped: int, g: nat)
    requires Grain(g) && q <= |rs|
  {
    && |offs| == |pays| == q && -1 <= wrapped < q
    && (wrapped < 0 <==> SlotSize(rs[..q], g) < 0x1_0000_0000)
    && (wrapped < 0 ==> off == SlotSize(rs[..q], g) && Aligned(off, g))
    && (wrapped < 0 ==> forall i :: 0 <= i < q ==> Placed(offs, pays, off, rs, i, g))
    && (wrapped >= 0 ==> Broken(offs, off, rs, wrapped, g))
  }

  lemma LaidNext(rs: seq<Range>, q: nat, offs: seq<nat>, pays: seq<nat>, off: nat, wrapped: int, next: nat, g: nat)
    returns (w: int)
    requires Grain(g) && q < |rs| && Usable(rs[q], g) && LaidTo(rs, q, offs, pays, off, wrapped, g)
    requires next == Low32(off + PaddedSize(rs[q].offset, rs[q].nbytes, g))
    ensures LaidTo(rs, q + 1, offs + [off], pays + [Pad(rs[q].offset, g)], next, w, g)
  {
    hide PaddedSize, AlignUp, AlignDown, Low32;
    w := wrapped;
    var size := PaddedSize(rs[q].offset, rs[q].nbytes, g);
    assert rs[..q + 1][..q] == rs[..q];
    assert SlotSize(rs[..q + 1], g) == SlotSize(rs[..q], g) + size;
    if wrapped < 0 && off + size < 0x1_0000_0000 {
      PlacedNext(rs, q, offs, pays, off, next, g);
    } else if wrapped < 0 {
      w := q;
    }
  }

  lemma PlacedNext(rs: seq<Range>, q: nat, offs: seq<nat>, pays: seq<nat>, off: nat, next: nat, g: nat)
    requires Grain(g) && q < |rs| && Usable(rs[q], g) && |offs| == |pays| == q && Aligned(off, g)
    requires forall i :: 0 <= i < q ==> Placed(offs, pays, off, rs, i, g)
    requires next == off + PaddedSize(rs[q].offset, rs[q].nbytes, g)
    ensures Aligned(next, g)
    ensures forall i :: 0 <= i < q + 1 ==> Placed(offs + [off], pays + [Pad(rs[q].offset, g)], next, rs, i, g)
  {
    hide PaddedSize, AlignUp, AlignDown, Low32;
    SizeIs(rs[q].offset, rs[q].nbytes, g);
    AlignedSum(off, PaddedSize(rs[q].offset, rs[q].nbytes, g), g);
    forall i | 0 <= i < q + 1 ensures Placed(offs + [off], pays + [Pad(rs[q].offset, g)], next, rs, i, g) {
      assert i < q ==> Placed(offs, pays, off, rs, i, g);
      PlacedMore(offs, pays, off, offs + [off], pays + [Pad(rs[q].offset, g)], next, rs, i, g);
    }
  }

  lemma LayoutFits(l: Layout, rs: seq<Range>, g: nat, wrapped: int)
    requires Grain(g) && |l.offs| == |l.pays| == |rs| && wrapped < |rs|
    requires forall i :: 0 <= i < |rs| ==> Usable(rs[i], g)
    requires wrapped < 0 ==> forall i :: 0 <= i < |rs| ==> Placed(l.offs, l.pays, l.block, rs, i, g)
    requires wrapped >= 0 ==> Broken(l.offs, l.block, rs, wrapped, g)
    ensures (forall q, e: nat :: 0 <= q < |rs| ==> PartFits(l, rs, q, e, g)) <==> wrapped < 0
  {
    if wrapped < 0 {
      forall q, e: nat | 0 <= q < |rs| ensures PartFits(l, rs, q, e, g) {
        assert Placed(l.offs, l.pays, l.block, rs, q, g);
        ExpertFits(rs[q], e, g);
      }
    } else {
      ExpertFits(rs[wrapped], 0, g);
      assert !PartFits(l, rs, wrapped, 0, g);
    }
  }

  lemma PlacedMore(offs: seq<nat>, pays: seq<nat>, off: nat, offs': seq<nat>, pays': seq<nat>, off': nat,
                   rs: seq<Range>, i: nat, g: nat)
    requires Grain(g) && i <= |offs| == |pays| < |rs| && Aligned(off, g)
    requires i < |offs| ==> Placed(offs, pays, off, rs, i, g)
    requires offs' == offs + [off] && pays' == pays + [Pad(rs[|offs|].offset, g)]
    requires off' == off + PaddedSize(rs[|offs|].offset, rs[|offs|].nbytes, g)
    ensures Placed(offs', pays', off', rs, i, g)
  {
    hide PaddedSize, AlignUp, AlignDown, Low32;
  }

  /** Every expert's read has the size and the padding of expert zero's. */
  lemma {:induction false} ExpertFits(r: Range, e: nat, g: nat)
    requires Usable(r, g)
    ensures Pad(ExpertAt(r, e), g) == Pad(r.offset, g)
    ensures PaddedSize(ExpertAt(r, e), r.nbytes, g) == PaddedSize(r.offset, r.nbytes, g)
    ensures Fits32(ExpertAt(r, e), r.nbytes, g)
    ensures Pad(r.offset, g) + r.nbytes <= PaddedSize(r.offset, r.nbytes, g)
  {
    MultipleStays(r.stride, e, g);
    SameFit(r.offset, e * r.stride, r.nbytes, g);
  }

  lemma {:induction false} SameFit(offset: nat, k: nat, nbytes: nat, g: nat)
    requires Grain(g) && Aligned(k, g) && Fits32(offset, nbytes, g)
    ensures Pad(offset + k, g) == Pad(offset, g) && PaddedSize(offset + k, nbytes, g) == PaddedSize(offset, nbytes, g)
    ensures Fits32(offset + k, nbytes, g) && Pad(offset, g) + nbytes <= PaddedSize(offset, nbytes, g)
  {
    PadShift(offset, k, offset + k, g);
    SizeIs(offset, nbytes, g);
  }

  lemma {:induction false} MultipleStays(s: nat, e: nat, g: nat)
    requires Grain(g) && Aligned(s, g)
    ensures Aligned(e * s, g)
  {
    if e > 0 {
      MultipleStays(s, e - 1, g);
      assert e * s == (e - 1) * s + s;
      AlignedSum((e - 1) * s, s, g);
    }
  }

  // ---------------------------------------------------------------- pieces

  datatype Request = Request(offset: nat, nbytes: nat, dst: nat)

  function Piece(nbytes: nat, k: nat, g: nat): nat
    requires Grain(g) && k > 0
  {
    AlignUp(nbytes / k, g)
  }

  lemma PieceIs(n: nat, g: nat)
    requires Grain(g)
    ensures ((n + g - 1) / g) * g == AlignUp(n, g)
  {
    var m := n + g - 1;
    DownIs(m, g);
    assert (m / g) * g == m - m % g;
  }

  function Pieces(r: Request, piece: nat, off: nat): seq<Request>
    requires piece > 0
    decreases if off < r.nbytes then r.nbytes - off else 0
  {
    if off >= r.nbytes then []
    else [PieceAt(r, piece, off)] + Pieces(r, piece, off + piece)
  }

  function PieceAt(r: Request, piece: nat, off: nat): Request
    requires off < r.nbytes
  {
    Request(r.offset + off, if piece < r.nbytes - off then piece else r.nbytes - off, r.dst + off)
  }

  predicate Whole(r: Request, k: nat, g: nat) {
    k <= 1 || r.nbytes < 2 * g
  }

  method PushPieces(r: Request, k: nat, g: nat) returns (ps: seq<Request>)
    requires Grain(g) && 1 <= k <= 8 && r.nbytes > 0
    ensures SplitOf(ps, r, k, g)
    ensures if k <= 1 || r.nbytes < 2 * g then ps == [r] else InRow(ps, r, (r.nbytes / k + g - 1) / g * g)
  {
    if k <= 1 || r.nbytes < 2 * g {
      return [r];
    }
    var piece := PieceSize(r.nbytes, k, g);
    ps := CutUp(r, piece);
    InRowFrom(r, piece, 0);
  }

  /** The request cut one behind the other, each but the last as long as the others. */
  predicate InRow(ps: seq<Request>, r: Request, piece: nat) {
    && ps != [] && ps[0].offset == r.offset && ps[0].dst == r.dst
    && ps[|ps| - 1].offset + ps[|ps| - 1].nbytes == r.offset + r.nbytes
    && (forall i :: 0 <= i < |ps| ==> 0 < ps[i].nbytes <= piece)
    && (forall i :: 0 <= i < |ps| - 1 ==>
          && ps[i].nbytes == piece
          && ps[i + 1].offset == ps[i].offset + piece && ps[i + 1].dst == ps[i].dst + piece)
  }

  lemma {:induction false} InRowFrom(r: Request, piece: nat, off: nat)
    requires piece > 0 && off < r.nbytes
    ensures InRow(Pieces(r, piece, off), Request(r.offset + off, r.nbytes - off, r.dst + off), piece)
    decreases r.nbytes - off
  {
    if off + piece < r.nbytes {
      InRowFrom(r, piece, off + piece);
    } else {
      assert Pieces(r, piece, off) == [PieceAt(r, piece, off)];
    }
  }

  method CutUp(r: Request, piece: nat) returns (ps: seq<Request>)
    requires piece > 0
    ensures ps == Pieces(r, piece, 0)
  {
    ps := [];
    var off := 0;
    while off < r.nbytes
      invariant ps + Pieces(r, piece, off) == Pieces(r, piece, 0)
      decreases if off < r.nbytes then r.nbytes - off else 0
    {
      var p := Request(r.offset + off, if piece < r.nbytes - off then piece else r.nbytes - off, r.dst + off);
      PiecesNext(ps, r, piece, off);
      ps := ps + [p];
      off := off + piece;
    }
  }

  method PieceSize(nbytes: nat, k: nat, g: nat) returns (piece: nat)
    requires Grain(g) && 1 <= k <= 8 && nbytes >= 2 * g
    ensures piece == Piece(nbytes, k, g) == (nbytes / k + g - 1) / g * g > 0 && Aligned(piece, g)
  {
    PiecePositive(nbytes, k, g);
    PieceIs(nbytes / k, g);
    piece := ((nbytes / k + g - 1) / g) * g;
  }

  lemma PiecesNext(ps: seq<Request>, r: Request, piece: nat, off: nat)
    requires piece > 0 && off < r.nbytes
    ensures (ps + [PieceAt(r, piece, off)]) + Pieces(r, piece, off + piece) == ps + Pieces(r, piece, off)
  {
    var p, rest := PieceAt(r, piece, off), Pieces(r, piece, off + piece);
    assert ps + ([p] + rest) == (ps + [p]) + rest;
  }

  lemma PiecePositive(n: nat, k: nat, g: nat)
    requires Grain(g) && 1 <= k <= 8 && n >= 2 * g
    ensures Piece(n, k, g) > 0 && Aligned(Piece(n, k, g), g)
  {
    Quotient(n, k);
    AlignFacts(n / k, g);
  }

  lemma Quotient(n: nat, k: nat)
    requires 1 <= k <= 8 && n >= 8
    ensures n / k >= 1
  {
    assert n == (n / k) * k + n % k;
    assert (n / k) * k > 0;
  }

  /** What a request writes: straight into place, the whole aligned window; through a bounce buffer, the payload alone.
      */
  function First(r: Request, g: nat, bounce: bool): nat
    requires Grain(g)
  {
    if bounce then r.dst + Pad(r.offset, g) else r.dst
  }

  function Length(r: Request, g: nat, bounce: bool): nat
    requires Grain(g)
  {
    if bounce then r.nbytes else PaddedSize(r.offset, r.nbytes, g)
  }

  /** Address `d` of the slot takes the file's byte at the same distance. */
  function Home(r: Request, file: nat -> Byte, g: nat): nat -> Byte
    requires Grain(g)
  {
    (d: nat) => if d >= r.dst then file(AlignDown(r.offset, g) + (d - r.dst)) else 0
  }

  function Values(f: nat -> Byte, from: nat, n: nat): (s: seq<Byte>)
    ensures |s| == n && forall i :: 0 <= i < n ==> s[i] == f(from + i)
  {
    seq(n, i requires 0 <= i => f(from + i))
  }

  function OpOf(r: Request, file: nat -> Byte, g: nat, bounce: bool): Op
    requires Grain(g)
  {
    Op(First(r, g, bounce), Values(Home(r, file, g), First(r, g, bounce), Length(r, g, bounce)))
  }

  function OpsOf(rs: seq<Request>, file: nat -> Byte, g: nat, bounce: bool): (ops: seq<Op>)
    requires Grain(g)
    ensures |ops| == |rs| && forall i :: 0 <= i < |rs| ==> ops[i] == OpOf(rs[i], file, g, bounce)
  {
    seq(|rs|, i requires 0 <= i < |rs| => OpOf(rs[i], file, g, bounce))
  }

  /** A piece in its request: it begins a whole number of blocks in and ends inside. */
  predicate PieceOf(p: Request, r: Request, g: nat)
    requires Grain(g)
  {
    && p.offset >= r.offset && Aligned(p.offset - r.offset, g)
    && p.dst == r.dst + (p.offset - r.offset)
    && 0 < p.nbytes && p.offset + p.nbytes <= r.offset + r.nbytes
  }

  lemma {:induction false} PieceInside(p: Request, r: Request, g: nat, bounce: bool)
    requires Grain(g) && Fits32(r.offset, r.nbytes, g) && PieceOf(p, r, g)
    ensures First(p, g, bounce) == First(r, g, bounce) + (p.offset - r.offset)
    ensures First(p, g, bounce) + Length(p, g, bounce) <= First(r, g, bounce) + Length(r, g, bounce)
    ensures p.offset + p.nbytes == r.offset + r.nbytes ==>
              First(p, g, bounce) + Length(p, g, bounce) == First(r, g, bounce) + Length(r, g, bounce)
    ensures !bounce ==> Length(p, g, bounce) >= p.nbytes
  {
    hide PaddedSize, AlignUp, AlignDown, Low32;
    var k := p.offset - r.offset;
    SizesShift(r.offset, k, p.nbytes, r.nbytes, g);
  }

  /** A stretch that begins `k` bytes into another and ends inside it: so does its window. */
  lemma {:induction false} SizesShift(offset: nat, k: nat, n: nat, m: nat, g: nat)
    requires Grain(g) && Aligned(k, g) && Fits32(offset, m, g) && n + k <= m
    ensures Pad(offset + k, g) == Pad(offset, g)
    ensures n <= PaddedSize(offset + k, n, g) && PaddedSize(offset + k, n, g) + k <= PaddedSize(offset, m, g)
    ensures n + k == m ==> PaddedSize(offset + k, n, g) + k == PaddedSize(offset, m, g)
  {
    hide PaddedSize, AlignUp, AlignDown, Low32;
    var pad := Pad(offset, g);
    assert Pad(offset + k, g) == pad by {
      PadShift(offset, k, offset + k, g);
    }
    var small := RoundedTo(offset + k, n, pad + n, g);
    var large := RoundedTo(offset, m, pad + m, g);
    assert small + k <= large && (n + k == m ==> small + k == large) by {
      UpShift(pad + n, k, pad + m, g);
    }
  }

  lemma {:induction false} RoundedTo(offset: nat, nbytes: nat, x: nat, g: nat) returns (size: nat)
    requires Grain(g) && Fits32(offset, nbytes, g) && x == Pad(offset, g) + nbytes
    ensures size == PaddedSize(offset, nbytes, g) == AlignUp(x, g) && nbytes <= size
  {
    SizeIs(offset, nbytes, g);
    size := AlignUp(x, g);
  }

  lemma {:induction false} UpShift(x: nat, k: nat, y: nat, g: nat)
    requires Grain(g) && Aligned(k, g) && x + k <= y
    ensures AlignUp(x, g) + k <= AlignUp(y, g)
    ensures x + k == y ==> AlignUp(x, g) + k == AlignUp(y, g)
  {
    assert AlignUp(x + k, g) == AlignUp(x, g) + k by {
      PadShift(x, k, x + k, g);
    }
    AlignUpMonotone(x + k, y, g);
  }

  lemma {:induction false} PieceHome(p: Request, r: Request, file: nat -> Byte, g: nat, d: nat)
    requires Grain(g) && PieceOf(p, r, g) && d >= p.dst
    ensures Home(p, file, g)(d) == Home(r, file, g)(d)
  {
    PadShift(r.offset, p.offset - r.offset, p.offset, g);
    HomeIs(p, file, g, d, AlignDown(p.offset, g) + (d - p.dst));
    HomeIs(r, file, g, d, AlignDown(p.offset, g) + (d - p.dst));
  }

  lemma HomeIs(r: Request, file: nat -> Byte, g: nat, d: nat, x: nat)
    requires Grain(g) && d >= r.dst && x == AlignDown(r.offset, g) + (d - r.dst)
    ensures Home(r, file, g)(d) == file(x)
  {
  }

  lemma {:induction false} PiecesOf(r: Request, piece: nat, off: nat, g: nat)
    requires Grain(g) && piece > 0 && Aligned(piece, g) && Aligned(off, g)
    ensures forall i :: 0 <= i < |Pieces(r, piece, off)| ==> PieceOf(Pieces(r, piece, off)[i], r, g)
    decreases if off < r.nbytes then r.nbytes - off else 0
  {
    if off < r.nbytes {
      AlignedSum(off, piece, g);
      PiecesOf(r, piece, off + piece, g);
      assert PieceOf(PieceAt(r, piece, off), r, g);
    }
  }

  /** An address of the request's window that lies at or after a piece's start is the piece's, or the next piece's or a
      later one's. */
  lemma {:induction false} InPieceOrLater(r: Request, piece: nat, off: nat, g: nat, bounce: bool, d: nat)
    requires Grain(g) && piece > 0 && Aligned(piece, g) && Aligned(off, g) && off < r.nbytes
    requires Fits32(r.offset, r.nbytes, g)
    requires First(r, g, bounce) + off <= d < First(r, g, bounce) + Length(r, g, bounce)
    ensures var p := PieceAt(r, piece, off);
            || First(p, g, bounce) <= d < First(p, g, bounce) + Length(p, g, bounce)
            || (off + piece < r.nbytes && First(r, g, bounce) + off + piece <= d)
  {
    hide PaddedSize, AlignUp, AlignDown, Low32;
    var p := PieceAt(r, piece, off);
    PieceInside(p, r, g, bounce);
  }

  lemma {:induction false} PiecesCover(r: Request, piece: nat, off: nat, file: nat -> Byte, g: nat, bounce: bool,
          d: nat)
    requires Grain(g) && piece > 0 && Aligned(piece, g) && Aligned(off, g) && off < r.nbytes
    requires Fits32(r.offset, r.nbytes, g)
    requires First(r, g, bounce) + off <= d < First(r, g, bounce) + Length(r, g, bounce)
    ensures Covered(OpsOf(Pieces(r, piece, off), file, g, bounce), d)
    decreases r.nbytes - off
  {
    hide PaddedSize, AlignUp, AlignDown, Low32;
    var ops := OpsOf(Pieces(r, piece, off), file, g, bounce);
    InPieceOrLater(r, piece, off, g, bounce, d);
    assert ops[0] == OpOf(PieceAt(r, piece, off), file, g, bounce);
    if !Within(ops[0], d) {
      AlignedSum(off, piece, g);
      PiecesCover(r, piece, off + piece, file, g, bounce, d);
      var rest := OpsOf(Pieces(r, piece, off + piece), file, g, bounce);
      var i :| 0 <= i < |rest| && Within(rest[i], d);
      assert ops[i + 1] == rest[i];
    }
  }

  /** What `PushPieces` makes of a request. */
  predicate SplitOf(ps: seq<Request>, r: Request, k: nat, g: nat)
    requires Grain(g) && k > 0
  {
    if Whole(r, k, g) then ps == [r]
    else Piece(r.nbytes, k, g) > 0 && Aligned(Piece(r.nbytes, k, g), g) && ps == Pieces(r, Piece(r.nbytes, k, g), 0)
  }

  /** Any number of pieces, their bytes landing in any order: the memory the single read leaves, with the payload at its
      place. */
  lemma PiecesSame(r: Request, k: nat, ps: seq<Request>, file: nat -> Byte, g: nat, bounce: bool,
                   mem: nat -> Byte, ws: seq<Write>, one: seq<Write>, d: nat)
    requires Grain(g) && k > 0 && r.nbytes > 0 && Fits32(r.offset, r.nbytes, g) && SplitOf(ps, r, k, g)
    requires Executes(ws, OpsOf(ps, file, g, bounce))
    requires Executes(one, OpsOf([r], file, g, bounce))
    ensures Apply(mem, ws)(d) == Apply(mem, one)(d)
    ensures r.dst + Pad(r.offset, g) <= d < r.dst + Pad(r.offset, g) + r.nbytes ==>
              Apply(mem, ws)(d) == file(r.offset + (d - r.dst - Pad(r.offset, g)))
  {
    SplitPieces(ps, r, k, g);
    OpsHomed(ps, r, file, g, bounce);
    OpsHomed([r], r, file, g, bounce);
    SameCover(r, k, ps, file, g, bounce, d);
    AnyOrder(mem, ws, OpsOf(ps, file, g, bounce), Home(r, file, g), d);
    AnyOrder(mem, one, OpsOf([r], file, g, bounce), Home(r, file, g), d);
    if r.dst + Pad(r.offset, g) <= d < r.dst + Pad(r.offset, g) + r.nbytes {
      PayloadCovered(r, file, g, bounce, d);
    }
  }

  lemma SplitPieces(ps: seq<Request>, r: Request, k: nat, g: nat)
    requires Grain(g) && k > 0 && r.nbytes > 0 && SplitOf(ps, r, k, g)
    ensures forall i :: 0 <= i < |ps| ==> PieceOf(ps[i], r, g)
    ensures forall i :: 0 <= i < 1 ==> PieceOf([r][i], r, g)
  {
    if !Whole(r, k, g) {
      PiecesOf(r, Piece(r.nbytes, k, g), 0, g);
    }
  }

  lemma PayloadCovered(r: Request, file: nat -> Byte, g: nat, bounce: bool, d: nat)
    requires Grain(g) && r.nbytes > 0 && Fits32(r.offset, r.nbytes, g)
    requires r.dst + Pad(r.offset, g) <= d < r.dst + Pad(r.offset, g) + r.nbytes
    ensures Covered(OpsOf([r], file, g, bounce), d)
    ensures Home(r, file, g)(d) == file(r.offset + (d - r.dst - Pad(r.offset, g)))
  {
    hide PaddedSize, AlignUp, AlignDown, Low32;
    SizeIs(r.offset, r.nbytes, g);
    assert Within(OpsOf([r], file, g, bounce)[0], d);
  }

  lemma OpsHomed(ps: seq<Request>, r: Request, file: nat -> Byte, g: nat, bounce: bool)
    requires Grain(g) && Fits32(r.offset, r.nbytes, g)
    requires forall i :: 0 <= i < |ps| ==> PieceOf(ps[i], r, g)
    ensures Homed(OpsOf(ps, file, g, bounce), Home(r, file, g))
  {
    hide PaddedSize, AlignUp, AlignDown, Low32;
    var ops := OpsOf(ps, file, g, bounce);
    forall i, d: nat | 0 <= i < |ops| && Within(ops[i], d)
      ensures ops[i].bytes[d - ops[i].at] == Home(r, file, g)(d)
    {
      PieceOpHome(ps[i], r, file, g, bounce, d);
    }
  }

  lemma PieceOpHome(p: Request, r: Request, file: nat -> Byte, g: nat, bounce: bool, d: nat)
    requires Grain(g) && PieceOf(p, r, g) && Within(OpOf(p, file, g, bounce), d)
    ensures OpOf(p, file, g, bounce).bytes[d - OpOf(p, file, g, bounce).at] == Home(r, file, g)(d)
  {
    PieceHome(p, r, file, g, d);
  }

  lemma SameCover(r: Request, k: nat, ps: seq<Request>, file: nat -> Byte, g: nat, bounce: bool, d: nat)
    requires Grain(g) && k > 0 && r.nbytes > 0 && Fits32(r.offset, r.nbytes, g) && SplitOf(ps, r, k, g)
    ensures Covered(OpsOf(ps, file, g, bounce), d) <==> Covered(OpsOf([r], file, g, bounce), d)
  {
    hide PaddedSize, AlignUp, AlignDown, Low32;
    if !Whole(r, k, g) {
      SplitPieces(ps, r, k, g);
      if Covered(OpsOf([r], file, g, bounce), d) {
        PiecesCover(r, Piece(r.nbytes, k, g), 0, file, g, bounce, d);
      }
      if Covered(OpsOf(ps, file, g, bounce), d) {
        var i :| 0 <= i < |ps| && Within(OpsOf(ps, file, g, bounce)[i], d);
        PieceInside(ps[i], r, g, bounce);
        assert Within(OpsOf([r], file, g, bounce)[0], d);
      }
    }
  }
}
