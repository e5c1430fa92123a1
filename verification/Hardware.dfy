/** The memories the expert tiers live in and the queues that move bytes between them.  A block is identified by what it
    holds, not by its bytes: every piece (a part of an expert, or a slice of one when reads are split) carries the
    layer, the expert, its index and the byte arrangement it is in. Copies queued on the compute queue apply in order,
    at any time; copies queued on the side queue land in any order. */
module Hardware {

  datatype Layout = File | Device

  /** What one piece of a block holds. */
  datatype Piece = Junk | Part(layer: nat, expert: nat, index: nat, layout: Layout)

  type Bytes = map<nat, Piece>

  datatype Loc =
    | Ram(layer: nat, slot: nat)
    | Vram(layer: nat, slot: nat)
    | Ring(entry: nat)

  type Mem = map<Loc, Bytes>

  /** One queued copy of a whole block. `reorder`: the backend turns the file's arrangement into the device's. */
  datatype Copy = Copy(src: Loc, dst: Loc, reorder: bool)

  function At(m: Mem, a: Loc): Bytes {
    if a in m then m[a] else map[]
  }

  /** Every one of the n pieces of (layer, expert) is there, in one layout. */
  ghost predicate Holds(b: Bytes, n: nat, layer: nat, expert: nat, layout: Layout) {
    forall i | 0 <= i < n :: i in b && b[i] == Part(layer, expert, i, layout)
  }

  /** The upload's reordering: meaningful on the file's arrangement only. */
  function ToDevice(p: Piece): Piece {
    match p
    case Part(l, e, i, File) => Part(l, e, i, Device)
    case _ => Junk
  }

  /** The host's conversion back: meaningful on the device's arrangement only. */
  function ToFile(p: Piece): Piece {
    match p
    case Part(l, e, i, Device) => Part(l, e, i, File)
    case _ => Junk
  }

  function Uploaded(b: Bytes, reorder: bool): Bytes {
    if reorder then map i | i in b :: ToDevice(b[i]) else b
  }

  function Converted(b: Bytes): Bytes {
    map i | i in b :: ToFile(b[i])
  }

  function Do(c: Copy, m: Mem): Mem {
    m[c.dst := Uploaded(At(m, c.src), c.reorder)]
  }

  /** The memory once the compute queue has run dry. */
  function Drain(q: seq<Copy>, m: Mem): Mem {
    if q == [] then m else Drain(q[1..], Do(q[0], m))
  }

  ghost predicate Untouched(q: seq<Copy>, a: Loc) {
    forall i | 0 <= i < |q| :: q[i].src != a && q[i].dst != a
  }

  ghost predicate Unwritten(q: seq<Copy>, a: Loc) {
    forall i | 0 <= i < |q| :: q[i].dst != a
  }

  lemma {:induction false} DrainAppend(q: seq<Copy>, c: Copy, m: Mem)
    ensures Drain(q + [c], m) == Do(c, Drain(q, m))
  {
    if q == [] {
      assert ([] + [c])[1..] == [];
    } else {
      assert (q + [c])[1..] == q[1..] + [c];
      DrainAppend(q[1..], c, Do(q[0], m));
    }
  }

  /** Nothing queued reads or writes the location: a host write and the queue commute. */
  lemma {:induction false} DrainCommutes(q: seq<Copy>, m: Mem, a: Loc, b: Bytes)
    requires Untouched(q, a)
    ensures Drain(q, m[a := b]) == Drain(q, m)[a := b]
  {
    if q != [] {
      assert Do(q[0], m[a := b]) == Do(q[0], m)[a := b];
      DrainCommutes(q[1..], Do(q[0], m), a, b);
    }
  }

  lemma {:induction false} DrainFrame(q: seq<Copy>, m: Mem, a: Loc)
    requires Unwritten(q, a)
    ensures At(Drain(q, m), a) == At(m, a)
  {
    if q != [] {
      DrainFrame(q[1..], Do(q[0], m), a);
    }
  }
}
