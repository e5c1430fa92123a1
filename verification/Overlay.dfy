/**
 * Writes that land in memory in any order, byte by byte: what it takes for the order not
 * to matter.
 */
module Overlay {

  type Byte = bv8

  /** `bytes` go to the addresses from `at` on. */
  datatype Op = Op(at: nat, bytes: seq<Byte>)

  datatype Write = Write(at: nat, value: Byte)

  predicate Within(o: Op, d: nat) {
    o.at <= d < o.at + |o.bytes|
  }

  predicate Covered(ops: seq<Op>, d: nat) {
    exists i :: 0 <= i < |ops| && Within(ops[i], d)
  }

  predicate Belongs(ops: seq<Op>, w: Write) {
    exists i :: 0 <= i < |ops| && Within(ops[i], w.at) && ops[i].bytes[w.at - ops[i].at] == w.value
  }

  predicate Hit(ws: seq<Write>, d: nat) {
    exists i :: 0 <= i < |ws| && ws[i].at == d
  }

  /** `ws` is an execution of `ops`: nothing but their bytes, all of them, in any order and interleaving, repeats
      allowed. */
  ghost predicate Executes(ws: seq<Write>, ops: seq<Op>) {
    && (forall i :: 0 <= i < |ws| ==> Belongs(ops, ws[i]))
    && (forall d: nat :: Covered(ops, d) ==> Hit(ws, d))
  }

  /** Every byte an operation brings is the one that belongs at its address. */
  ghost predicate Homed(ops: seq<Op>, home: nat -> Byte) {
    forall i, d: nat :: 0 <= i < |ops| && Within(ops[i], d) ==> ops[i].bytes[d - ops[i].at] == home(d)
  }

  /** Memory, given by its addresses. */
  function Apply(mem: nat -> Byte, ws: seq<Write>): nat -> Byte {
    if ws == [] then mem
    else
      var before, last := Apply(mem, ws[..|ws| - 1]), ws[|ws| - 1];
      (d: nat) => if d == last.at then last.value else before(d)
  }

  lemma {:induction false} ApplyHomed(mem: nat -> Byte, ws: seq<Write>, home: nat -> Byte, d: nat)
    requires forall i :: 0 <= i < |ws| ==> ws[i].value == home(ws[i].at)
    ensures Apply(mem, ws)(d) == if Hit(ws, d) then home(d) else mem(d)
  {
    if ws != [] {
      var init := ws[..|ws| - 1];
      ApplyHomed(mem, init, home, d);
      if Hit(init, d) {
        var i :| 0 <= i < |init| && init[i].at == d;
        assert ws[i].at == d;
      }
    }
  }

  /** However the operations interleave: what they cover ends up as it belongs, and nothing else changes. */
  lemma AnyOrder(mem: nat -> Byte, ws: seq<Write>, ops: seq<Op>, home: nat -> Byte, d: nat)
    requires Executes(ws, ops) && Homed(ops, home)
    ensures Apply(mem, ws)(d) == if Covered(ops, d) then home(d) else mem(d)
  {
    forall i | 0 <= i < |ws| ensures ws[i].value == home(ws[i].at) {
      assert Belongs(ops, ws[i]);
    }
    ApplyHomed(mem, ws, home, d);
    if Hit(ws, d) {
      var i :| 0 <= i < |ws| && ws[i].at == d;
      assert Belongs(ops, ws[i]);
    }
  }
}
