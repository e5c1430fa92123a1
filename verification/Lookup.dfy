/** The suffix-index drafter: every trigram of the history maps to the most recent positions it ends at, in a bounded
    open-addressing table, and a proposal copies what followed the longest earlier match of the history's suffix. The
    index agrees with a plain scan of the history. */
module Lookup {
  import opened Arithmetic

  const WAYS: nat := 4
  const PROBES: nat := 64
  const LIMIT: nat := 0xFFFF_FFFF   // end positions are stored in 32 bits

  /** key 0: empty. pos: end positions, newest first. */
  datatype Slot = Slot(key: nat, pos: seq<nat>)

  // ---------------------------------------------------------------- the history scan

  /** The key of the trigram that ends at `end`: a hash of its tokens with the lowest bit set, so never 0. */
  function KeyAt(hash: (int, int, int) -> nat, hist: seq<int>, end: nat): (key: nat)
    requires 2 <= end < |hist|
    ensures key > 0
  {
    hash(hist[end - 2], hist[end - 1], hist[end]) / 2 * 2 + 1
  }

  /** Every indexable end position below `upto` with this key, newest first. */
  function Ends(hash: (int, int, int) -> nat, hist: seq<int>, key: nat, upto: nat): (es: seq<nat>)
    requires upto <= |hist|
    ensures forall i | 0 <= i < |es| :: 2 <= es[i] < upto && es[i] <= LIMIT && KeyAt(hash, hist, es[i]) == key
  {
    if upto <= 2 then [] else
      (if upto - 1 <= LIMIT && KeyAt(hash, hist, upto - 1) == key then [upto - 1]
          else []) + Ends(hash, hist, key, upto - 1)
  }

  function Take(s: seq<nat>, n: nat): seq<nat> {
    if |s| <= n then s else s[..n]
  }

  /** The most recent ones. */
  function Recent(hash: (int, int, int) -> nat, hist: seq<int>, key: nat): seq<nat> {
    Take(Ends(hash, hist, key, |hist|), WAYS)
  }

  /** Nothing is missed and nothing is out of order. */
  lemma {:induction false} EndsAll(hash: (int, int, int) -> nat, hist: seq<int>, key: nat, upto: nat)
    requires upto <= |hist|
    ensures forall e: nat | 2 <= e < upto && e <= LIMIT && KeyAt(hash, hist, e) == key ::
        e in Ends(hash, hist, key, upto)
    ensures forall i, j | 0 <= i < j < |Ends(hash, hist, key, upto)| ::
        Ends(hash, hist, key, upto)[i] > Ends(hash, hist, key, upto)[j]
  {
    if upto > 2 { EndsAll(hash, hist, key, upto - 1); }
  }

  /** Different trigrams differ in more than the lowest bit of their hashes. */
  ghost predicate Apart(hash: (int, int, int) -> nat) {
    forall a, b, c, x, y, z :: hash(a, b, c) / 2 == hash(x, y, z) / 2 ==> a == x && b == y && c == z
  }

  /** For such a hash the ends of a position's key are all positions its last three tokens end at. */
  lemma EndsOfTrigram(hash: (int, int, int) -> nat, hist: seq<int>, at: nat, e: nat)
    requires Apart(hash) && 2 <= at < |hist| && 2 <= e < |hist| && e <= LIMIT
    ensures e in Ends(hash, hist, KeyAt(hash, hist, at), |hist|)
       <==> hist[e - 2] == hist[at - 2] && hist[e - 1] == hist[at - 1] && hist[e] == hist[at]
  {
    if KeyAt(hash, hist, e) == KeyAt(hash, hist, at) {
      ApartAt(hash, hist[e - 2], hist[e - 1], hist[e], hist[at - 2], hist[at - 1], hist[at]);
    }
    hide Apart;
    EndsAll(hash, hist, KeyAt(hash, hist, at), |hist|);
  }

  lemma ApartAt(hash: (int, int, int) -> nat, a: int, b: int, c: int, x: int, y: int, z: int)
    requires Apart(hash) && hash(a, b, c) / 2 == hash(x, y, z) / 2
    ensures a == x && b == y && c == z
  {
  }

  lemma {:induction false} EndsExtend(hash: (int, int, int) -> nat, hist: seq<int>, t: int, key: nat, upto: nat)
    requires upto <= |hist|
    ensures Ends(hash, hist + [t], key, upto) == Ends(hash, hist, key, upto)
  {
    if upto > 2 { EndsExtend(hash, hist, t, key, upto - 1); }
  }

  /** One more token: its own end joins the front if it has the key. */
  lemma RecentExtend(hash: (int, int, int) -> nat, hist: seq<int>, t: int, key: nat)
    requires |hist| >= 2
    ensures var more := hist + [t];
      Recent(hash, more, key) ==
        if |hist| <= LIMIT && KeyAt(hash, more, |hist|) == key then Take([|hist|] + Recent(hash, hist, key), WAYS)
            else Recent(hash, hist, key)
  {
    EndsExtend(hash, hist, t, key, |hist|);
    TakeFront(|hist|, Ends(hash, hist, key, |hist|));
  }

  lemma TakeFront(x: nat, es: seq<nat>)
    ensures Take([x] + es, WAYS) == Take([x] + Take(es, WAYS), WAYS)
  {
    if |es| > WAYS { assert ([x] + es)[..WAYS] == ([x] + es[..WAYS])[..WAYS]; }
  }

  // ---------------------------------------------------------------- the table

  function Idx(key: nat, p: nat, cap: nat): (i: nat)
    requires cap > 0
    ensures i < cap
  {
    (key % cap + p) % cap   // the capacity is a power of two: masking is the remainder
  }

  predicate PowerOfTwo(n: nat) {
    n == 1 || (n > 0 && n % 2 == 0 && PowerOfTwo(n / 2))
  }

  function Reach(cap: nat): nat { if cap < PROBES then cap else PROBES }

  /** Probe p of the key's run finds it, and no earlier one is empty or has it. */
  ghost predicate Found(t: seq<Slot>, key: nat, p: nat) {
    && p < Reach(|t|) && |t| > 0 && t[Idx(key, p, |t|)].key == key && Passed(t, key, p)
  }

  /** The first p probes are all taken by other keys. */
  ghost predicate Passed(t: seq<Slot>, key: nat, p: nat) {
    |t| > 0 && forall x: nat | x < p :: t[Idx(key, x, |t|)].key != 0 && t[Idx(key, x, |t|)].key != key
  }

  ghost predicate Known(t: seq<Slot>, key: nat) {
    exists p: nat :: Found(t, key, p)
  }

  ghost predicate StillKnown(t: seq<Slot>, u: seq<Slot>) {
    forall key: nat :: key > 0 && Known(t, key) ==> Known(u, key)
  }

  /** The key is indexed, or its whole run is taken: it never will be. */
  ghost predicate Decided(t: seq<Slot>, key: nat) {
    Known(t, key) || Passed(t, key, Reach(|t|))
  }

  ghost predicate TableOk(hash: (int, int, int) -> nat, t: seq<Slot>, hist: seq<int>) {
    && |t| > 0
    && (forall i: nat | i < |t| && t[i].key != 0 :: exists p: nat ::
        Found(t, t[i].key, p) && Idx(t[i].key, p, |t|) == i)
    && (forall i: nat | i < |t| && t[i].key != 0 :: t[i].pos == Recent(hash, hist, t[i].key))
    && (forall i: nat | i < |t| && t[i].key == 0 :: t[i].pos == [])
    && (forall e: nat | 2 <= e < |hist| && e <= LIMIT :: Decided(t, KeyAt(hash, hist, e)))
  }

  /** An unindexed key has been given the first empty slot of its run. */
  ghost predicate Claimed(t: seq<Slot>, u: seq<Slot>, key: nat, i: int) {
    && 0 <= i < |t| && t[i].key == 0 && u == t[i := t[i].(key := key)]
    && !Known(t, key)
    && exists p: nat :: p < Reach(|t|) && Passed(t, key, p) && Idx(key, p, |t|) == i
  }

  /** A slot given to a key keeps every other key where it was, found or not. */
  lemma OthersStay(t: seq<Slot>, u: seq<Slot>, i: nat, key: nat, p: nat)
    requires i < |t| && |u| == |t| && u == t[i := u[i]] && u[i].key != 0 && (t[i].key == 0 || t[i].key == u[i].key)
    requires key > 0 && (t[i].key == u[i].key || key != u[i].key)
    ensures Passed(t, key, p) ==> Passed(u, key, p)
    ensures Found(t, key, p) ==> Found(u, key, p)
  {
  }

  // ---------------------------------------------------------------- matching and proposing

  /** The tokens i before p and i before cur are the same. */
  predicate SameBack(hist: seq<int>, p: nat, cur: nat, i: nat) {
    i <= p <= cur < |hist| && hist[p - i] == hist[cur - i]
  }

  /** The longest common suffix of the history up to p and up to cur, capped. */
  function MatchLen(hist: seq<int>, p: nat, cur: nat, cap: nat): (len: nat)
    requires p <= cur < |hist|
    ensures len <= cap && len <= p + 1
    ensures forall i: nat | i < len :: SameBack(hist, p, cur, i)
    ensures len < cap && len <= p ==> hist[p - len] != hist[cur - len]
  {
    MatchFrom(hist, p, cur, cap, 0)
  }

  function MatchFrom(hist: seq<int>, p: nat, cur: nat, cap: nat, from: nat): (len: nat)
    requires p <= cur < |hist| && from <= cap && from <= p + 1
    requires forall i: nat | i < from :: SameBack(hist, p, cur, i)
    ensures from <= len <= cap && len <= p + 1
    ensures forall i: nat | i < len :: SameBack(hist, p, cur, i)
    ensures len < cap && len <= p ==> hist[p - len] != hist[cur - len]
    decreases cap - from
  {
    if from < cap && from <= p && hist[p - from] == hist[cur - from] then MatchFrom(hist, p, cur, cap, from + 1)
        else from
  }

  /** The best of the candidates: the longest match, the first of them on ties; EMPTY length when there is none. */
  datatype Best = Best(end: nat, len: nat)

  ghost predicate IsBest(hist: seq<int>, es: seq<nat>, cur: nat, cap: nat, b: Best)
    requires cur < |hist|
  {
    && (forall i | 0 <= i < |es| && es[i] < cur :: MatchLen(hist, es[i], cur, cap) <= b.len)
    && (b.len > 0 ==> exists i :: FirstBest(hist, es, cur, cap, b, i))
  }

  /** Candidate i is the best, and none before it is as good. */
  ghost predicate FirstBest(hist: seq<int>, es: seq<nat>, cur: nat, cap: nat, b: Best, i: int)
    requires cur < |hist|
  {
    && 0 <= i < |es| && es[i] < cur && es[i] == b.end && MatchLen(hist, es[i], cur, cap) == b.len
    && forall j | 0 <= j < i && es[j] < cur :: MatchLen(hist, es[j], cur, cap) < b.len
  }

  class Drafter {
    const hash: (int, int, int) -> nat
    const minMatch: nat    // at least 3
    const maxMatch: nat
    var hist: seq<int>
    var table: array<Slot>
    var lastMatch: nat

    ghost predicate Valid()
      reads this, table
    {
      TableOk(hash, table[..], hist) && minMatch >= 3
    }

    constructor (h: (int, int, int) -> nat, least: int, most: int, capacity: nat)
      ensures Valid() && hist == [] && fresh(table) && table.Length >= 2 * capacity
      ensures hash == h && minMatch == (if least < 3 then 3 else least)
      ensures maxMatch == if most < minMatch then minMatch else most
    {
      hash := h;
      minMatch := if least < 3 then 3 else least;
      maxMatch := if most < (if least < 3 then 3 else least) then (if least < 3 then 3 else least) else most;
      hist, lastMatch := [], 0;
      table := new Slot[1](_ => Slot(0, []));
      new;
      Reset(capacity);
    }

    /** The least power of two that is twice the capacity or more. */
    static method TableSize(capacity: nat) returns (cap: nat)
      ensures PowerOfTwo(cap) && cap >= 2 * capacity && (capacity > 0 ==> cap < 4 * capacity)
    {
      cap := 1;
      while cap < capacity * 2
        invariant cap >= 1 && PowerOfTwo(cap) && (capacity > 0 ==> cap < 4 * capacity)
        decreases capacity * 2 - cap
      {
        cap := cap * 2;
      }
    }

    /** An empty history, and a table of at least twice as many slots as tokens expected. */
    method Reset(capacity: nat)
      requires minMatch >= 3
      modifies this
      ensures Valid() && hist == [] && lastMatch == 0 && fresh(table)
      ensures table.Length >= 2 * capacity && forall i | 0 <= i < table.Length :: table[i] == Slot(0, [])
      ensures PowerOfTwo(table.Length) && (capacity > 0 ==> table.Length < 4 * capacity)
    {
      var cap := TableSize(capacity);
      table := new Slot[cap](_ => Slot(0, []));
      hist, lastMatch := [], 0;
      assert forall i | 0 <= i < cap :: table[..][i] == table[i];
    }

    /** The slot of a key: where it is, else the empty one it is put in, else none -- the run is taken. */
    method FindSlot(key: nat, insert: bool) returns (i: int)
      requires table.Length > 0 && key > 0
      modifies table
      ensures -1 <= i < table.Length
      ensures i < 0 ==> table[..] == old(table[..])
      ensures i < 0 ==> !Known(table[..], key) && (insert ==> Passed(table[..], key, Reach(table.Length)))
      ensures i >= 0 ==> exists p: nat :: Found(table[..], key, p) && Idx(key, p, table.Length) == i
      ensures i >= 0 && old(table[i]).key != key ==> insert && Claimed(old(table[..]), table[..], key, i)
      ensures i >= 0 && old(table[i]).key == key ==> table[..] == old(table[..])
    {
      var p := 0;
      var at := Idx(key, 0, table.Length);
      while p < table.Length && p < PROBES
        invariant p <= Reach(table.Length) && at == Idx(key, p, table.Length)
        invariant Passed(table[..], key, p) && table[..] == old(table[..])
        decreases PROBES - p
      {
        if table[at].key == key {
          assert Found(table[..], key, p);
          return at;
        }
        if table[at].key == 0 {
          NoneAfterEmpty(table[..], key, p);
          if !insert { return -1; }
          table[at] := table[at].(key := key);
          Placed(old(table[..]), table[..], at, key, p);
          return at;
        }
        NextIdx(key, p, table.Length);
        at, p := (at + 1) % table.Length, p + 1;
      }
      NoneAfterAll(table[..], key);
      return -1;
    }

    /** The history grows; every trigram that ends in the new part is indexed, if its run has room. */
    method Append(tokens: seq<int>)
      requires Valid()
      modifies this`hist, table
      ensures Valid() && hist == old(hist) + tokens && StillKnown(old(table[..]), table[..])
    {
      for i := 0 to |tokens|
        invariant Valid() && hist == old(hist) + tokens[..i] && StillKnown(old(table[..]), table[..])
      {
        assert tokens[..i + 1] == tokens[..i] + [tokens[i]];
        AppendOne(tokens[i]);
      }
      assert tokens[..|tokens|] == tokens;
    }

    method AppendOne(token: int)
      requires Valid()
      modifies this`hist, table
      ensures Valid() && hist == old(hist) + [token] && StillKnown(old(table[..]), table[..])
    {
      ghost var was, t := hist, table[..];
      hist := hist + [token];
      var end := |hist| - 1;
      if end < 2 || end > LIMIT {
        Unindexed(hash, t, was, token);
        return;
      }
      var key := KeyAt(hash, hist, end);
      var i := FindSlot(key, true);
      if i < 0 {
        RunTaken(hash, t, was, token);
        return;
      }
      var pos := [end] + table[i].pos;
      table[i] := Slot(key, if |pos| > WAYS then pos[..WAYS] else pos);
      Indexed(hash, t, table[..], was, token, i);
      KnownStays(t, table[..], i);
    }

    /** The continuation of the longest earlier match of the history's suffix, the most recent on ties, among the last
        four places its last trigram ended before; nothing if that match is too short, or the trigram is not indexed. */
    method Propose(maxK: int) returns (out: seq<int>, ghost b: Best)
      requires Valid()
      modifies this`lastMatch
      ensures |hist| < 4 || maxK <= 0 ==> out == [] && lastMatch == 0
      ensures |hist| >= 4 && maxK > 0 ==>
        if Known(table[..], KeyAt(hash, hist, |hist| - 1)) then
          && IsBest(hist, Recent(hash, hist, KeyAt(hash, hist, |hist| - 1)), |hist| - 1, maxMatch, b)
          && (b.len < minMatch ==> out == [] && lastMatch == 0)
          && (b.len >= minMatch ==> b.end < |hist| - 1 && lastMatch == b.len && Continues(out, b.end, maxK))
        else out == [] && lastMatch == 0
    {
      lastMatch, out, b := 0, [], Best(0, 0);
      if |hist| < 4 || maxK <= 0 { return; }
      var cur := |hist| - 1;
      var i := Find(KeyAt(hash, hist, cur));
      if i < 0 { return; }
      assert Known(table[..], KeyAt(hash, hist, cur));
      var end, len := BestOf(table[i].pos, cur);
      b := Best(end, len);
      if len < minMatch { return; }
      lastMatch := len;
      out := Continuation(end, maxK);
    }

    /** What followed `end` in the history, up to the present, at most maxK tokens. */
    ghost predicate Continues(out: seq<int>, end: nat, maxK: int)
      reads this
    {
      end < |hist| && |out| == (if |hist| - 1 - end < maxK then |hist| - 1 - end else maxK) && out <= hist[end + 1..]
    }

    method Continuation(end: nat, maxK: int) returns (out: seq<int>)
      requires end < |hist| - 1 && maxK > 0
      ensures Continues(out, end, maxK)
    {
      out := [];
      var q := end + 1;
      while q <= |hist| - 1 && |out| < maxK
        invariant end + 1 <= q <= |hist| && out == hist[end + 1..q] && |out| <= maxK
      {
        out := out + [hist[q]];
        q := q + 1;
      }
    }

    /** A lookup that inserts nothing. */
    method Find(key: nat) returns (i: int)
      requires Valid() && key > 0
      ensures -1 <= i < table.Length
      ensures i >= 0 <==> Known(table[..], key)
      ensures i >= 0 ==> table[i].key == key && table[i].pos == Recent(hash, hist, key)
    {
      var p := 0;
      var at := Idx(key, 0, table.Length);
      while p < table.Length && p < PROBES
        invariant p <= Reach(table.Length) && at == Idx(key, p, table.Length) && Passed(table[..], key, p)
        decreases PROBES - p
      {
        if table[at].key == key {
          assert Found(table[..], key, p);
          assert table[..][at].pos == Recent(hash, hist, key);
          return at;
        }
        if table[at].key == 0 {
          NoneAfterEmpty(table[..], key, p);
          return -1;
        }
        NextIdx(key, p, table.Length);
        at, p := (at + 1) % table.Length, p + 1;
      }
      NoneAfterAll(table[..], key);
      return -1;
    }

    /** The candidate with the longest match, the first on ties. */
    method BestOf(es: seq<nat>, cur: nat) returns (end: nat, len: nat)
      requires cur < |hist|
      ensures IsBest(hist, es, cur, maxMatch, Best(end, len)) && (len > 0 ==> end < cur)
    {
      end, len := 0, 0;
      ghost var best := -1;
      for w := 0 to |es|
        invariant forall i | 0 <= i < w && es[i] < cur :: MatchLen(hist, es[i], cur, maxMatch) <= len
        invariant len > 0 ==> best < w && FirstBest(hist, es, cur, maxMatch, Best(end, len), best)
      {
        var p := es[w];
        if p >= cur { continue; }
        var l := 0;
        while l < maxMatch && l <= p && hist[p - l] == hist[cur - l]
          invariant l <= maxMatch && l <= p + 1
              && MatchFrom(hist, p, cur, maxMatch, 0) == MatchLen(hist, p, cur, maxMatch)
          invariant forall i: nat | i < l :: SameBack(hist, p, cur, i)
        {
          l := l + 1;
        }
        MatchIs(hist, p, cur, maxMatch, l);
        if l > len { len, end, best := l, p, w; }
      }
    }
  }

  /** The match length is the one number of tokens that agree up to the first that does not. */
  lemma MatchIs(hist: seq<int>, p: nat, cur: nat, cap: nat, len: nat)
    requires p <= cur < |hist| && len <= cap && len <= p + 1
    requires forall i: nat | i < len :: SameBack(hist, p, cur, i)
    requires len < cap && len <= p ==> hist[p - len] != hist[cur - len]
    ensures MatchLen(hist, p, cur, cap) == len
  {
    var m := MatchLen(hist, p, cur, cap);
    assert m < len ==> SameBack(hist, p, cur, m);
    assert m > len ==> SameBack(hist, p, cur, len);
  }

  // ---------------------------------------------------------------- one token more

  /** A token too early or too late to be indexed. */
  lemma Unindexed(hash: (int, int, int) -> nat, t: seq<Slot>, hist: seq<int>, token: int)
    requires TableOk(hash, t, hist) && (|hist| < 2 || |hist| > LIMIT)
    ensures TableOk(hash, t, hist + [token])
  {
    forall i: nat | i < |t| && t[i].key != 0 ensures t[i].pos == Recent(hash, hist + [token], t[i].key) {
      if |hist| >= 2 { RecentExtend(hash, hist, token, t[i].key); }
    }
    forall e: nat | 2 <= e < |hist| + 1 && e <= LIMIT ensures Decided(t, KeyAt(hash, hist + [token], e)) {
      assert KeyAt(hash, hist + [token], e) == KeyAt(hash, hist, e);
    }
  }

  /** A token whose trigram finds its run taken by others. */
  lemma RunTaken(hash: (int, int, int) -> nat, t: seq<Slot>, hist: seq<int>, token: int)
    requires TableOk(hash, t, hist) && 2 <= |hist| <= LIMIT
    requires var key := KeyAt(hash, hist + [token], |hist|); Passed(t, key, Reach(|t|)) && !Known(t, key)
    ensures TableOk(hash, t, hist + [token])
  {
    var more := hist + [token];
    var key := KeyAt(hash, more, |hist|);
    forall i: nat | i < |t| && t[i].key != 0 ensures t[i].pos == Recent(hash, more, t[i].key) {
      RecentExtend(hash, hist, token, t[i].key);
    }
    forall e: nat | 2 <= e < |more| && e <= LIMIT ensures Decided(t, KeyAt(hash, more, e)) {
      if e < |hist| { assert KeyAt(hash, more, e) == KeyAt(hash, hist, e); }
    }
  }

  /** A key no end has had so far. */
  lemma NeverSeen(hash: (int, int, int) -> nat, t: seq<Slot>, hist: seq<int>, key: nat, p: nat)
    requires TableOk(hash, t, hist) && !Known(t, key) && p < Reach(|t|) && t[Idx(key, p, |t|)].key == 0
    ensures Recent(hash, hist, key) == []
  {
    var es := Ends(hash, hist, key, |hist|);
    forall e: nat | 2 <= e < |hist| && e <= LIMIT ensures KeyAt(hash, hist, e) != key {
      assert Decided(t, KeyAt(hash, hist, e));
    }
    EndsNone(hash, hist, key, |hist|);
  }

  lemma {:induction false} EndsNone(hash: (int, int, int) -> nat, hist: seq<int>, key: nat, upto: nat)
    requires upto <= |hist| && forall e: nat | 2 <= e < upto && e <= LIMIT :: KeyAt(hash, hist, e) != key
    ensures Ends(hash, hist, key, upto) == []
  {
    if upto > 2 { EndsNone(hash, hist, key, upto - 1); }
  }

  /** A token whose trigram has a slot, old or new. */
  lemma Indexed(hash: (int, int, int) -> nat, t: seq<Slot>, u: seq<Slot>, hist: seq<int>, token: int, i: int)
    requires TableOk(hash, t, hist) && 2 <= |hist| <= LIMIT && 0 <= i < |t|
    requires var key := KeyAt(hash, hist + [token], |hist|);
      && u == t[i := Slot(key, Take([|hist|] + t[i].pos, WAYS))]
      && (Claimed(t, t[i := t[i].(key := key)], key, i) || (exists p: nat :: Found(t, key, p) && Idx(key, p, |t|) == i))
    ensures TableOk(hash, u, hist + [token])
  {
    var more := hist + [token];
    var key := KeyAt(hash, more, |hist|);
    assert t[i].pos == Recent(hash, hist, key) && (t[i].key == 0 || t[i].key == key) && exists p: nat ::
        Found(u, key, p) && Idx(key, p, |u|) == i by {
      SlotFor(hash, t, u, hist, key, i);
    }
    hide Recent, Found, KeyAt;
    forall j: nat | j < |u| && u[j].key != 0 ensures SlotOk(hash, u, more, j) {
      if j == i { RecentExtend(hash, hist, token, key); } else { OtherSlot(hash, t, u, hist, token, key, i, j); }
    }
    forall e: nat | 2 <= e < |more| && e <= LIMIT ensures Decided(u, KeyAt(hash, more, e)) {
      if e < |hist| { OtherKey(hash, t, u, hist, token, key, i, e); }
    }
  }

  /** A used slot holds its key's ends and is where the key is found. */
  ghost predicate SlotOk(hash: (int, int, int) -> nat, t: seq<Slot>, hist: seq<int>, j: nat)
    requires j < |t|
  {
    t[j].pos == Recent(hash, hist, t[j].key) && exists p: nat :: Found(t, t[j].key, p) && Idx(t[j].key, p, |t|) == j
  }

  lemma OtherSlot(hash: (int, int, int) -> nat, t: seq<Slot>, u: seq<Slot>, hist: seq<int>, token: int, key: nat,
          i: int, j: nat)
    requires TableOk(hash, t, hist) && 2 <= |hist| && 0 <= i < |t| && key > 0 && |u| == |t| && u == t[i := u[i]]
    requires u[i].key == key == KeyAt(hash, hist + [token], |hist|) && (t[i].key == 0 || t[i].key == key)
    requires exists p: nat :: Found(u, key, p) && Idx(key, p, |u|) == i
    requires j < |t| && j != i && t[j].key != 0
    ensures SlotOk(hash, u, hist + [token], j)
  {
    RecentExtend(hash, hist, token, t[j].key);
    var p: nat :| Found(t, t[j].key, p) && Idx(t[j].key, p, |t|) == j;
    if t[j].key == key { OnlyThere(t, u, key, i, j, p); }
    OthersStay(t, u, i, t[j].key, p);
  }

  lemma OtherKey(hash: (int, int, int) -> nat, t: seq<Slot>, u: seq<Slot>, hist: seq<int>, token: int, key: nat,
          i: int, e: nat)
    requires TableOk(hash, t, hist) && 0 <= i < |t| && key > 0 && |u| == |t| && u == t[i := u[i]]
    requires u[i].key == key && (t[i].key == 0 || t[i].key == key)
    requires exists p: nat :: Found(u, key, p) && Idx(key, p, |u|) == i
    requires 2 <= e < |hist| && e <= LIMIT
    ensures Decided(u, KeyAt(hash, hist + [token], e))
  {
    var k := KeyAt(hash, hist, e);
    assert KeyAt(hash, hist + [token], e) == k && Decided(t, k);
    if k != key { DecidedStays(t, u, i, k); }
  }

  /** The slot held the key's earlier ends: none if it was empty. */
  lemma SlotFor(hash: (int, int, int) -> nat, t: seq<Slot>, u: seq<Slot>, hist: seq<int>, key: nat, i: int)
    requires TableOk(hash, t, hist) && 0 <= i < |t| && key > 0 && |u| == |t| && u == t[i := u[i]] && u[i].key == key
    requires Claimed(t, t[i := t[i].(key := key)], key, i)
        || (exists p: nat :: Found(t, key, p) && Idx(key, p, |t|) == i)
    ensures t[i].pos == Recent(hash, hist, key) && (t[i].key == 0 || t[i].key == key)
    ensures exists p: nat :: Found(u, key, p) && Idx(key, p, |u|) == i
  {
    if exists p: nat :: Found(t, key, p) && Idx(key, p, |t|) == i {
      var p: nat :| Found(t, key, p) && Idx(key, p, |t|) == i;
      OthersStay(t, u, i, key, p);
    } else {
      var p: nat :| p < Reach(|t|) && Passed(t, key, p) && Idx(key, p, |t|) == i;
      NeverSeen(hash, t, hist, key, p);
      assert Found(u, key, p);
    }
  }

  /** No other slot has the key. */
  lemma OnlyThere(t: seq<Slot>, u: seq<Slot>, key: nat, i: int, j: nat, p: nat)
    requires Found(t, key, p) && Idx(key, p, |t|) == j && 0 <= i < |t| && |u| == |t| && u == t[i := u[i]]
        && u[i].key == key && (t[i].key == 0 || t[i].key == key)
    requires exists q: nat :: Found(u, key, q) && Idx(key, q, |u|) == i
    ensures j == i
  {
  }

  /** A key once indexed is found by every later lookup. */
  lemma KnownStays(t: seq<Slot>, u: seq<Slot>, i: int)
    requires 0 <= i < |t| && |u| == |t| && u == t[i := u[i]] && u[i].key != 0 && (t[i].key == 0 || t[i].key == u[i].key)
    requires Known(u, u[i].key)
    ensures StillKnown(t, u)
  {
    forall key: nat | key > 0 && Known(t, key) ensures Known(u, key) {
      var p: nat :| Found(t, key, p);
      if key != u[i].key { OthersStay(t, u, i, key, p); }
    }
  }

  lemma DecidedStays(t: seq<Slot>, u: seq<Slot>, i: int, key: nat)
    requires Decided(t, key) && 0 <= i < |t| && |u| == |t| && u == t[i := u[i]] && u[i].key != 0
        && (t[i].key == 0 || t[i].key == u[i].key)
    requires key > 0 && key != u[i].key
    ensures Decided(u, key)
  {
    if Known(t, key) {
      var p: nat :| Found(t, key, p);
      OthersStay(t, u, i, key, p);
    } else {
      OthersStay(t, u, i, key, Reach(|t|));
    }
  }

  lemma NextIdx(key: nat, p: nat, cap: nat)
    requires cap > 0
    ensures (Idx(key, p, cap) + 1) % cap == Idx(key, p + 1, cap)
  {
    ModNext(key % cap + p, cap);
  }

  lemma NoneAfterEmpty(t: seq<Slot>, key: nat, p: nat)
    requires Passed(t, key, p) && t[Idx(key, p, |t|)].key == 0 && key > 0
    ensures !Known(t, key)
  {
  }

  lemma NoneAfterAll(t: seq<Slot>, key: nat)
    requires Passed(t, key, Reach(|t|)) && key > 0
    ensures !Known(t, key)
  {
  }

  lemma Placed(t: seq<Slot>, u: seq<Slot>, at: nat, key: nat, p: nat)
    requires Passed(t, key, p) && p < Reach(|t|) && at == Idx(key, p, |t|) && key > 0
    requires t[at].key == 0 && u == t[at := t[at].(key := key)]
    ensures Found(u, key, p)
  {
  }
}
