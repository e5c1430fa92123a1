/**
 * Which attached files count as text, and where a long one is cut.
 *
 * `WellFormed` is the grammar of section 4 of RFC 3629; `Encode` is the table of its
 * section 3. The two agree, and the gate accepts exactly the grammar's strings without a
 * zero byte.
 */
module Utf8Gate {

  type Byte = bv8

  // ---------------------------------------------------------------- section 4

  predicate Tail(b: Byte) {
    0x80 <= b <= 0xBF
  }

  predicate Utf8Char(s: seq<Byte>) {
    || (|s| == 1 && s[0] <= 0x7F)
    || (|s| == 2 && 0xC2 <= s[0] <= 0xDF && Tail(s[1]))
    || (|s| == 3 && Tail(s[2])
        && (   (s[0] == 0xE0 && 0xA0 <= s[1] <= 0xBF)
            || (0xE1 <= s[0] <= 0xEC && Tail(s[1]))
            || (s[0] == 0xED && 0x80 <= s[1] <= 0x9F)
            || (0xEE <= s[0] <= 0xEF && Tail(s[1]))))
    || (|s| == 4 && Tail(s[2]) && Tail(s[3])
        && (   (s[0] == 0xF0 && 0x90 <= s[1] <= 0xBF)
            || (0xF1 <= s[0] <= 0xF3 && Tail(s[1]))
            || (s[0] == 0xF4 && 0x80 <= s[1] <= 0x8F)))
  }

  /** A sequence of characters: `k` is the length of the first. */
  predicate WellFormed(s: seq<Byte>)
    decreases |s|
  {
    s == [] || exists k :: 1 <= k <= 4 && k <= |s| && Utf8Char(s[..k]) && WellFormed(s[k..])
  }

  // ---------------------------------------------------------------- section 3

  /** The code points a character may stand for: no surrogates, nothing past U+10FFFF. */
  predicate Scalar(cp: bv32) {
    cp <= 0x10FFFF && !(0xD800 <= cp <= 0xDFFF)
  }

  function Low(x: bv32): Byte {
    (x & 0xFF) as bv8
  }

  /** The first byte of a character of two, three or four. */
  function Lead(cp: bv32, mark: bv32, shift: bv32): Byte {
    Low(mark | Right(cp, shift))
  }

  /** A following byte: six bits of the code point. */
  function Next(cp: bv32, shift: bv32): Byte {
    Low(0x80 | (Right(cp, shift) & 0x3F))
  }

  function Right(cp: bv32, shift: bv32): bv32 {
    if shift == 0 then cp else if shift == 6 then cp >> 6 else if shift == 12 then cp >> 12 else cp >> 18
  }

  function Encode(cp: bv32): seq<Byte> {
    if cp <= 0x7F then [Low(cp)]
    else if cp <= 0x7FF then [Lead(cp, 0xC0, 6), Next(cp, 0)]
    else if cp <= 0xFFFF then [Lead(cp, 0xE0, 12), Next(cp, 6), Next(cp, 0)]
    else [Lead(cp, 0xF0, 18), Next(cp, 12), Next(cp, 6), Next(cp, 0)]
  }

  function Wide(b: Byte): bv32 {
    b as bv32
  }

  function Two(a: Byte, b: Byte): bv32 {
    ((Wide(a) & 0x1F) << 6) | (Wide(b) & 0x3F)
  }

  function Three(a: Byte, b: Byte, c: Byte): bv32 {
    ((Wide(a) & 0x0F) << 12) | ((Wide(b) & 0x3F) << 6) | (Wide(c) & 0x3F)
  }

  function Four(a: Byte, b: Byte, c: Byte, d: Byte): bv32 {
    ((Wide(a) & 0x07) << 18) | ((Wide(b) & 0x3F) << 12) | ((Wide(c) & 0x3F) << 6) | (Wide(d) & 0x3F)
  }

  function Decode(s: seq<Byte>): bv32 {
    if |s| == 1 then Wide(s[0])
    else if |s| == 2 then Two(s[0], s[1])
    else if |s| == 3 then Three(s[0], s[1], s[2])
    else if |s| == 4 then Four(s[0], s[1], s[2], s[3])
    else 0
  }

  lemma OneFits(a: Byte)
    requires a <= 0x7F
    ensures Wide(a) <= 0x7F && Low(Wide(a)) == a
  {
  }

  lemma TwoFits(a: Byte, b: Byte)
    requires 0xC2 <= a <= 0xDF && Tail(b)
    ensures 0x7F < Two(a, b) <= 0x7FF
    ensures Lead(Two(a, b), 0xC0, 6) == a && Next(Two(a, b), 0) == b
  {
  }

  lemma ThreeFits(a: Byte, b: Byte, c: Byte)
    requires 0xE0 <= a <= 0xEF && Tail(b) && Tail(c) && (a == 0xE0 ==> b >= 0xA0)
    ensures 0x7FF < Three(a, b, c) <= 0xFFFF
    ensures 0xD800 <= Three(a, b, c) <= 0xDFFF <==> a == 0xED && b >= 0xA0
    ensures Lead(Three(a, b, c), 0xE0, 12) == a && Next(Three(a, b, c), 6) == b && Next(Three(a, b, c), 0) == c
  {
  }

  lemma FourFits(a: Byte, b: Byte, c: Byte, d: Byte)
    requires 0xF0 <= a <= 0xF4 && Tail(b) && Tail(c) && Tail(d) && (a == 0xF0 ==> b >= 0x90) && (a == 0xF4 ==> b < 0x90)
    ensures 0xFFFF < Four(a, b, c, d) <= 0x10FFFF
    ensures Lead(Four(a, b, c, d), 0xF0, 18) == a && Next(Four(a, b, c, d), 12) == b
    ensures Next(Four(a, b, c, d), 6) == c && Next(Four(a, b, c, d), 0) == d
  {
  }

  /** The grammar's characters are encodings of code points. */
  lemma CharIsCodePoint(s: seq<Byte>)
    requires Utf8Char(s)
    ensures Scalar(Decode(s)) && Encode(Decode(s)) == s
  {
    if |s| == 1 {
      OneFits(s[0]);
    } else if |s| == 2 {
      TwoFits(s[0], s[1]);
    } else if |s| == 3 {
      ThreeFits(s[0], s[1], s[2]);
    } else {
      FourFits(s[0], s[1], s[2], s[3]);
    }
  }

  lemma OneBack(cp: bv32)
    requires cp <= 0x7F
    ensures Low(cp) <= 0x7F && Wide(Low(cp)) == cp
  {
  }

  lemma TwoBack(cp: bv32)
    requires 0x7F < cp <= 0x7FF
    ensures 0xC2 <= Lead(cp, 0xC0, 6) <= 0xDF && Tail(Next(cp, 0))
    ensures Two(Lead(cp, 0xC0, 6), Next(cp, 0)) == cp
  {
  }

  lemma ThreeBack(cp: bv32)
    requires 0x7FF < cp <= 0xFFFF && !(0xD800 <= cp <= 0xDFFF)
    ensures Utf8Char([Lead(cp, 0xE0, 12), Next(cp, 6), Next(cp, 0)])
    ensures Three(Lead(cp, 0xE0, 12), Next(cp, 6), Next(cp, 0)) == cp
  {
  }

  lemma FourBack(cp: bv32)
    requires 0xFFFF < cp <= 0x10FFFF
    ensures Utf8Char([Lead(cp, 0xF0, 18), Next(cp, 12), Next(cp, 6), Next(cp, 0)])
    ensures Four(Lead(cp, 0xF0, 18), Next(cp, 12), Next(cp, 6), Next(cp, 0)) == cp
  {
  }

  /** And every code point's encoding is one of them. */
  lemma CodePointIsChar(cp: bv32)
    requires Scalar(cp)
    ensures Utf8Char(Encode(cp)) && Decode(Encode(cp)) == cp
  {
    if cp <= 0x7F {
      OneBack(cp);
    } else if cp <= 0x7FF {
      TwoBack(cp);
    } else if cp <= 0xFFFF {
      ThreeBack(cp);
    } else {
      FourBack(cp);
    }
  }

  function EncodeAll(cps: seq<bv32>): seq<Byte> {
    if cps == [] then [] else Encode(cps[0]) + EncodeAll(cps[1..])
  }

  predicate Scalars(cps: seq<bv32>) {
    forall i :: 0 <= i < |cps| ==> Scalar(cps[i])
  }

  lemma CharFirst(c: seq<Byte>, rest: seq<Byte>)
    requires Utf8Char(c) && WellFormed(rest)
    ensures WellFormed(c + rest)
  {
    assert (c + rest)[..|c|] == c && (c + rest)[|c|..] == rest;
  }

  lemma {:induction false} EncodedIsWellFormed(cps: seq<bv32>)
    requires Scalars(cps)
    ensures WellFormed(EncodeAll(cps))
  {
    if cps != [] {
      CodePointIsChar(cps[0]);
      EncodedIsWellFormed(cps[1..]);
      CharFirst(Encode(cps[0]), EncodeAll(cps[1..]));
    }
  }

  lemma {:induction false} WellFormedIsEncoded(s: seq<Byte>) returns (cps: seq<bv32>)
    requires WellFormed(s)
    ensures Scalars(cps) && EncodeAll(cps) == s
    decreases |s|
  {
    cps := [];
    if s != [] {
      FirstChar(s);
      var k := LeadLength(s[0]);
      var rest := WellFormedIsEncoded(s[k..]);
      CharIsCodePoint(s[..k]);
      EncodeCons(Decode(s[..k]), rest);
      cps := [Decode(s[..k])] + rest;
      Rejoined(s, k);
    }
  }

  lemma EncodeCons(cp: bv32, rest: seq<bv32>)
    ensures EncodeAll([cp] + rest) == Encode(cp) + EncodeAll(rest)
  {
    assert ([cp] + rest)[1..] == rest;
  }

  lemma Rejoined(s: seq<Byte>, k: nat)
    requires k <= |s|
    ensures s[..k] + s[k..] == s
  {
  }

  /** The grammar's strings are the encodings of sequences of code points. */
  lemma GrammarIsEncoding(s: seq<Byte>)
    ensures WellFormed(s) <==> exists cps :: Scalars(cps) && EncodeAll(cps) == s
  {
    if WellFormed(s) {
      var cps := WellFormedIsEncoded(s);
    }
    forall cps | Scalars(cps) && EncodeAll(cps) == s ensures WellFormed(s) {
      EncodedIsWellFormed(cps);
    }
  }

  // ---------------------------------------------------------------- the first character

  /** How long a character is, from its first byte; zero for a byte none begins with. */
  function LeadLength(c: Byte): nat {
    if c < 0x80 then 1
    else if 0xC2 <= c <= 0xDF then 2
    else if 0xE0 <= c <= 0xEF then 3
    else if 0xF0 <= c <= 0xF4 then 4
    else 0
  }

  lemma CharLength(c: seq<Byte>)
    requires Utf8Char(c)
    ensures |c| == LeadLength(c[0]) && !Tail(c[0])
    ensures forall i :: 1 <= i < |c| ==> Tail(c[i])
  {
  }

  /** A non-empty well-formed string splits in one way only. */
  lemma FirstChar(s: seq<Byte>)
    requires s != []
    ensures var k := LeadLength(s[0]);
            WellFormed(s) <==> k >= 1 && k <= |s| && Utf8Char(s[..k]) && WellFormed(s[k..])
  {
    if WellFormed(s) {
      var k :| 1 <= k <= 4 && k <= |s| && Utf8Char(s[..k]) && WellFormed(s[k..]);
      CharLength(s[..k]);
    }
  }

  /** The masks of the code. */
  lemma TailMask(b: Byte)
    ensures (b & 0xC0) == 0x80 <==> Tail(b)
  {
  }

  // ---------------------------------------------------------------- the gate

  predicate HasBom(d: seq<Byte>) {
    |d| >= 3 && d[0] == 0xEF && d[1] == 0xBB && d[2] == 0xBF
  }

  function Body(d: seq<Byte>): seq<Byte> {
    if HasBom(d) then d[3..] else d
  }

  predicate Text(s: seq<Byte>) {
    WellFormed(s) && 0 !in s
  }

  /** One step of the scan: what is left is text exactly when a character without a zero byte stands at its front and
      the rest is text. */
  lemma TextStep(s: seq<Byte>)
    requires s != []
    ensures var k := LeadLength(s[0]);
            Text(s) <==> s[0] != 0 && k >= 1 && k <= |s| && Utf8Char(s[..k]) && Text(s[k..])
  {
    FirstChar(s);
    var k := LeadLength(s[0]);
    if k >= 1 && k <= |s| && Utf8Char(s[..k]) {
      CharLength(s[..k]);
      assert s == s[..k] + s[k..];
      assert 0 in s[..k] ==> s[0] == 0;
    }
  }

  method LooksLikeText(d: seq<Byte>) returns (ok: bool)
    ensures ok <==> Text(Body(d))
  {
    var n := |d|;
    var i := if n >= 3 && d[0] == 0xEF && d[1] == 0xBB && d[2] == 0xBF then 3 else 0;
    assert d[0..] == d;
    while i < n
      invariant 0 <= i <= n
      invariant Text(Body(d)) <==> Text(d[i..])
    {
      ghost var s := d[i..];
      TextStep(s);
      var c := d[i];
      if c == 0 {
        return false;
      }
      if c < 0x80 {
        assert s[1..] == d[i + 1..];
        i := i + 1;
        continue;
      }
      var len := if c >= 0xC2 && c <= 0xDF then 2 else if c >= 0xE0 && c <= 0xEF then 3
                 else if c >= 0xF0 && c <= 0xF4 then 4 else 0;
      if len == 0 || i + len > n {
        return false;
      }
      var tails := TailsAt(d, i, len);
      assert s[..len][1..] == d[i + 1..i + len] && s[..len][0] == c;
      if !tails {
        TailsNeeded(s[..len]);
        return false;
      }
      if (c == 0xE0 && d[i + 1] < 0xA0) || (c == 0xED && d[i + 1] >= 0xA0)
         || (c == 0xF0 && d[i + 1] < 0x90) || (c == 0xF4 && d[i + 1] >= 0x90) {
        assert s[..len][1] == d[i + 1];
        assert !Utf8Char(s[..len]);
        return false;
      }
      CharAt(s[..len], c, len);
      assert s[len..] == d[i + len..];
      i := i + len;
    }
    return true;
  }

  lemma CharAt(s: seq<Byte>, c: Byte, len: nat)
    requires |s| == len && len >= 2 && s[0] == c && LeadLength(c) == len
    requires AllTails(s[1..])
    requires !(c == 0xE0 && s[1] < 0xA0) && !(c == 0xED && s[1] >= 0xA0)
    requires !(c == 0xF0 && s[1] < 0x90) && !(c == 0xF4 && s[1] >= 0x90)
    ensures Utf8Char(s)
  {
    assert forall k :: 1 <= k < len ==> s[k] == s[1..][k - 1];
  }

  lemma TailsNeeded(s: seq<Byte>)
    requires s != [] && !AllTails(s[1..])
    ensures !Utf8Char(s)
  {
    if Utf8Char(s) {
      CharLength(s);
    }
  }

  predicate AllTails(s: seq<Byte>) {
    forall k :: 0 <= k < |s| ==> Tail(s[k])
  }

  method TailsAt(d: seq<Byte>, i: nat, len: nat) returns (ok: bool)
    requires 1 <= len && i + len <= |d|
    ensures ok <==> AllTails(d[i + 1..i + len])
  {
    ghost var s := d[i + 1..i + len];
    var k := 1;
    while k < len
      invariant 1 <= k <= len
      invariant AllTails(s[..k - 1])
    {
      TailMask(d[i + k]);
      assert s[k - 1] == d[i + k];
      if (d[i + k] & 0xC0) != 0x80 {
        return false;
      }
      k := k + 1;
    }
    assert s[..k - 1] == s;
    return true;
  }

  // ---------------------------------------------------------------- the cut

  /** A prefix of well-formed text is well-formed exactly where a character begins. */
  lemma {:induction false} PrefixIff(s: seq<Byte>, t: nat)
    requires WellFormed(s) && t <= |s|
    ensures WellFormed(s[..t]) <==> t == |s| || !Tail(s[t])
    decreases |s|
  {
    if s == [] {
      assert s[..t] == s;
    } else {
      FirstChar(s);
      var k := LeadLength(s[0]);
      CharLength(s[..k]);
      if t == 0 {
        assert s[..t] == [];
      } else if t < k {
        FirstChar(s[..t]);
        assert s[..k][t] == s[t];
      } else {
        PrefixIff(s[k..], t - k);
        PrefixStep(s, k, t);
      }
    }
  }

  lemma PrefixStep(s: seq<Byte>, k: nat, t: nat)
    requires 1 <= k <= t <= |s| && k == LeadLength(s[0]) && Utf8Char(s[..k])
    ensures WellFormed(s[..t]) <==> WellFormed(s[k..][..t - k])
  {
    FirstChar(s[..t]);
    assert s[..t][..k] == s[..k] && s[..t][k..] == s[k..][..t - k];
  }

  lemma FirstNotTail(s: seq<Byte>, k: nat)
    requires k < |s| && WellFormed(s[k..])
    ensures !Tail(s[k])
  {
    FirstChar(s[k..]);
    CharLength(s[k..][..LeadLength(s[k])]);
  }

  /** Following bytes come at most three in a row. */
  lemma {:induction false} TailRun(s: seq<Byte>, a: nat, b: nat)
    requires WellFormed(s) && a <= b <= |s|
    requires forall x :: a <= x < b ==> Tail(s[x])
    ensures b - a <= 3
    decreases |s|
  {
    if s != [] {
      FirstChar(s);
      var k := LeadLength(s[0]);
      CharLength(s[..k]);
      if a >= k {
        assert forall x :: a - k <= x < b - k ==> s[k..][x] == s[x + k];
        TailRun(s[k..], a - k, b - k);
      } else if k < |s| {
        FirstNotTail(s, k);
      }
    }
  }

  /** What a file becomes in the prompt. */
  datatype Piece = Header(name: string) | Bytes(bytes: seq<Byte>) | Newline | Notice(take: nat,
      of: nat) | Footer(name: string)

  function Least(a: nat, b: nat): nat {
    if a <= b then a else b
  }

  /** The cut of accepted text: the longest well-formed prefix within the cap, and at most three bytes short of it. */
  predicate GoodCut(s: seq<Byte>, cap: nat, take: nat) {
    && take <= |s| && take <= cap
    && WellFormed(s[..take])
    && Least(|s|, cap) - take <= 3
    && forall t :: take < t <= Least(|s|, cap) ==> !WellFormed(s[..t])
  }

  method CutAt(s: seq<Byte>, cap: nat) returns (take: nat)
    ensures take <= Least(|s|, cap)
    ensures WellFormed(s) ==> GoodCut(s, cap, take)
  {
    var n := |s|;
    take := Least(n, cap);
    while take < n && take > 0 && (s[take] & 0xC0) == 0x80
      invariant take <= Least(n, cap)
      decreases take
      invariant take < Least(n, cap) ==> Least(n, cap) < n
      invariant forall x :: take < x <= Least(n, cap) && x < n ==> Tail(s[x])
    {
      TailMask(s[take]);
      take := take - 1;
    }
    if take < n {
      TailMask(s[take]);
    }
    if WellFormed(s) {
      CutIsGood(s, cap, take);
    }
  }

  lemma CutIsGood(s: seq<Byte>, cap: nat, take: nat)
    requires WellFormed(s) && take <= Least(|s|, cap)
    requires take == |s| || take == 0 || !Tail(s[take])
    requires take < Least(|s|, cap) ==> Least(|s|, cap) < |s|
    requires forall x :: take < x <= Least(|s|, cap) && x < |s| ==> Tail(s[x])
    ensures GoodCut(s, cap, take)
  {
    PrefixIff(s, take);
    assert s[..0] == [];
    forall t | take < t <= Least(|s|, cap) ensures !WellFormed(s[..t]) {
      PrefixIff(s, t);
    }
    if take < Least(|s|, cap) {
      TailRun(s, take + 1, Least(|s|, cap) + 1);
    }
  }

  /** For text the gate has accepted, whole characters only reach the prompt. */
  method AppendFile(out: seq<Piece>, name: string, d: seq<Byte>, cap: nat) returns (r: seq<Piece>, take: nat)
    ensures take <= Least(|Body(d)|, cap) && (Text(Body(d)) ==> GoodCut(Body(d), cap, take))
    ensures r == out + [Header(name), Bytes(Body(d)[..take])]
                 + (if take > 0 && Body(d)[take - 1] != 0x0A then [Newline] else [])
                 + (if take < |Body(d)| then [Notice(take, |Body(d)|)] else [])
                 + [Footer(name)]
  {
    var s := d;
    if |d| >= 3 && d[0] == 0xEF && d[1] == 0xBB && d[2] == 0xBF {
      s := d[3..];
    }
    var n := |s|;
    take := CutAt(s, cap);
    r := out + [Header(name), Bytes(s[..take])];
    if take > 0 && s[take - 1] != 0x0A {
      r := r + [Newline];
    }
    if take < n {
      r := r + [Notice(take, n)];
    }
    r := r + [Footer(name)];
  }
}
