/**
 The bit set of the checker: a set of operation ids packed into 64-bit words, and proved to be that set.
 */
module Bitset {
  // `Elements` gives the set of naturals that a sequence of words stands for; every operation is specified
  // against it.

  // ----- one word ---------------------------------------------------------------------------

  /** `pos % 64` as a shift amount: a 6-bit counter, which wraps at 64. */
  function Minor(pos: nat): (r: bv6) {
    if pos == 0 then 0 else Minor(pos - 1) + 1
  }

  predicate BitAt(w: bv64, minor: bv6) {
    (w >> minor) & 1 == 1
  }

  predicate Bit(w: bv64, pos: nat) {
    BitAt(w, Minor(pos))
  }

  /** `x` is `w` with bit `m` set, and nothing else changed. */
  ghost predicate WithBit(w: bv64, x: bv64, m: bv6) {
    forall k: bv6 :: BitAt(x, k) <==> k == m || BitAt(w, k)
  }

  /** `x` is `w` with bit `m` cleared, and nothing else changed. */
  ghost predicate WithoutBit(w: bv64, x: bv64, m: bv6) {
    forall k: bv6 :: BitAt(x, k) <==> k != m && BitAt(w, k)
  }

  method OrShifted(w: bv64, m: bv6) returns (x: bv64)
    ensures WithBit(w, x, m)
  {
    x := w | (1 << m);
    forall k: bv6 ensures BitAt(x, k) <==> k == m || BitAt(w, k) { SetAt(w, m, k); }
  }

  method AndNotShifted(w: bv64, m: bv6) returns (x: bv64)
    ensures WithoutBit(w, x, m)
  {
    x := w & !(1 << m);
    forall k: bv6 ensures BitAt(x, k) <==> k != m && BitAt(w, k) { ClearAt(w, m, k); }
  }

  lemma SetAt(w: bv64, m: bv6, k: bv6)
    ensures BitAt(w | (1 << m), k) <==> k == m || BitAt(w, k)
  {}

  lemma ClearAt(w: bv64, m: bv6, k: bv6)
    ensures BitAt(w & !(1 << m), k) <==> k != m && BitAt(w, k)
  {}

  lemma XorAt(w: bv64, v: bv64, k: bv6)
    ensures BitAt(w ^ v, k) <==> BitAt(w, k) != BitAt(v, k)
  {}

  lemma XorNonzero(w: bv64, v: bv64)
    requires w != v
    ensures w ^ v != 0
  {}

  /** A nonzero word has a set bit, found by halving. */
  lemma SomeBit(d: bv64) returns (k: bv6)
    requires d != 0
    ensures BitAt(d, k)
  {
    k := 0;
    var e := d;
    if e & 0xFFFF_FFFF == 0 { k, e := 32, e >> 32; }
    if e & 0xFFFF == 0 { k, e := k + 16, e >> 16; }
    if e & 0xFF == 0 { k, e := k + 8, e >> 8; }
    if e & 0xF == 0 { k, e := k + 4, e >> 4; }
    if e & 0x3 == 0 { k, e := k + 2, e >> 2; }
    if e & 0x1 == 0 { k, e := k + 1, e >> 1; }
  }

  lemma DifferAt(w: bv64, v: bv64) returns (b: bv6)
    requires w != v
    ensures BitAt(w, b) != BitAt(v, b)
  {
    XorNonzero(w, v);
    b := SomeBit(w ^ v);
    XorAt(w, v, b);
  }

  // ----- shift amounts ------------------------------------------------------------------------

  lemma {:induction false} MinorAdd(a: nat, b: nat)
    ensures Minor(a + b) == Minor(a) + Minor(b)
  {
    if b != 0 { MinorAdd(a, b - 1); }
  }

  /** The counter has not wrapped up to `p`, where it stands at `b`. */
  ghost predicate Counts(p: nat, b: bv6) {
    Minor(p) == b && forall k: nat :: 0 < k < p ==> 0 < Minor(k) < b
  }

  lemma CountsDouble(p: nat, b: bv6)
    requires Counts(p, b) && 0 < b < 32
    ensures Counts(2 * p, 2 * b)
  {
    MinorAdd(p, p);
    forall k: nat | p < k < 2 * p ensures 0 < Minor(k) < 2 * b { MinorAdd(k - p, p); }
  }

  lemma CountsHalf()
    ensures Counts(32, 32) && Minor(64) == 0
  {
    assert Counts(1, 1);
    CountsDouble(1, 1); CountsDouble(2, 2); CountsDouble(4, 4); CountsDouble(8, 8); CountsDouble(16, 16);
    MinorAdd(32, 32);
  }

  lemma MinorNonzero(d: nat)
    requires 0 < d < 64
    ensures Minor(d) != 0
  {
    CountsHalf();
    if d >= 32 { MinorAdd(d - 32, 32); }
  }

  /** Two different positions of one word use different shift amounts. */
  lemma MinorInjective(a: nat, b: nat)
    requires a < b < a + 64
    ensures Minor(a) != Minor(b)
  {
    MinorAdd(a, b - a);
    MinorNonzero(b - a);
  }

  lemma {:induction false} MinorPeriod(a: nat, q: nat)
    ensures Minor(64 * q + a) == Minor(a)
  {
    if q != 0 {
      MinorPeriod(a, q - 1);
      CountsHalf();
      MinorAdd(64 * (q - 1) + a, 64);
    }
  }

  /** Every shift amount is used by some position of word `q`. */
  lemma MinorSurjective(q: nat, b: bv6) returns (pos: nat)
    ensures pos / 64 == q && Minor(pos) == b
  {
    var k, c: bv6 := 0, 0;
    while c != b
      invariant c <= b && Minor(k) == c && 0 <= k < 64
      decreases b - c
    {
      if k == 63 { CountsHalf(); }
      k, c := k + 1, c + 1;
    }
    pos := 64 * q + k;
    MinorPeriod(k, q);
  }

  lemma BitOfSet(w: bv64, x: bv64, m: nat, k: nat)
    requires m / 64 == k / 64 && WithBit(w, x, Minor(m))
    ensures Bit(x, k) <==> k == m || Bit(w, k)
  {
    if m < k { MinorInjective(m, k); } else if k < m { MinorInjective(k, m); }
  }

  lemma BitOfClear(w: bv64, x: bv64, m: nat, k: nat)
    requires m / 64 == k / 64 && WithoutBit(w, x, Minor(m))
    ensures Bit(x, k) <==> k != m && Bit(w, k)
  {
    if m < k { MinorInjective(m, k); } else if k < m { MinorInjective(k, m); }
  }

  // ----- the set a bitset stands for ------------------------------------------------------------

  predicate Has(words: seq<bv64>, pos: nat) {
    pos / 64 < |words| && Bit(words[pos / 64], pos)
  }

  ghost function Elements(words: seq<bv64>): (s: set<nat>)
    ensures forall pos: nat :: pos in s <==> Has(words, pos)
  {
    set pos: nat | pos < 64 * |words| && Has(words, pos)
  }

  /** Equal words if and only if equal sets: the representation is canonical. */
  lemma Canonical(a: seq<bv64>, b: seq<bv64>)
    requires |a| == |b|
    ensures a == b <==> Elements(a) == Elements(b)
  {
    if a != b {
      var i :| 0 <= i < |a| && a[i] != b[i];
      var minor := DifferAt(a[i], b[i]);
      var pos := MinorSurjective(i, minor);
      assert Has(a, pos) != Has(b, pos);
      assert pos in Elements(a) <==> pos !in Elements(b);
    }
  }

  /** The number of words `newBitset` allocates for `bits` ids. */
  function Chunks(bits: nat): (c: nat)
    ensures forall pos: nat :: pos < bits ==> pos / 64 < c
  {
    bits / 64 + (if bits % 64 != 0 then 1 else 0)
  }

  method NewBitset(bits: nat) returns (b: array<bv64>)
    ensures fresh(b) && b.Length == Chunks(bits)
    ensures Elements(b[..]) == {}
  {
    b := new bv64[Chunks(bits)](_ => 0);
    forall pos: nat ensures !Has(b[..], pos) { ZeroWord(Minor(pos)); }
  }

  lemma ZeroWord(k: bv6)
    ensures !BitAt(0, k)
  {}

  method Clone(b: array<bv64>) returns (copy: array<bv64>)
    ensures fresh(copy) && copy[..] == b[..]
  {
    copy := new bv64[b.Length](i requires 0 <= i < b.Length reads b => b[i]);
  }

  method Set(b: array<bv64>, pos: nat)
    requires pos / 64 < b.Length
    modifies b
    ensures Elements(b[..]) == old(Elements(b[..])) + {pos}
  {
    var major, minor := pos / 64, Minor(pos);
    ghost var before := b[..];
    var x := OrShifted(b[major], minor);
    b[major] := x;
    assert b[..] == before[major := x];
    forall k: nat ensures Has(b[..], k) <==> k == pos || Has(before, k) {
      if k / 64 == major { BitOfSet(before[major], x, pos, k); }
    }
  }

  method Clear(b: array<bv64>, pos: nat)
    requires pos / 64 < b.Length
    modifies b
    ensures Elements(b[..]) == old(Elements(b[..])) - {pos}
  {
    var major, minor := pos / 64, Minor(pos);
    ghost var before := b[..];
    var x := AndNotShifted(b[major], minor);
    b[major] := x;
    assert b[..] == before[major := x];
    forall k: nat ensures Has(b[..], k) <==> k != pos && Has(before, k) {
      if k / 64 == major { BitOfClear(before[major], x, pos, k); }
    }
  }

  method Equals(b: array<bv64>, b2: array<bv64>) returns (same: bool)
    ensures same <==> b[..] == b2[..]
    ensures b.Length == b2.Length ==> (same <==> Elements(b[..]) == Elements(b2[..]))
  {
    if b.Length == b2.Length { Canonical(b[..], b2[..]); }
    if b.Length != b2.Length {
      assert |b[..]| != |b2[..]|;
      return false;
    }
    for i := 0 to b.Length
      invariant b[..i] == b2[..i]
    {
      if b[i] != b2[i] {
        assert b[..][i] != b2[..][i];
        return false;
      }
    }
    assert b[..] == b[..b.Length] == b2[..];
    return true;
  }

  // ----- the hash -------------------------------------------------------------------------------

  /** The number of set bits among the first `k` positions of a word. */
  function Ones(w: bv64, k: nat): (c: nat) {
    if k == 0 then 0 else Ones(w, k - 1) + (if Bit(w, k - 1) then 1 else 0)
  }

  function SumOnes(words: seq<bv64>): (c: nat) {
    if words == [] then 0 else SumOnes(words[..|words| - 1]) + Ones(words[|words| - 1], 64)
  }

  /** Conversion of a count to `uint64`, which wraps at 2^64. */
  function Word(n: nat): (w: bv64) {
    if n == 0 then 0 else Word(n - 1) + 1
  }

  function XorAll(init: bv64, words: seq<bv64>): (h: bv64) {
    if words == [] then init else XorAll(init, words[..|words| - 1]) ^ words[|words| - 1]
  }

  function HashOf(words: seq<bv64>): (h: bv64) {
    XorAll(Word(SumOnes(words)), words)
  }

  /** The positions below `n` of a bitset's words. */
  ghost function ElementsBelow(words: seq<bv64>, n: nat): (s: set<nat>) {
    set pos: nat | pos < n && Has(words, pos)
  }

  lemma {:induction false} OnesCounts(words: seq<bv64>, i: nat, k: nat)
    requires i < |words| && k <= 64
    ensures |ElementsBelow(words, 64 * i + k)| == |ElementsBelow(words, 64 * i)| + Ones(words[i], k)
  {
    if k != 0 {
      OnesCounts(words, i, k - 1);
      var last := 64 * i + (k - 1);
      MinorPeriod(k - 1, i);
      assert last / 64 == i;
      var before := ElementsBelow(words, last);
      assert ElementsBelow(words, last + 1) == if Has(words, last) then before + {last} else before;
    }
  }

  /** The population count is the size of the set. */
  lemma {:induction false} PopulationIsCardinality(words: seq<bv64>)
    ensures SumOnes(words) == |Elements(words)|
  {
    if words == [] {
      assert Elements(words) == {};
    } else {
      var n := |words| - 1;
      PopulationIsCardinality(words[..n]);
      assert ElementsBelow(words, 64 * n) == Elements(words[..n]) by {
        forall pos: nat ensures pos < 64 * n && Has(words, pos) <==> Has(words[..n], pos) {}
      }
      OnesCounts(words, n, 64);
      assert ElementsBelow(words, 64 * n + 64) == Elements(words);
    }
  }

  method Popcnt(b: array<bv64>) returns (total: nat)
    ensures total == SumOnes(b[..])
    ensures total == |Elements(b[..])|
  {
    PopulationIsCardinality(b[..]);
    total := 0;
    for i := 0 to b.Length
      invariant total == SumOnes(b[..i])
    {
      assert b[..i + 1][..i] == b[..i];
      total := total + Ones(b[i], 64);
    }
    assert b[..] == b[..b.Length];
  }

  method Hash(b: array<bv64>) returns (hash: bv64)
    ensures hash == HashOf(b[..])
  {
    var count := Popcnt(b);
    hash := Word(count);
    for i := 0 to b.Length
      invariant hash == XorAll(Word(count), b[..i])
    {
      assert b[..i + 1][..i] == b[..i];
      hash := hash ^ b[i];
    }
    assert b[..] == b[..b.Length];
  }
}
