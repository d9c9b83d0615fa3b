/** IPv4 CIDR blocks (section 3.1 of RFC 4632) over addresses as numbers below 2^32. */
module Cidr {

  const ADDRESSES: nat := 0x1_0000_0000

  datatype Prefix = Prefix(addr: nat, bits: nat)

  predicate Valid(p: Prefix) { p.addr < ADDRESSES && p.bits <= 32 }

  /** `a >> k`: which block of 2^k addresses holds `a`. */
  function Shift(a: nat, k: nat): nat
    decreases k
  {
    if k == 0 then a else Shift(a / 2, k - 1)
  }

  /** `a` with its low `k` bits cleared. */
  function Clear(a: nat, k: nat): nat
    decreases k
  {
    if k == 0 then a else 2 * Clear(a / 2, k - 1)
  }

  function Masked(p: Prefix): (m: Prefix)
    requires p.bits <= 32
    ensures m.bits == p.bits
  {
    Prefix(Clear(p.addr, 32 - p.bits), p.bits)
  }

  predicate Contains(p: Prefix, a: nat)
    requires p.bits <= 32
  {
    Shift(a, 32 - p.bits) == Shift(p.addr, 32 - p.bits)
  }

  // ------------------------------------------------------------------ bit lemmas

  lemma {:induction false} ShiftMore(a: nat, k: nat, j: nat)
    ensures Shift(a, k + j) == Shift(Shift(a, k), j)
    decreases k
  {
    if k > 0 {
      ShiftMore(a / 2, k - 1, j);
    }
  }

  lemma {:induction false} ClearMeans(a: nat, k: nat)
    ensures Clear(a, k) <= a && Shift(Clear(a, k), k) == Shift(a, k) && Clear(Clear(a, k), k) == Clear(a, k)
    decreases k
  {
    if k > 0 {
      ClearMeans(a / 2, k - 1);
      assert Clear(a, k) / 2 == Clear(a / 2, k - 1);
    }
  }

  lemma {:induction false} ClearedEqual(a: nat, b: nat, k: nat)
    requires Clear(a, k) == a && Clear(b, k) == b && Shift(a, k) == Shift(b, k)
    ensures a == b
    decreases k
  {
    if k > 0 {
      ClearedEqual(a / 2, b / 2, k - 1);
    }
  }

  lemma MaskedMeans(p: Prefix)
    requires p.bits <= 32
    ensures Masked(p).addr <= p.addr && Masked(Masked(p)) == Masked(p)
    ensures forall a: nat :: Contains(Masked(p), a) <==> Contains(p, a)
  {
    hide Clear, Shift;
    ClearMeans(p.addr, 32 - p.bits);
  }

  // ---------------------------------------------------------------------- overlap

  /** Two addresses in one block of the longer prefix length are in one of the shorter. */
  lemma CoarserBlock(a: nat, b: nat, short: nat, long: nat)
    requires short <= long <= 32 && Shift(a, 32 - long) == Shift(b, 32 - long)
    ensures Shift(a, 32 - short) == Shift(b, 32 - short)
  {
    hide Shift;
    ShiftMore(a, 32 - long, long - short);
    ShiftMore(b, 32 - long, long - short);
  }

  ghost predicate ShareAddress(p: Prefix, q: Prefix)
    requires p.bits <= 32 && q.bits <= 32
  {
    exists a: nat :: a < ADDRESSES && Contains(p, a) && Contains(q, a)
  }

  /** Either block contains the other's address exactly when the blocks share an address. */
  lemma OverlapIsExact(p: Prefix, q: Prefix)
    requires Valid(p) && Valid(q)
    ensures Contains(p, q.addr) || Contains(q, p.addr) <==> ShareAddress(p, q)
  {
    hide Shift;
    if Contains(p, q.addr) {
      assert Contains(q, q.addr);
    }
    if Contains(q, p.addr) {
      assert Contains(p, p.addr);
    }
    if ShareAddress(p, q) {
      var a: nat :| a < ADDRESSES && Contains(p, a) && Contains(q, a);
      if p.bits <= q.bits {
        CoarserBlock(a, q.addr, p.bits, q.bits);
      } else {
        CoarserBlock(a, p.addr, q.bits, p.bits);
      }
    }
  }

  /** A masked prefix of a given length containing an address is determined by it. */
  lemma SameBlock(p: Prefix, q: Prefix, a: nat)
    requires p.bits == q.bits <= 32 && Masked(p) == p && Masked(q) == q && Contains(p, a) && Contains(q, a)
    ensures p == q
  {
    hide Clear, Shift;
    ClearedEqual(p.addr, q.addr, 32 - p.bits);
  }

  lemma HostContains(h: nat, a: nat)
    ensures Contains(Prefix(h, 32), a) <==> a == h
  {}

  function Pow2(n: nat): nat { if n == 0 then 1 else 2 * Pow2(n - 1) }

  lemma {:induction false} ShiftBound(a: nat, k: nat, m: nat)
    requires a < Pow2(k + m)
    ensures Shift(a, k) < Pow2(m)
    decreases k
  {
    if k > 0 {
      ShiftBound(a / 2, k - 1, m);
    }
  }

  lemma {:induction false} ShiftOne(k: nat)
    ensures Shift(Pow2(k), k) == 1 && Shift(0, k) == 0 && Clear(Pow2(k), k) == Pow2(k) && Clear(0, k) == 0
    decreases k
  {
    if k > 0 {
      ShiftOne(k - 1);
    }
  }

  lemma Pow2By4(n: nat)
    ensures Pow2(n + 4) == 16 * Pow2(n)
  {
    assert Pow2(n + 4) == 2 * Pow2(n + 3) && Pow2(n + 3) == 2 * Pow2(n + 2) && Pow2(n + 2) == 2 * Pow2(n + 1);
  }

  /** The two halves of the address space: every address is in exactly one of them, and both
      are masked. */
  lemma Halves(a: nat)
    requires a < ADDRESSES
    ensures Contains(Prefix(0, 1), a) <==> !Contains(Prefix(0x8000_0000, 1), a)
    ensures Masked(Prefix(0, 1)) == Prefix(0, 1) && Masked(Prefix(0x8000_0000, 1)) == Prefix(0x8000_0000, 1)
  {
    Pow2By4(0);
    Pow2By4(4);
    Pow2By4(8);
    Pow2By4(12);
    Pow2By4(16);
    Pow2By4(20);
    Pow2By4(24);
    Pow2By4(28);
    assert Pow2(31 + 1) == 2 * Pow2(31) && Pow2(1) == 2;
    ShiftBound(a, 31, 1);
    ShiftOne(31);
  }

  lemma Pow2By32(n: nat)
    ensures Pow2(n + 32) == 0x1_0000_0000 * Pow2(n)
  {
    hide Pow2;
    Pow2By4(n);
    Pow2By4(n + 4);
    Pow2By4(n + 8);
    Pow2By4(n + 12);
    Pow2By4(n + 16);
    Pow2By4(n + 20);
    Pow2By4(n + 24);
    Pow2By4(n + 28);
  }

  lemma Pow2Next(n: nat)
    ensures Pow2(n + 1) == 2 * Pow2(n) && Pow2(0) == 1
  {}

  lemma Pow2Of128()
    ensures Pow2(128) == 0x1_0000_0000_0000_0000_0000_0000_0000_0000
    ensures Pow2(127) == 0x8000_0000_0000_0000_0000_0000_0000_0000 && Pow2(1) == 2
  {
    hide Pow2;
    Pow2Next(0);
    Pow2By32(0);
    Pow2By32(32);
    Pow2By32(64);
    Pow2By32(96);
    Pow2Next(127);
  }

  /** The two halves of the IPv6 address space. */
  lemma Halves6(a: nat)
    requires a < 0x1_0000_0000_0000_0000_0000_0000_0000_0000
    ensures Shift(a, 127) == Shift(0, 127) || Shift(a, 127) == Shift(0x8000_0000_0000_0000_0000_0000_0000_0000, 127)
  {
    hide Shift, Clear, Pow2;
    Pow2Of128();
    ShiftBound(a, 127, 1);
    ShiftOne(127);
  }

  lemma {:induction false} ShiftBy4(a: nat, k: nat)
    ensures Shift(a, k + 4) == Shift(a / 16, k) && Shift(a, 0) == a
  {
    assert Shift(a, k + 4) == Shift(a / 2, k + 3) == Shift(a / 2 / 2, k + 2) == Shift(a / 2 / 2 / 2, k + 1);
    assert a / 2 / 2 / 2 / 2 == a / 16;
  }

  lemma ShiftBy16(a: nat, k: nat)
    ensures Shift(a, k + 16) == Shift(a / 0x1_0000, k)
  {
    hide Shift;
    ShiftBy4(a, k + 12);
    ShiftBy4(a / 16, k + 8);
    ShiftBy4(a / 16 / 16, k + 4);
    ShiftBy4(a / 16 / 16 / 16, k);
    assert a / 16 / 16 / 16 / 16 == a / 0x1_0000;
  }

  /** The blocks of length 4, 8, 12 and 16 by division. */
  lemma BlocksByDivision(a: nat)
    ensures Shift(a, 28) == a / 0x1000_0000 && Shift(a, 24) == a / 0x100_0000
    ensures Shift(a, 20) == a / 0x10_0000 && Shift(a, 16) == a / 0x1_0000
  {
    hide Shift;
    var b := a / 0x1_0000;
    ShiftBy16(a, 0);
    ShiftBy16(a, 4);
    ShiftBy16(a, 8);
    ShiftBy16(a, 12);
    ShiftBy4(b, 0);
    ShiftBy4(b, 4);
    ShiftBy4(b, 8);
    ShiftBy4(b / 16, 0);
    ShiftBy4(b / 16, 4);
    ShiftBy4(b / 16 / 16, 0);
    ShiftBy4(b / 16 / 16 / 16, 0);
    assert b / 16 == a / 0x10_0000 && b / 16 / 16 == a / 0x100_0000 && b / 16 / 16 / 16 == a / 0x1000_0000;
  }
}
