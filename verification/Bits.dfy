/**
 Word arithmetic behind the ring buffer: powers of two, `bits.Len64`, bitwise conjunction,
 and the masking that turns an absolute cursor into a slot number.
 */
module Bits {

  type int64 = x: int | -0x8000_0000_0000_0000 <= x < 0x8000_0000_0000_0000

  const MIN_SIZE: nat := 2
  const MAX_SIZE: nat := 0x4000_0000_0000_0000

  /** `1 << k`. */
  function Exp2(k: nat): (r: nat)
    ensures r >= 1
  {
    if k == 0 then 1 else 2 * Exp2(k - 1)
  }

  ghost predicate IsPow2(n: nat) {
    exists k: nat :: n == Exp2(k)
  }

  /** `bits.Len64`: the number of bits needed to write `n`. */
  function Len(n: nat): nat {
    if n == 0 then 0 else 1 + Len(n / 2)
  }

  /** Bitwise conjunction of two non-negative words. */
  function And(a: nat, b: nat): (r: nat)
    ensures r <= b
  {
    if a == 0 || b == 0 then 0 else (if a % 2 == 1 && b % 2 == 1 then 1 else 0) + 2 * And(a / 2, b / 2)
  }

  /** The slot an absolute cursor lands on in a backing array of `cap` items. */
  function Slot(i: nat, cap: nat): (r: nat)
    requires cap > 0
    ensures r < cap
  {
    And(i, cap - 1)
  }

  /** `roundUpPow2` (ringbuffer.go:249). Total over every 64-bit size. */
  function RoundUpPow2(size: int64): (r: nat)
    ensures IsPow2(r) && MIN_SIZE <= r <= MAX_SIZE
    ensures size <= MAX_SIZE ==> size <= r
    ensures forall k: nat :: MIN_SIZE <= Exp2(k) && size <= Exp2(k) ==> r <= Exp2(k)
  {
    Exp2Values();
    if size <= MIN_SIZE then
      assert Exp2(1) == MIN_SIZE;
      MIN_SIZE
    else if size >= MAX_SIZE then
      assert Exp2(62) == MAX_SIZE;
      MAX_SIZE
    else if And(size, size - 1) == 0 then
      ClearLowestBit(size);
      size
    else
      LenBounds(size - 1);
      assert forall k: nat :: size <= Exp2(k) ==> Exp2(Len(size - 1)) <= Exp2(k) by {
        forall k: nat | size <= Exp2(k) ensures Exp2(Len(size - 1)) <= Exp2(k) {
          if k < Len(size - 1) {
            Exp2Mono(k, Len(size - 1) - 1);
          } else {
            Exp2Mono(Len(size - 1), k);
          }
        }
      }
      assert Exp2(62) == MAX_SIZE;
      Exp2(Len(size - 1))
  }

  lemma Exp2Values()
    ensures Exp2(1) == MIN_SIZE
    ensures Exp2(62) == MAX_SIZE
  {
    assert Exp2(10) == 1024;
    Exp2Add(10, 10);
    Exp2Add(20, 20);
    Exp2Add(40, 20);
    Exp2Add(60, 2);
    assert Exp2(2) == 4;
  }

  lemma {:induction false} Exp2Add(a: nat, b: nat)
    ensures Exp2(a + b) == Exp2(a) * Exp2(b)
  {
    if a > 0 { Exp2Add(a - 1, b); }
  }

  lemma {:induction false} Exp2Mono(a: nat, b: nat)
    requires a <= b
    ensures Exp2(a) <= Exp2(b)
    decreases b - a
  {
    if a < b { Exp2Mono(a + 1, b); }
  }

  /** `Len` brackets its argument between consecutive powers of two. */
  lemma {:induction false} LenBounds(n: nat)
    ensures n < Exp2(Len(n))
    ensures n > 0 ==> Len(n) > 0 && Exp2(Len(n) - 1) <= n
  {
    if n > 0 { LenBounds(n / 2); }
  }

  /** The `size & (size-1) == 0` test accepts exactly the powers of two. */
  lemma {:induction false} ClearLowestBit(n: nat)
    requires n > 0
    ensures And(n, n - 1) == 0 <==> IsPow2(n)
  {
    if n == 1 {
      assert n == Exp2(0);
    } else if n % 2 == 0 {
      ClearLowestBit(n / 2);
      assert (n - 1) / 2 == n / 2 - 1;
      if IsPow2(n / 2) {
        var k: nat :| n / 2 == Exp2(k);
        assert n == Exp2(k + 1);
      }
      if IsPow2(n) {
        var k: nat :| n == Exp2(k);
        assert n / 2 == Exp2(k - 1);
      }
    } else {
      assert (n - 1) / 2 == n / 2;
      AndSelf(n / 2);
      forall k: nat ensures n != Exp2(k) { if k > 0 { assert Exp2(k) % 2 == 0; } }
    }
  }

  lemma {:induction false} AndSelf(a: nat)
    ensures And(a, a) == a
  {
    if a > 0 { AndSelf(a / 2); }
  }

  /** Masking with `cap - 1` is the remainder modulo `cap` when `cap` is a power of two. */
  lemma {:induction false} MaskIsRemainder(i: nat, k: nat)
    ensures And(i, Exp2(k) - 1) == i % Exp2(k)
    decreases k
  {
    if k == 0 {
    } else {
      var c := Exp2(k - 1);
      MaskIsRemainder(i / 2, k - 1);
      AndHalves(i, c);
      DivMod(i / 2, c);
      HalvesRemainder(i, c, i / 2 / c, i / 2 % c);
    }
  }

  lemma AndHalves(i: nat, c: nat)
    requires c > 0
    ensures And(i, 2 * c - 1) == i % 2 + 2 * And(i / 2, c - 1)
  {
    assert (2 * c - 1) / 2 == c - 1 && (2 * c - 1) % 2 == 1;
  }

  lemma HalvesRemainder(i: nat, c: nat, q: nat, r: nat)
    requires r < c && i / 2 == c * q + r
    ensures i % (2 * c) == i % 2 + 2 * r
  {
    MulTwice(c, q);
    RemainderUnique(i, 2 * c, q, 2 * r + i % 2);
  }

  lemma MulTwice(c: int, q: int)
    ensures (2 * c) * q == 2 * (c * q)
  {
  }

  lemma DivMod(x: nat, m: nat)
    requires m > 0
    ensures x == m * (x / m) + x % m && 0 <= x % m < m && x / m >= 0
  {
  }

  lemma {:induction false} MulGap(m: nat, q: int, q': int)
    ensures q > q' ==> m * q >= m * q' + m
    decreases q - q'
  {
    if q > q' {
      MulNext(m, q - 1);
      MulGap(m, q - 1, q');
    }
  }

  lemma RemainderUnique(x: nat, m: nat, q: int, r: nat)
    requires r < m && x == m * q + r
    ensures x % m == r
  {
    DivMod(x, m);
    MulGap(m, q, x / m);
    MulGap(m, x / m, q);
  }

  /** `Slot` as a remainder, for a capacity known to be a power of two. */
  lemma SlotIsRemainder(i: nat, cap: nat)
    requires IsPow2(cap)
    ensures cap > 0 && Slot(i, cap) == i % cap
  {
    var k: nat :| cap == Exp2(k);
    MaskIsRemainder(i, k);
  }

  /** Two cursors less than a capacity apart never share a slot. */
  lemma SlotsDiffer(i: nat, j: nat, cap: nat)
    requires IsPow2(cap)
    requires i < j < i + cap
    ensures Slot(i, cap) != Slot(j, cap)
  {
    SlotIsRemainder(i, cap);
    SlotIsRemainder(j, cap);
    DivMod(i, cap);
    DivMod(j, cap);
    MulGap(cap, j / cap, i / cap);
    MulGap(cap, i / cap, j / cap);
  }

  /** A window of at most `cap` cursors occupies distinct slots. */
  lemma WindowInjective(lo: nat, cap: nat)
    requires IsPow2(cap)
    ensures forall i: nat, j: nat {:trigger Slot(i, cap), Slot(j, cap)} ::
              lo <= i < j < lo + cap ==> Slot(i, cap) != Slot(j, cap)
  {
    forall i: nat, j: nat {:trigger Slot(i, cap), Slot(j, cap)} | lo <= i < j < lo + cap
      ensures Slot(i, cap) != Slot(j, cap)
    {
      SlotsDiffer(i, j, cap);
    }
  }

  /** A window of exactly `cap` cursors covers every slot. */
  lemma WindowCovers(lo: nat, cap: nat, s: nat) returns (i: nat)
    requires IsPow2(cap) && s < cap
    ensures lo <= i < lo + cap && Slot(i, cap) == s
  {
    var q, r := lo / cap, lo % cap;
    DivMod(lo, cap);
    MulNext(cap, q);
    i := if r <= s then cap * q + s else cap * q + s + cap;
    if r <= s {
      RemainderUnique(i, cap, q, s);
    } else {
      RemainderUnique(i, cap, q + 1, s);
    }
    SlotIsRemainder(i, cap);
  }

  /** The contiguous-then-wrapped index PopN uses is the slot of the absolute cursor. */
  lemma WrappedIndex(h: nat, r: nat, cap: nat)
    requires IsPow2(cap) && r < cap
    ensures Slot(h + r, cap) == if r < cap - Slot(h, cap) then Slot(h, cap) + r else r - (cap - Slot(h, cap))
  {
    SlotIsRemainder(h, cap);
    SlotIsRemainder(h + r, cap);
    WrapRemainder(h, r, cap);
  }

  lemma WrapRemainder(h: nat, r: nat, cap: nat)
    requires r < cap
    ensures (h + r) % cap == if r < cap - h % cap then h % cap + r else r - (cap - h % cap)
  {
    DivMod(h, cap);
    var q, s := h / cap, h % cap;
    if r < cap - s {
      RemainderUnique(h + r, cap, q, s + r);
    } else {
      MulNext(cap, q);
      RemainderUnique(h + r, cap, q + 1, s + r - cap);
    }
  }

  lemma MulNext(m: int, q: int)
    ensures m * (q + 1) == m * q + m
  {
  }

  lemma Doubled(cap: nat)
    requires IsPow2(cap)
    ensures IsPow2(2 * cap)
  {
    var k: nat :| cap == Exp2(k);
    assert 2 * cap == Exp2(k + 1);
  }
}
