/** Python's bitwise operators on non-negative integers, defined bit by
    bit, and the facts about them the driver's masks and shifts rely on.
    Python integers are unbounded, so these act on `nat` rather than on
    fixed-width bit vectors. */
module Bits {

  function Pow2(k: nat): (p: nat)
    ensures p >= 1
  {
    if k == 0 then 1 else 2 * Pow2(k - 1)
  }

  /** `a & b` */
  function And(a: nat, b: nat): nat
    decreases a
  {
    if a == 0 || b == 0 then 0
    else 2 * And(a / 2, b / 2) + (if a % 2 == 1 && b % 2 == 1 then 1 else 0)
  }

  /** `a | b` */
  function Or(a: nat, b: nat): nat
    decreases a
  {
    if a == 0 then b
    else if b == 0 then a
    else 2 * Or(a / 2, b / 2) + (if a % 2 == 1 || b % 2 == 1 then 1 else 0)
  }

  /** `a >> k` */
  function Shr(a: nat, k: nat): nat
  {
    if k == 0 then a else Shr(a / 2, k - 1)
  }

  /** `a << k` */
  function Shl(a: nat, k: nat): nat
  {
    if k == 0 then a else 2 * Shl(a, k - 1)
  }

  /** Shifting left by k multiplies by 2^k. */
  lemma {:induction false} ShlIsMul(a: nat, k: nat)
    ensures Shl(a, k) == a * Pow2(k)
  {
    if k > 0 {
      ShlIsMul(a, k - 1);
      assert a * Pow2(k) == 2 * (a * Pow2(k - 1));
    }
  }

  /** Shifting right undoes shifting left. */
  lemma {:induction false} ShrShl(a: nat, k: nat)
    ensures Shr(Shl(a, k), k) == a
  {
    if k > 0 {
      ShrShl(a, k - 1);
    }
  }

  /** `a >> 1` is halving. */
  lemma ShrOne(a: nat)
    ensures Shr(a, 1) == a / 2
  {
    assert Shr(a / 2, 0) == a / 2;
  }

  /** Masking with an even mask drops the low bit and shifts the rest. */
  lemma AndEven(a: nat, m: nat)
    requires m % 2 == 0
    ensures And(a, m) == 2 * And(a / 2, m / 2)
  {
    if m == 0 {
      assert And(a / 2, 0) == 0;
    }
  }

  /** `m` has its low k bits set. */
  predicate LowOnes(m: nat, k: nat)
  {
    k == 0 || (m % 2 == 1 && LowOnes(m / 2, k - 1))
  }

  /** A mask whose low k bits are set keeps every value below 2^k. */
  lemma {:induction false} AndLowOnes(a: nat, m: nat, k: nat)
    requires a < Pow2(k) && LowOnes(m, k)
    ensures And(a, m) == a
  {
    if k > 0 && a > 0 {
      AndLowOnes(a / 2, m / 2, k - 1);
    }
  }

  /** `a & 1` is the low bit. */
  lemma AndOne(a: nat)
    ensures And(a, 1) == a % 2
  {
    if a > 0 {
      assert And(a / 2, 0) == 0;
    }
  }

  /** `a & 2` is bit 1, left in place. */
  lemma AndTwo(a: nat)
    ensures And(a, 2) == 2 * (a / 2 % 2)
  {
    AndEven(a, 2);
    AndOne(a / 2);
  }

  /** Halving twice is dividing by four. */
  lemma HalveTwice(a: nat)
    ensures a / 2 / 2 == a / 4
  {
    var q, r := a / 4, a % 4;
    assert a / 2 == 2 * q + r / 2;
  }

  /** `a & 0xFC` on a byte clears the low two bits. */
  lemma AndFC(a: nat)
    requires a < 256
    ensures And(a, 0xFC) == a - a % 4
  {
    var a2 := a / 2 / 2;
    HalveTwice(a);
    AndEven(a, 0xFC);
    AndEven(a / 2, 0x7E);
    assert LowOnes(0x3F, 6);
    AndLowOnes(a2, 0x3F, 6);
    assert And(a, 0xFC) == 4 * a2;
  }

  /** `(a & 0xC0) >> 6` on a byte is its top two bits. */
  lemma AndC0Shr6(a: nat)
    requires a < 256
    ensures Shr(And(a, 0xC0), 6) == a / 64
  {
    var a2 := a / 2 / 2;
    var a4 := a2 / 2 / 2;
    var a6 := a4 / 2 / 2;
    HalveTwice(a);
    HalveTwice(a2);
    HalveTwice(a4);
    assert a6 == a / 64;
    AndEven(a, 0xC0);
    AndEven(a / 2, 0x60);
    AndEven(a2, 0x30);
    AndEven(a2 / 2, 0x18);
    AndEven(a4, 0x0C);
    AndEven(a4 / 2, 0x06);
    assert LowOnes(3, 2);
    AndLowOnes(a6, 3, 2);
    assert And(a, 0xC0) == 64 * a6;
    ShlIsMul(a6, 6);
    ShrShl(a6, 6);
  }

  /** `a & 0xCFFF` on a byte is the byte itself: the mask's low eight bits
      are all set. */
  lemma AndCFFF(a: nat)
    requires a < 256
    ensures And(a, 0xCFFF) == a
  {
    assert LowOnes(0xCFFF, 8);
    AndLowOnes(a, 0xCFFF, 8);
  }

  /** Or-ing a value below 2^k into a value shifted left by k adds them. */
  lemma {:induction false} OrShl(hi: nat, lo: nat, k: nat)
    requires lo < Pow2(k)
    ensures Or(Shl(hi, k), lo) == Shl(hi, k) + lo
  {
    if k > 0 && Shl(hi, k) > 0 && lo > 0 {
      OrShl(hi, lo / 2, k - 1);
    }
  }

  /** `hi << 8 | lo` for a byte `lo` is `256 * hi + lo`. */
  lemma JoinBytes(hi: nat, lo: nat)
    requires lo < 256
    ensures Or(Shl(hi, 8), lo) == 256 * hi + lo
  {
    OrShl(hi, lo, 8);
    ShlIsMul(hi, 8);
  }
}
