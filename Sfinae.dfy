/** The overload-selection examples of `sfinae.cpp`: `is_power_of_2` for
    integers and pointers, `create_buffer<N>` and the `EnableIf` type map.
    Only the run-time result of the overload that gets selected is
    modelled. */
module Sfinae {
  import opened Pointers
  import opened TypeTraits

  /** `a & b` on non-negative integers: bit by bit from the lowest one.
      For non-negative values this is the two's-complement `&` of every
      integral type wide enough to hold them. */
  function BitAnd(a: nat, b: nat): nat
    decreases a
  {
    if a == 0 || b == 0 then 0
    else 2 * BitAnd(a / 2, b / 2) + (if a % 2 == 1 && b % 2 == 1 then 1 else 0)
  }

  /** The number of bits set in `v`. */
  function PopCount(v: nat): nat {
    if v == 0 then 0 else v % 2 + PopCount(v / 2)
  }

  lemma {:induction false} BitAndSelf(v: nat)
    ensures BitAnd(v, v) == v
  {
    if v > 0 {
      BitAndSelf(v / 2);
    }
  }

  lemma {:induction false} PopCountPositive(v: nat)
    requires v > 0
    ensures PopCount(v) >= 1
  {
    if v % 2 == 0 {
      PopCountPositive(v / 2);
    }
  }

  /** The bit trick: for positive `v`, clearing the lowest set bit
      (`v & (v - 1)`) leaves nothing exactly when `v` has one bit set. */
  lemma {:induction false} LowestBitTrick(v: nat)
    requires v > 0
    ensures BitAnd(v, v - 1) == 0 <==> PopCount(v) == 1
  {
    if v == 1 {
    } else if v % 2 == 1 {
      var h := v / 2;
      assert (v - 1) / 2 == h && (v - 1) % 2 == 0;
      BitAndSelf(h);
      PopCountPositive(h);
    } else {
      var h := v / 2;
      assert (v - 1) / 2 == h - 1 && (v - 1) % 2 == 1;
      LowestBitTrick(h);
      if h == 1 {
        assert BitAnd(h, h - 1) == 0;
      }
    }
  }

  /** `is_power_of_2` for integral `T`: `value > 0 && (value & (value - 1)) == 0`.
      `&` is only reached for positive values, where `value - 1` cannot
      overflow. The result is true exactly when one bit of `value` is set;
      zero and negative numbers never qualify. */
  function IsPowerOf2(value: int): (r: bool)
    ensures r <==> value > 0 && PopCount(value) == 1
  {
    if value > 0 then
      LowestBitTrick(value);
      BitAnd(value, value - 1) == 0
    else
      false
  }

  function Pow2(k: nat): nat {
    if k == 0 then 1 else 2 * Pow2(k - 1)
  }

  /** The numbers with exactly one bit set are the powers of two. */
  lemma OneBitIsPowerOfTwo(v: nat)
    requires v > 0
    ensures PopCount(v) == 1 <==> exists k: nat :: v == Pow2(k)
  {
    if exists k: nat :: v == Pow2(k) {
      var k: nat :| v == Pow2(k);
      PopCountOfPow2(k);
    }
    if PopCount(v) == 1 {
      var k := OneBitExponent(v);
    }
  }

  /** The exponent of a number with one bit set: the position of that bit. */
  lemma {:induction false} OneBitExponent(v: nat) returns (k: nat)
    requires v > 0 && PopCount(v) == 1
    ensures v == Pow2(k)
  {
    if v % 2 == 0 {
      k := OneBitExponent(v / 2);
      k := k + 1;
    } else if v / 2 > 0 {
      PopCountPositive(v / 2);
      assert false;
    } else {
      k := 0;
    }
  }

  /** The "is_power_of_2" test on integers: 8, 32 and 1024 are powers of
      two. */
  lemma PowersOfTwoExamples()
    ensures IsPowerOf2(8) && IsPowerOf2(32) && IsPowerOf2(1024)
  {
    var a, b, c := 8, 32, 1024;
    PopCountOfPow2(3);
    PopCountOfPow2(5);
    PopCountOfPow2(10);
    assert Pow2(3) == a;
    assert Pow2(5) == b;
    assert Pow2(10) == c;
  }

  /** The rest of the test: 1025 and 665 are not powers of two, and
      neither are 0 and negative numbers. */
  lemma NonPowersOfTwoExamples()
    ensures !IsPowerOf2(1025) && !IsPowerOf2(665)
    ensures !IsPowerOf2(0) && !IsPowerOf2(-8)
  {
    TwoBitsSet(1025);
    TwoBitsSet(665);
  }

  /** An odd number above 1 has bit 0 and some higher bit set. */
  lemma TwoBitsSet(v: nat)
    requires v > 1 && v % 2 == 1
    ensures PopCount(v) >= 2
  {
    PopCountPositive(v / 2);
  }

  lemma {:induction false} PopCountOfPow2(k: nat)
    ensures PopCount(Pow2(k)) == 1
  {
    if k > 0 {
      PopCountOfPow2(k - 1);
      assert Pow2(k) / 2 == Pow2(k - 1);
    }
  }

  /** `Ver_2`'s pointer overload: `is_power_of_2(*value)`. */
  function IsPowerOf2Pointee(value: Cell?<int>): (r: bool)
    requires value != null
    reads value
    ensures r <==> value.value > 0 && PopCount(value.value) == 1
  {
    IsPowerOf2(value.value)
  }

  /** What `Ver_1::is_power_of_2` receives: an integer, or a pointer to
      one. */
  datatype Argument = ByValue(v: int) | ByPointer(p: Cell?<int>)

  /** `Ver_1::is_power_of_2`: a pointer is asserted non-null and read,
      then the integral test is applied. */
  function IsPowerOf2Ver1(arg: Argument): (r: bool)
    requires arg.ByPointer? ==> arg.p != null
    reads if arg.ByPointer? && arg.p != null then {arg.p} else {}
    ensures arg.ByValue? ==> (r <==> arg.v > 0 && PopCount(arg.v) == 1)
    ensures arg.ByPointer? ==> (r <==> arg.p.value > 0 && PopCount(arg.p.value) == 1)
  {
    var current := if arg.ByPointer? then arg.p.value else arg.v;
    IsPowerOf2(current)
  }

  /** The pointer part of the "is_power_of_2" test: `x = 8`. */
  method PowerOf2ThroughPointer() returns (r1: bool, r2: bool)
    ensures r1 && r2
  {
    var x := new Cell(8);
    assert PopCount(8) == 1;
    r1 := IsPowerOf2Pointee(x);
    r2 := IsPowerOf2Ver1(ByPointer(x));
  }

  /** What `create_buffer<N>` returns: a `std::array<int, N>` for small `N`,
      a `std::vector<int>` otherwise. */
  datatype Buffer = FixedArray(items: seq<int>) | Vector(items: seq<int>)

  /** `create_buffer<N>()`: exactly `N` ints, all value-initialised to 0, in
      a fixed array when `N < 512` and in a vector from 512 on. */
  function CreateBuffer(n: nat): (b: Buffer)
    ensures |b.items| == n
    ensures forall i :: 0 <= i < n ==> b.items[i] == 0
    ensures b.FixedArray? <==> n < 512
  {
    if n < 512 then FixedArray(seq(n, _ => 0)) else Vector(seq(n, _ => 0))
  }

  /** The default `N = 256` and the test's `create_buffer<1024>()`. */
  lemma CreateBufferExamples()
    ensures CreateBuffer(256).FixedArray? && |CreateBuffer(256).items| == 256
    ensures CreateBuffer(1024).Vector? && |CreateBuffer(1024).items| == 1024
  {
  }

  datatype Option<T> = None | Some(value: T)

  /** `EnableIf<Condition, T>::type`: the primary template defines `type` as
      `T` (by default `void`); the `false` specialisation defines nothing,
      which is what removes a candidate from overload resolution. */
  function EnableIf(condition: bool, t: Type): (r: Option<Type>)
    ensures r.Some? <==> condition
    ensures r.Some? ==> r.value == t
  {
    if condition then Some(t) else None
  }
}
