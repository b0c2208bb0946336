/** The hand-written traits and compile-time arithmetic of `type_traits.cpp`.
    Types are values of a small datatype, and a trait is a function over
    them; a partial specialisation is a pattern in a `match`. */
module TypeTraits {

  /** The types the traits are applied to: `void`, any other non-compound
      type by name (`int`, `double`, ...), pointers and the two kinds of
      reference. */
  datatype Type =
    | Void
    | Named(name: string)
    | Pointer(pointee: Type)
    | LRef(referee: Type)
    | RRef(referee: Type)

  predicate IsReference(t: Type) {
    t.LRef? || t.RRef?
  }

  /** Types the language lets one write: there is no pointer to a
      reference, no reference to a reference and no reference to `void`. */
  predicate WellFormed(t: Type) {
    match t
    case Void => true
    case Named(_) => true
    case Pointer(p) => !IsReference(p) && WellFormed(p)
    case LRef(r) => !IsReference(r) && r != Void && WellFormed(r)
    case RRef(r) => !IsReference(r) && r != Void && WellFormed(r)
  }

  const Int := Named("int")
  const Double := Named("double")

  /** `constexpr int by_2(int a)`: `a * 2`. Signed overflow is undefined, so
      the doubled value must fit in an `int`. */
  function ByTwo(a: int): (r: int)
    requires -0x8000_0000 <= 2 * a < 0x8000_0000
    ensures r % 2 == 0 && r / 2 == a
  {
    a * 2
  }

  const SIZE_T_LIMIT: nat := 0x1_0000_0000_0000_0000

  /** The `int` that a `size_t` value `v` becomes: the one congruent to `v`
      modulo 2^32 in the range of a 32-bit `int`. */
  function ToInt32(v: nat): (r: int)
    ensures -0x8000_0000 <= r < 0x8000_0000
    ensures r % 0x1_0000_0000 == v % 0x1_0000_0000
  {
    var m := v % 0x1_0000_0000;
    if m < 0x8000_0000 then m else m - 0x1_0000_0000
  }

  /** `By2<a>::value` for `size_t a`: `2 * a` is computed in `size_t`
      (wrapping at 2^64) and stored in an `int`. The result is the `int`
      with the same low 32 bits as the true double. */
  function By2Value(a: nat): (r: int)
    requires a < SIZE_T_LIMIT
    ensures -0x8000_0000 <= r < 0x8000_0000
    ensures r % 0x1_0000_0000 == (2 * a) % 0x1_0000_0000
  {
    var wrapped := if 2 * a < SIZE_T_LIMIT then 2 * a else 2 * a - SIZE_T_LIMIT;
    ToInt32(wrapped)
  }

  /** Wherever `by_2(a)` is defined on a non-negative `a`, `By2<a>::value`
      gives the same number; beyond that the class template silently wraps
      (for example `By2<0x8000_0000>::value == 0`). */
  lemma By2AgreesWithByTwo(a: nat)
    requires 2 * a < 0x8000_0000
    ensures By2Value(a) == ByTwo(a)
  {
  }

  lemma By2WrapsAtTwoToThe31()
    ensures By2Value(0x8000_0000) == 0
  {
  }

  /** The "type traits" test: `by_2(2) == 4`, `by_2(8) == 16`,
      `By2<2>::value == 4`. */
  lemma ByTwoExamples()
    ensures ByTwo(2) == 4 && ByTwo(8) == 16 && By2Value(2) == 4
  {
  }

  /** `Identity<T>::type`: the type it is given, the same type in the sense
      of `IsSame`. */
  function Identity(t: Type): (r: Type)
    ensures IsSame(r, t)
  {
    t
  }

  /** `IsSame<T1, T2>::value`: the primary template says false, the partial
      specialisation `IsSame<T, T>` says true, so the answer is true exactly
      when both arguments are one type. */
  function IsSame(t1: Type, t2: Type): (r: bool)
    ensures r <==> t1 == t2
  {
    match (t1, t2)
    case (Void, Void) => true
    case (Named(a), Named(b)) => a == b
    case (Pointer(a), Pointer(b)) => IsSame(a, b)
    case (LRef(a), LRef(b)) => IsSame(a, b)
    case (RRef(a), RRef(b)) => IsSame(a, b)
    case _ => false
  }

  /** The "identity" test. */
  lemma IsSameExamples()
    ensures !IsSame(Int, Double)
    ensures IsSame(Int, Int)
    ensures IsSame(Identity(Int), Int)
  {
  }

  /** `Factorial<N>::value`: `Factorial<N-1>::value * N`, with the explicit
      specialisation `Factorial<1>` stopping the recursion. For `N == 0`,
      `N-1` wraps to `SIZE_MAX` in `size_t`, and the instantiations would
      reach `Factorial<1>` only after 2^64 - 1 nested steps, far beyond any
      compiler's instantiation depth; so `N` must be at least 1. */
  function FactorialValue(n: nat): (r: nat)
    requires n >= 1
    ensures r >= 1
  {
    if n == 1 then 1 else FactorialValue(n - 1) * n
  }

  /** `constexpr size_t factorial(size_t n)`: `n == 1 ? 1 : factorial(n - 1) * n`.
      For `n == 0`, `n - 1` wraps to `SIZE_MAX` in `size_t`, and the
      recursion would reach its base case only after 2^64 - 1 nested calls,
      which in practice never happens; so `n` must be at least 1. */
  function Factorial(n: nat): (r: nat)
    requires n >= 1
    ensures r >= n
  {
    if n == 1 then 1 else Factorial(n - 1) * n
  }

  /** The class template and the `constexpr` function compute the same
      number. */
  lemma {:induction false} FactorialTemplateMatchesFunction(n: nat)
    requires n >= 1
    ensures FactorialValue(n) == Factorial(n)
  {
    if n > 1 {
      FactorialTemplateMatchesFunction(n - 1);
    }
  }

  /** `lo * (lo + 1) * ... * hi`, multiplied from the bottom up; 1 for an
      empty range. */
  function ProductUpTo(lo: nat, hi: nat): nat
    decreases hi + 1 - lo
  {
    if lo > hi then 1 else lo * ProductUpTo(lo + 1, hi)
  }

  lemma {:induction false} ProductSplitsAtTop(lo: nat, hi: nat)
    requires 1 <= lo <= hi
    ensures ProductUpTo(lo, hi) == ProductUpTo(lo, hi - 1) * hi
    decreases hi - lo
  {
    if lo < hi {
      ProductSplitsAtTop(lo + 1, hi);
      var p := ProductUpTo(lo + 1, hi - 1);
      calc {
        ProductUpTo(lo, hi);
        lo * ProductUpTo(lo + 1, hi);
        lo * (p * hi);
        { MulAssociates(lo, p, hi); }
        (lo * p) * hi;
        ProductUpTo(lo, hi - 1) * hi;
      }
    } else {
      assert ProductUpTo(lo, hi) == hi * ProductUpTo(hi + 1, hi);
    }
  }

  lemma MulAssociates(a: nat, b: nat, c: nat)
    ensures a * (b * c) == (a * b) * c
  {
  }

  /** `factorial(n)` is the product `1 * 2 * ... * n`. */
  lemma {:induction false} FactorialIsProduct(n: nat)
    requires n >= 1
    ensures Factorial(n) == ProductUpTo(1, n)
  {
    if n > 1 {
      FactorialIsProduct(n - 1);
      ProductSplitsAtTop(1, n);
    }
  }

  /** `static_assert(Factorial<14>::value)`: 14! is not zero and still fits
      in a 64-bit `size_t`. */
  lemma FactorialOfFourteen()
    ensures FactorialValue(14) == 87178291200
    ensures 0 < FactorialValue(14) < SIZE_T_LIMIT
  {
    FactorialTemplateMatchesFunction(14);
    assert Factorial(5) == 120;
    assert Factorial(10) == 3628800;
  }

  /** `IsPointer<T>::value`: true only through the `IsPointer<T*>`
      specialisation. */
  function IsPointer(t: Type): (r: bool)
    ensures r <==> exists p :: t == Pointer(p)
  {
    match t
    case Pointer(_) => true
    case _ => false
  }

  /** `IsVoid<T>::value`: true only through the `IsVoid<void>`
      specialisation. */
  function IsVoid(t: Type): (r: bool)
    ensures r <==> t == Void
  {
    match t
    case Void => true
    case _ => false
  }

  /** The "IsPointer" and "IsVoid" tests. */
  lemma IsPointerAndIsVoidExamples()
    ensures IsPointer(Pointer(Int)) && !IsPointer(Int)
    ensures IsVoid(Void) && !IsVoid(Int)
  {
  }

  /** `RemoveReference<T>::type`: the `T&` and `T&&` specialisations strip
      one reference, the primary template leaves `T` alone. */
  function RemoveReference(t: Type): (r: Type)
    ensures !IsReference(t) ==> r == t
    ensures IsReference(t) ==> t == LRef(r) || t == RRef(r)
    ensures WellFormed(t) ==> WellFormed(r) && !IsReference(r)
  {
    match t
    case LRef(u) => u
    case RRef(u) => u
    case _ => t
  }

  /** On any type one can write, stripping the reference twice is the
      same as stripping it once. */
  lemma RemoveReferenceIdempotent(t: Type)
    requires WellFormed(t)
    ensures RemoveReference(RemoveReference(t)) == RemoveReference(t)
  {
  }

  /** The "remove reference" test: `RemoveReference_t<int&>` is `int`. */
  lemma RemoveReferenceExamples()
    ensures RemoveReference(LRef(Int)) == Int
    ensures RemoveReference(RRef(Int)) == Int
    ensures RemoveReference(Pointer(Int)) == Pointer(Int)
  {
  }

  /** `zero(container)` of this file: the element type is
      `RemoveReference_t<decltype(*std::begin(container))>`, and every item
      is assigned its value-initialised value, given here as `zero`. */
  method Zero<T>(container: array<T>, zero: T)
    modifies container
    ensures forall i :: 0 <= i < container.Length ==> container[i] == zero
  {
    var i := 0;
    while i < container.Length
      invariant 0 <= i <= container.Length
      invariant forall k :: 0 <= k < i ==> container[k] == zero
    {
      container[i] := zero;
      i := i + 1;
    }
  }
}
