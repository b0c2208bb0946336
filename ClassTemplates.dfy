/** The class-template examples: `Array<T, N>`, an aggregate over a built-in
    array of `N` items, and the functions parameterised by non-type
    template arguments (`scale_by`, `scale_with_pair`, `scale_by_func`). */
module ClassTemplates {

  /** `Array<T, N>`: the `N` items live in a fixed block that the object
      owns; `N` is the length of that block. An iterator is a position in
      the block. */
  class Array<T> {
    const items: array<T>

    /** Aggregate initialisation `Array<T, N> a = {}`: every item is
        value-initialised, given here as `init`. */
    constructor (n: nat, init: T)
      ensures items.Length == n && fresh(items)
      ensures forall i :: 0 <= i < n ==> items[i] == init
    {
      items := new T[n](_ => init);
    }

    /** `size()`: `N`, whatever the items hold. */
    function Size(): (n: nat)
      ensures n == items.Length
    {
      items.Length
    }

    /** `begin()`: the position of the first item. */
    function Begin(): (it: nat)
      ensures it == 0
    {
      0
    }

    /** `end()`: `items + N`, one past the last item. */
    function End(): (it: nat)
      ensures it == Begin() + Size()
    {
      items.Length
    }

    /** `operator[](index) const`: the item at `index`. Like the built-in
        array it wraps, it checks nothing, so the index must be in range. */
    function Get(index: nat): (r: T)
      requires index < Size()
      reads items
      ensures r == items[index]
    {
      items[index]
    }

    /** Writing through the reference `operator[](index)` returns: only the
        item at `index` changes. */
    method Set(index: nat, v: T)
      requires index < Size()
      modifies items
      ensures items[..] == old(items[..])[index := v]
    {
      items[index] := v;
    }

    /** `for (auto& item : arr) item = v;`: the range-for walks from
        `begin()` to `end()` and assigns each item. */
    method AssignEach(v: T)
      modifies items
      ensures items[..] == seq(Size(), _ => v)
    {
      var it := Begin();
      while it != End()
        invariant Begin() <= it <= End()
        invariant forall k :: 0 <= k < it ==> items[k] == v
        decreases End() - it
      {
        items[it] := v;
        it := it + 1;
      }
    }
  }

  /** The "class templates" test: `Array<int, 10> arr1 = {}` has size 10,
      and after the loop every item is 0. */
  method ArrayOfTenInts() returns (size: nat, contents: seq<int>)
    ensures size == 10
    ensures contents == [0, 0, 0, 0, 0, 0, 0, 0, 0, 0]
  {
    var arr1 := new Array<int>(10, 0);
    size := arr1.Size();
    arr1.AssignEach(0);
    contents := arr1.items[..];
  }

  /** A structural non-type template argument. */
  datatype Coefficients = Coefficients(a: int, b: int)

  /** `scale_by<C>(x)`: `C.a * x + C.b`. */
  function ScaleBy(c: Coefficients, x: int): (r: int)
    ensures x == 0 ==> r == c.b
    ensures c.a == 0 ==> r == c.b
    ensures c.a == 1 ==> r == x + c.b
  {
    c.a * x + c.b
  }

  /** `scale_by<C>` is the affine map with slope `C.a` and intercept `C.b`:
      it sends 0 to `C.b`, and any two inputs `x`, `y` to results that
      differ by `C.a * (x - y)`. */
  lemma ScaleByIsAffine(c: Coefficients, x: int, y: int)
    ensures ScaleBy(c, 0) == c.b
    ensures ScaleBy(c, x) - ScaleBy(c, y) == c.a * (x - y)
  {
    calc {
      ScaleBy(c, x) - ScaleBy(c, y);
      (c.a * x + c.b) - (c.a * y + c.b);
      c.a * x - c.a * y;
      c.a * (x - y);
    }
  }

  /** `scale_with_pair<C>(x)`: `C.first * x + C.second`. */
  function ScaleWithPair(c: (int, int), x: int): (r: int)
    ensures r == ScaleBy(Coefficients(c.0, c.1), x)
  {
    c.0 * x + c.1
  }

  /** `scale_by_func<Function>(x)`: `Function(x)`. */
  function ScaleByFunc(f: int -> int, x: int): (r: int)
    ensures r == f(x)
  {
    f(x)
  }

  /** Passing the affine lambda of some coefficients as the template
      argument gives `scale_by` back. */
  lemma ScaleByFuncGeneralisesScaleBy(c: Coefficients, x: int)
    ensures ScaleByFunc(y => c.a * y + c.b, x) == ScaleBy(c, x)
  {
  }

  /** The "C++20" test, apart from the floating-point `scale<2.0>`. */
  lemma ScaleExamples()
    ensures ScaleBy(Coefficients(1, 2), 3) == 5
    ensures ScaleWithPair((1, 10), 2) == 12
    ensures ScaleByFunc(x => 42 * x, 2) == 84
  {
  }
}
