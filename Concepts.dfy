/** The constrained overloads of `concepts.cpp`.
    The value overloads of `max_value` in `Ver_1`, `Ver_3` and `Ver_4` are
    the very template of the function-template examples and are modelled by
    `FunctionTemplates.MaxValue`; what is new here is the pointer overload,
    the `gen_id` counter and `add_to_container`. */
module Concepts {
  import opened Pointers
  import opened FunctionTemplates
  import TypeTraits

  /** The pointer overload of `max_value` in `Ver_3` (and the identical one
      in `Ver_1`): both pointers are asserted non-null, then the value
      overload is applied to the pointees. The result is a pointee value,
      never a pointer. */
  function MaxPointee<T>(a: Cell?<T>, b: Cell?<T>, less: (T, T) -> bool): (r: T)
    requires a != null && b != null
    reads a, b
    ensures r == a.value || r == b.value
    ensures less(a.value, b.value) ==> r == b.value
    ensures !less(a.value, b.value) ==> r == a.value
  {
    MaxValue(a.value, b.value, less)
  }

  /** `Ver_3::Pointer<T>` is `std::is_pointer_v<T>`: `int*` satisfies it,
      `int` and `int&` do not. */
  lemma PointerConceptExamples()
    ensures TypeTraits.IsPointer(TypeTraits.Pointer(TypeTraits.Int))
    ensures !TypeTraits.IsPointer(TypeTraits.Int)
    ensures !TypeTraits.IsPointer(TypeTraits.LRef(TypeTraits.Int))
  {
  }

  /** The "concepts" test: `max_value(42, 665) == 665` picks the value
      overload, and `max_value(&x, &y) == 665` for x = 52, y = 665 picks the
      pointer one. */
  method MaxOfPointedInts() returns (m: int)
    ensures m == 665
    ensures MaxValue(42, 665, IntLess) == 665
  {
    var x := new Cell(52);
    var y := new Cell(665);
    m := MaxPointee(x, y, IntLess);
  }

  /** Anything `Ver_4::Pointer` accepts: a handle that compares with
      `nullptr` and can be dereferenced, such as a raw pointer or a
      `std::shared_ptr`. Only its null state and its pointee matter. */
  datatype Handle<T> = Null | To(pointee: T)

  /** The handle view of a raw pointer, read at the moment of the call. */
  function HandleOf<T>(p: Cell?<T>): (h: Handle<T>)
    reads p
    ensures h.Null? <==> p == null
    ensures p != null ==> h.pointee == p.value
  {
    if p == null then Null else To(p.value)
  }

  /** `Ver_4`'s pointer overload: non-null asserted, maximum of the
      pointees. */
  function MaxHandlePointee<T>(a: Handle<T>, b: Handle<T>, less: (T, T) -> bool): (r: T)
    requires a.To? && b.To?
    ensures r == a.pointee || r == b.pointee
    ensures less(a.pointee, b.pointee) ==> r == b.pointee
    ensures !less(a.pointee, b.pointee) ==> r == a.pointee
  {
    MaxValue(a.pointee, b.pointee, less)
  }

  /** On raw pointers the `Ver_4` overload agrees with the `Ver_3` one. */
  lemma RawPointersAreHandles<T>(a: Cell<T>, b: Cell<T>, less: (T, T) -> bool)
    ensures MaxHandlePointee(HandleOf(a), HandleOf(b), less) == MaxPointee(a, b, less)
  {
  }

  /** The "concepts 2" test with `std::shared_ptr`s to 53 and 653. */
  lemma MaxOfSharedPointers()
    ensures MaxHandlePointee(To(53), To(653), IntLess) == 653
  {
  }

  /** `gen_id`'s `static uint64_t i` wraps around at 2^64. */
  const UINT64_LIMIT: nat := 0x1_0000_0000_0000_0000

  /** The value `++i` leaves in a `uint64_t` counter holding `i`. */
  function NextId(i: nat): (r: nat)
    requires i < UINT64_LIMIT
    ensures r < UINT64_LIMIT
    ensures i + 1 < UINT64_LIMIT ==> r == i + 1
    ensures i + 1 == UINT64_LIMIT ==> r == 0
  {
    (i + 1) % UINT64_LIMIT
  }

  /** The ids that `n` successive calls hand out when the counter holds
      `start`. */
  function IdsFrom(start: nat, n: nat): (ids: seq<nat>)
    requires start < UINT64_LIMIT
    ensures |ids| == n
    decreases n
  {
    if n == 0 then [] else [NextId(start)] + IdsFrom(NextId(start), n - 1)
  }

  /** Until the counter wraps, the k-th call after `start` returns
      `start + k + 1`: successive ids grow by one. */
  lemma {:induction false} IdsCountUp(start: nat, n: nat)
    requires start + n < UINT64_LIMIT
    ensures forall k :: 0 <= k < n ==> IdsFrom(start, n)[k] == start + k + 1
    decreases n
  {
    if n > 0 {
      IdsCountUp(start + 1, n - 1);
    }
  }

  /** Ids from a fresh counter: 1, 2, 3, ..., strictly increasing. */
  lemma IdsIncrease(n: nat)
    requires n < UINT64_LIMIT
    ensures forall j, k :: 0 <= j < k < n ==> IdsFrom(0, n)[j] < IdsFrom(0, n)[k]
    ensures n > 0 ==> IdsFrom(0, n)[0] == 1
  {
    IdsCountUp(0, n);
  }

  /** The function-local `static` counter behind `gen_id`. */
  class IdGenerator {
    var counter: nat

    ghost predicate Valid()
      reads this
    {
      counter < UINT64_LIMIT
    }

    /** `static uint64_t i = 0`. */
    constructor ()
      ensures Valid() && counter == 0
    {
      counter := 0;
    }

    /** `return ++i;` */
    method GenId() returns (id: nat)
      requires Valid()
      modifies this
      ensures Valid()
      ensures id == NextId(old(counter)) && counter == id
    {
      counter := (counter + 1) % UINT64_LIMIT;
      id := counter;
    }
  }

  /** `n` successive calls of `gen_id`: the ids handed out are `IdsFrom` the
      counter's value before the first call. */
  method GenIds(g: IdGenerator, n: nat) returns (ids: seq<nat>)
    requires g.Valid()
    modifies g
    ensures g.Valid()
    ensures ids == IdsFrom(old(g.counter), n)
    ensures g.counter == if n == 0 then old(g.counter) else ids[n - 1]
  {
    ghost var c0 := g.counter;
    ids := [];
    var i := 0;
    while i < n
      invariant 0 <= i <= n
      invariant g.Valid()
      invariant ids + IdsFrom(g.counter, n - i) == IdsFrom(c0, n)
      invariant |ids| == i
      invariant g.counter == if i == 0 then c0 else ids[i - 1]
    {
      ghost var before := g.counter;
      var id := g.GenId();
      assert IdsFrom(before, n - i) == [id] + IdsFrom(id, n - i - 1);
      ids := ids + [id];
      i := i + 1;
    }
  }

  /** From a fresh generator, `n` calls (fewer than 2^64) hand out 1, 2, ...,
      `n`, each larger than the one before. */
  method FreshIdsIncrease(n: nat) returns (ids: seq<nat>)
    requires n < UINT64_LIMIT
    ensures |ids| == n
    ensures forall k :: 0 <= k < n ==> ids[k] == k + 1
    ensures forall j, k :: 0 <= j < k < n ==> ids[j] < ids[k]
  {
    var g := new IdGenerator();
    ids := GenIds(g, n);
    IdsCountUp(0, n);
    IdsIncrease(n);
  }

  /** The first two ids of the program are 1 and 2. */
  method FirstTwoIds() returns (first: nat, second: nat)
    ensures first == 1 && second == 2
  {
    var g := new IdGenerator();
    first := g.GenId();
    second := g.GenId();
  }

  /** `add` constrained by `Addable`: both arguments and the result of
      `a + b` have one type `T`, so no conversion takes place; the sum is
      `T`'s own `+`, given here as `plus`. */
  function AddableAdd<T>(a: T, b: T, plus: (T, T) -> T): (r: T)
    ensures r == plus(a, b)
  {
    plus(a, b)
  }

  /** On `std::string`, which is `Addable`, the constrained `add` is the
      concatenation that `FunctionTemplates.Add` describes: `a` followed by
      `b`. */
  lemma AddableAddOnStrings(a: string, b: string)
    ensures AddableAdd(a, b, (x: string, y: string) => x + y) == Add(a, b)
    ensures AddableAdd(a, b, (x: string, y: string) => x + y)[..|a|] == a
  {
    assert (a + b)[..|a|] == a;
  }

  /** The two kinds of container `add_to_container` is called with: one
      with `push_back` (`std::vector`) and one with only `insert`
      (`std::set`). */
  datatype Storage<T> = Sequence(items: seq<T>) | Ordered(elements: set<T>)

  /** `requires { container.push_back(value); }` */
  predicate HasPushBack<T(==)>(s: Storage<T>) {
    s.Sequence?
  }

  /** What `add_to_container` makes of a container: a sequence grows at
      the back by exactly `value`; a set gains `value`. */
  function Added<T(==)>(s: Storage<T>, value: T): (r: Storage<T>)
    ensures HasPushBack(r) <==> HasPushBack(s)
    ensures s.Sequence? ==> |r.items| == |s.items| + 1 && r.items[..|s.items|] == s.items && r.items[|s.items|] == value
    ensures s.Ordered? ==> value in r.elements && r.elements - {value} == s.elements - {value}
  {
    match s
    case Sequence(items) => Sequence(items + [value])
    case Ordered(elements) => Ordered(elements + {value})
  }

  class Container<T(==)> {
    var storage: Storage<T>

    constructor (s: Storage<T>)
      ensures storage == s
    {
      storage := s;
    }
  }

  /** `add_to_container(container, value)`: `push_back` when the container
      has it, `insert` otherwise; the container is changed in place. */
  method AddToContainer<T(==)>(container: Container<T>, value: T)
    modifies container
    ensures container.storage == Added(old(container.storage), value)
  {
    if HasPushBack(container.storage) {
      container.storage := Sequence(container.storage.items + [value]);
    } else {
      container.storage := Ordered(container.storage.elements + {value});
    }
  }

  /** The "requires expression" test: 42 lands at `v[0]` of an empty vector
      and in an empty set. */
  method AddFortyTwo() returns (v: seq<int>, s: set<int>)
    ensures v == [42] && s == {42}
  {
    var vec := new Container(Sequence([]));
    AddToContainer(vec, 42);
    v := vec.storage.items;
    var st := new Container(Ordered({}));
    AddToContainer(st, 42);
    s := st.storage.elements;
  }
}
