/** The template-function exercise: `find_if` bounded by an end iterator and
    by a sentinel, `zero` over a container, and `accumulate` up to a
    sentinel.

    An iterator into a container is its position, a `nat` index into the
    sequence of elements; `begin` is 0 and `end` is the length. A sentinel
    is whatever the loop compares the iterator against with `!=`. */
module ExTemplateFunctions {

  /** The three sentinels used by the exercise: the end iterator of a range
      (`end(vec)`), `Unreachable` (its `==` is always false) and
      `EndValue42`-style sentinels (`==` holds where the element equals a
      given value; the tests use 42). */
  datatype Sentinel<T> = EndAt(position: nat) | Unreachable | EndValue(value: T)

  /** `it == sentinel`, the comparison that stops a loop at position `i`.
      Comparing with an `EndValue` sentinel dereferences the iterator, so it
      is only defined at positions that hold an element. */
  predicate Reached<T(==)>(sentinel: Sentinel<T>, s: seq<T>, i: nat): (r: bool)
    ensures sentinel.Unreachable? ==> !r
    ensures sentinel.EndAt? ==> (r <==> i == sentinel.position)
    ensures sentinel.EndValue? ==> (r <==> i < |s| && s[i] == sentinel.value)
  {
    match sentinel
    case EndAt(e) => i == e
    case Unreachable => false
    case EndValue(v) => i < |s| && s[i] == v
  }

  /** Where the sentinel variant of `find_if` stops: at the sentinel or at
      an element that passes the check. */
  predicate Stops<T(==)>(sentinel: Sentinel<T>, check: T -> bool, s: seq<T>, i: nat) {
    Reached(sentinel, s, i) || (i < |s| && check(s[i]))
  }

  /** `TODO::Ver_1::find_if(it_begin, it_end, check_fn)`: the first position
      in `[first, last)` whose element passes `check`, or `last` when there
      is none. */
  method FindIf<T>(s: seq<T>, first: nat, last: nat, check: T -> bool) returns (pos: nat)
    requires first <= last <= |s|
    ensures first <= pos <= last
    ensures pos < last ==> check(s[pos])
    ensures forall i :: first <= i < pos ==> !check(s[i])
  {
    var curr := first;
    while curr != last
      invariant first <= curr <= last
      invariant forall i :: first <= i < curr ==> !check(s[i])
    {
      if check(s[curr]) {
        return curr;
      }
      curr := curr + 1;
    }
    return last;
  }

  /** `TODO::Ver_2::find_if(it_begin, sentinel, check_fn)`: walks from
      `first` until the iterator equals the sentinel or an element passes
      the check, and returns that position. Running past the last element
      is undefined, so some position up to the end must stop the walk; with
      `Unreachable` that means some element must pass the check. */
  method FindIfSentinel<T(==)>(s: seq<T>, first: nat, sentinel: Sentinel<T>, check: T -> bool)
    returns (pos: nat)
    requires exists k :: first <= k <= |s| && Stops(sentinel, check, s, k)
    ensures first <= pos <= |s|
    ensures Stops(sentinel, check, s, pos)
    ensures forall i :: first <= i < pos ==> !Stops(sentinel, check, s, i)
  {
    var curr := first;
    while !Reached(sentinel, s, curr)
      invariant first <= curr <= |s|
      invariant forall i :: first <= i < curr ==> !Stops(sentinel, check, s, i)
      invariant exists k :: curr <= k <= |s| && Stops(sentinel, check, s, k)
      decreases |s| - curr
    {
      if check(s[curr]) {
        return curr;
      }
      curr := curr + 1;
    }
    return curr;
  }

  /** The "happy path" test: `find_if(begin(vec), end(vec), ...)` resolves
      to the inline `Ver_2`, with `end(vec)` as the sentinel; 665 is found
      at position 4. */
  method FindLesserEvil() returns (pos: nat)
    ensures pos == 4
  {
    var vec := [1, 2, 3, 4, 665, 124, 4, 55, 234];
    assert Stops(EndAt(|vec|), x => x == 665, vec, 4);
    pos := FindIfSentinel(vec, 0, EndAt(|vec|), x => x == 665);
  }

  /** The "sad path" test: without 665 the end position comes back. */
  method FindMissingLesserEvil() returns (pos: nat)
    ensures pos == 8
  {
    var vec := [1, 2, 3, 4, 124, 4, 55, 234];
    assert Stops(EndAt(|vec|), x => x == 665, vec, |vec|);
    pos := FindIfSentinel(vec, 0, EndAt(|vec|), x => x == 665);
  }

  /** The "unreachable sentinel" test: the walk stops at the first 42. */
  method FindFirst42WithoutEnd() returns (pos: nat)
    ensures pos == 4
  {
    var vec := [1, 2, 3, 4, 42, 4, 42, 234];
    assert Stops(Unreachable, x => x == 42, vec, 4);
    pos := FindIfSentinel(vec, 0, Unreachable, x => x == 42);
    assert vec[4] == 42;
  }

  /** `TODO::zero(container)`: every item is assigned the value-initialised
      `T{}`, given here as `zero`; the number of items stays the same. */
  method Zero<T>(container: array<T>, zero: T)
    modifies container
    ensures forall i :: 0 <= i < container.Length ==> container[i] == zero
  {
    for i := 0 to container.Length
      invariant forall k :: 0 <= k < i ==> container[k] == zero
    {
      container[i] := zero;
    }
  }

  /** The "zero" test on a `vector<int>`: {1, 2, 3, 4} becomes {0, 0, 0, 0}. */
  method ZeroVectorOfInts() returns (items: seq<int>)
    ensures items == [0, 0, 0, 0]
  {
    var vec := new int[4][1, 2, 3, 4];
    Zero(vec, 0);
    items := vec[..];
  }

  /** The "zero" test on a `list<string>`: every string becomes empty. */
  method ZeroListOfStrings() returns (items: seq<string>)
    ensures items == ["", "", ""]
  {
    var lst := new string[3]["one", "two", "three"];
    Zero(lst, "");
    items := lst[..];
  }

  /** The left fold of `+=`: `init`, then each element added on the right
      in order. */
  function Accumulated<T>(plus: (T, T) -> T, init: T, s: seq<T>): T {
    if s == [] then init else plus(Accumulated(plus, init, s[..|s| - 1]), s[|s| - 1])
  }

  /** The first position from `from` on where the sentinel is reached. */
  function FirstReached<T(==)>(sentinel: Sentinel<T>, s: seq<T>, from: nat): (r: nat)
    requires exists k :: from <= k <= |s| && Reached(sentinel, s, k)
    ensures from <= r <= |s|
    ensures Reached(sentinel, s, r)
    ensures forall i :: from <= i < r ==> !Reached(sentinel, s, i)
    decreases |s| - from
  {
    if Reached(sentinel, s, from) then from else FirstReached(sentinel, s, from + 1)
  }

  /** `TODO::accumulate(it_begin, sentinel)`: `result` starts as `T{}`
      (given as `zero`) and every element before the sentinel is added to
      it with `+=` (given as `plus`). The loop has no other bound, so the
      sentinel must be reached at or before the end. */
  method Accumulate<T(==)>(s: seq<T>, first: nat, sentinel: Sentinel<T>, zero: T, plus: (T, T) -> T)
    returns (result: T)
    requires exists k :: first <= k <= |s| && Reached(sentinel, s, k)
    ensures result == Accumulated(plus, zero, s[first..FirstReached(sentinel, s, first)])
    ensures Reached(sentinel, s, first) ==> result == zero
  {
    ghost var stop := FirstReached(sentinel, s, first);
    result := zero;
    var curr := first;
    while !Reached(sentinel, s, curr)
      invariant first <= curr <= stop
      invariant result == Accumulated(plus, zero, s[first..curr])
      decreases stop - curr
    {
      assert s[first..curr + 1][..curr - first] == s[first..curr];
      result := plus(result, s[curr]);
      curr := curr + 1;
    }
  }

  function IntPlus(a: int, b: int): int { a + b }

  function StringPlus(a: string, b: string): string { a + b }

  /** The "my accumulate / ints" test: 1 + 2 + 3 + 4 + 5. */
  method AccumulateInts() returns (result: int)
    ensures result == 15
  {
    var data := [1, 2, 3, 4, 5];
    assert Reached(EndAt(5), data, 5);
    result := Accumulate(data, 0, EndAt(|data|), 0, IntPlus);
    assert data[0..5] == data;
    SumOfOneToFive();
  }

  /** The "my accumulate / strings" test: the words are concatenated. */
  method AccumulateStrings() returns (result: string)
    ensures result == "onetwothree"
  {
    var words := ["one", "two", "three"];
    assert Reached(EndAt(3), words, 3);
    result := Accumulate(words, 0, EndAt(|words|), "", StringPlus);
    assert words[0..3] == words;
    assert words[..2] == ["one", "two"] && words[..2][..1] == ["one"] && ["one"][..0] == [];
    assert Accumulated(StringPlus, "", ["one"]) == "one";
    assert Accumulated(StringPlus, "", ["one", "two"]) == "onetwo";
  }

  /** The "sentinels" test: only the elements before the first 42 are
      summed. */
  method AccumulateUpTo42() returns (result: int)
    ensures result == 15
  {
    var vec := [1, 2, 3, 4, 5, 42, 6, 7, 8, 9];
    assert Reached(EndValue(42), vec, 5);
    result := Accumulate(vec, 0, EndValue(42), 0, IntPlus);
    assert FirstReached(EndValue(42), vec, 0) == 5;
    assert vec[0..5] == [1, 2, 3, 4, 5];
    SumOfOneToFive();
  }

  lemma SumOfOneToFive()
    ensures Accumulated(IntPlus, 0, [1, 2, 3, 4, 5]) == 15
  {
    var d := [1, 2, 3, 4, 5];
    assert d[..4] == [1, 2, 3, 4] && d[..4][..3] == [1, 2, 3];
    assert d[..4][..3][..2] == [1, 2] && [1, 2][..1] == [1] && [1][..0] == [];
    assert Accumulated(IntPlus, 0, [1]) == 1;
    assert Accumulated(IntPlus, 0, [1, 2]) == 3;
    assert Accumulated(IntPlus, 0, [1, 2, 3]) == 6;
    assert Accumulated(IntPlus, 0, [1, 2, 3, 4]) == 10;
  }
}
