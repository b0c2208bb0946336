/** The client side of the stack exercise (`pop_all` and the LIFO tests) and
    `IndexedSet`, a `std::set` with positional access. */
module ExClassTemplates {
  import opened StackHeader

  /** The elements of `s` read from the back to the front: the order in
      which a stack whose container is `s` hands them out. */
  function Reversed<T>(s: seq<T>): (r: seq<T>)
    ensures |r| == |s|
  {
    if s == [] then [] else [s[|s| - 1]] + Reversed(s[..|s| - 1])
  }

  lemma {:induction false} ReversedAt<T>(s: seq<T>, k: nat)
    requires k < |s|
    ensures Reversed(s)[k] == s[|s| - 1 - k]
  {
    if k > 0 {
      ReversedAt(s[..|s| - 1], k - 1);
    }
  }

  /** `pop_all`: a vector of `s.size()` value-initialised slots is filled,
      front to back, by popping the stack into each slot. */
  method PopAll<T(0)>(s: Stack<T>) returns (values: seq<T>)
    modifies s
    ensures |values| == |old(s.container)|
    ensures values == Reversed(old(s.container))
    ensures s.container == []
  {
    ghost var c0 := s.container;
    var n := s.Size();
    var slots := new T[n];
    for i := 0 to n
      invariant s.container == c0[..n - i]
      invariant forall k :: 0 <= k < i ==> slots[k] == c0[n - 1 - k]
    {
      slots[i] := s.Pop();
    }
    values := slots[..];
    forall k | 0 <= k < n
      ensures values[k] == Reversed(c0)[k]
    {
      ReversedAt(c0, k);
    }
  }

  /** The "Popping an item / LIFO order" test: push 1 then 4, pop twice. */
  method PopTwiceAfterPushingOneAndFour() returns (a: int, b: int)
    ensures a == 4 && b == 1
  {
    var s := new Stack<int>();
    s.Push(1);
    s.Push(4);
    a := s.Pop();
    b := s.Pop();
  }

  /** The "Pop all items" test: two pushes, two values, top first. */
  method PopAllAfterPushingOneAndFour() returns (values: seq<int>)
    ensures |values| == 2 && values == [4, 1]
  {
    var s := new Stack<int>();
    s.Push(1);
    s.Push(4);
    values := PopAll(s);
    assert Reversed([1, 4]) == [4] + Reversed([1]);
  }

  /** A strictly increasing sequence has as many distinct elements as
      positions. */
  lemma {:induction false} StrictlyIncreasingCardinality(p: seq<int>)
    requires forall i, j :: 0 <= i < j < |p| ==> p[i] < p[j]
    ensures |set y | y in p| == |p|
  {
    if p != [] {
      var q := p[..|p| - 1];
      StrictlyIncreasingCardinality(q);
      assert (set y | y in p) == (set y | y in q) + {p[|p| - 1]};
      assert p[|p| - 1] !in (set y | y in q);
    }
  }

  /** `std::set<int>` keeps its elements in ascending order without
      repetition; that ascending sequence is the value modelled here. */
  datatype IndexedSet = IndexedSet(items: seq<int>) {

    ghost predicate Valid() {
      forall i, j :: 0 <= i < j < |items| ==> items[i] < items[j]
    }

    function Elements(): set<int> {
      set y | y in items
    }

    /** How many elements of the set are smaller than `x`. */
    function Rank(x: int): nat {
      |set y | y in items && y < x|
    }

    /** `find(x) != end()`. */
    function Contains(x: int): (found: bool)
      ensures found <==> x in Elements()
    {
      x in items
    }

    /** `insert(x)`: the ordered set gains `x` (nothing happens when it is
        already there). */
    function Insert(x: int): (r: IndexedSet)
      requires Valid()
      ensures r.Valid()
      ensures r.Elements() == Elements() + {x}
    {
      IndexedSet(InsertAscending(items, x))
    }

    /** `operator[](index)`: `*std::next(begin(), index)`, the element
        reached after `index` steps of the in-order iterator. Stepping past
        the end is undefined, so the index must be below the size. */
    function At(index: nat): (r: int)
      requires Valid()
      requires index < |items|
      ensures r in Elements()
      ensures Rank(r) == index
    {
      SmallerArePrefix(items, index);
      StrictlyIncreasingCardinality(items[..index]);
      items[index]
    }
  }

  function InsertAscending(s: seq<int>, x: int): (r: seq<int>)
    requires forall i, j :: 0 <= i < j < |s| ==> s[i] < s[j]
    ensures forall i, j :: 0 <= i < j < |r| ==> r[i] < r[j]
    ensures forall y :: y in r <==> y in s || y == x
  {
    if s == [] then [x]
    else if x < s[0] then [x] + s
    else if x == s[0] then s
    else
      var rest := InsertAscending(s[1..], x);
      assert forall y :: y in s[1..] ==> s[0] < y;
      assert forall j :: 0 <= j < |rest| ==> rest[j] in rest;
      [s[0]] + rest
  }

  /** In an ascending sequence the elements below `p[k]` are exactly those
      at positions before `k`. */
  lemma SmallerArePrefix(p: seq<int>, k: nat)
    requires forall i, j :: 0 <= i < j < |p| ==> p[i] < p[j]
    requires k < |p|
    ensures (set y | y in p && y < p[k]) == (set y | y in p[..k])
    ensures forall i, j :: 0 <= i < j < |p[..k]| ==> p[..k][i] < p[..k][j]
  {
    forall y | y in p && y < p[k]
      ensures y in p[..k]
    {
      var i :| 0 <= i < |p| && p[i] == y;
      assert i < k;
    }
  }

  /** The "Inherit from std container" test: {1, 2, 4, 5, 6, 7} plus 3
      still contains 5, and position 2 now holds 3. */
  lemma InsertThreeThenIndexTwo()
    ensures IndexedSet([1, 2, 4, 5, 6, 7]).Valid()
    ensures IndexedSet([1, 2, 4, 5, 6, 7]).Insert(3).Contains(5)
    ensures IndexedSet([1, 2, 4, 5, 6, 7]).Insert(3).At(2) == 3
  {
    var s1 := [1, 2, 4, 5, 6, 7];
    assert s1[1..] == [2, 4, 5, 6, 7];
    assert s1[1..][1..] == [4, 5, 6, 7];
    assert InsertAscending([4, 5, 6, 7], 3) == [3, 4, 5, 6, 7];
    assert InsertAscending([2, 4, 5, 6, 7], 3) == [2, 3, 4, 5, 6, 7];
    assert InsertAscending(s1, 3) == [1, 2, 3, 4, 5, 6, 7];
  }
}
