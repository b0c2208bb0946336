/** The run-time side of the type-deduction examples: the perfect-forwarding
    `Container::add`, the two `Explain::size` overloads, `get_nth` and
    `multiply`; and the compile-time rules they rely on, reference
    collapsing and `Explain::forward`, as functions over
    `TypeTraits.Type`. */
module TypeDeduction {
  import opened TypeTraits

  /** `struct Container` with its `std::vector<std::string> items`. */
  class Container {
    var items: seq<string>

    constructor ()
      ensures items == []
    {
      items := [];
    }

    /** `add(TItem&& item)`: `items.push_back(std::forward<TItem>(item))`.
        Whether the string is copied (an lvalue) or moved (an rvalue), the
        vector gains one item at the back and keeps the earlier ones. */
    method Add(item: string)
      modifies this
      ensures items == old(items) + [item]
    {
      items := items + [item];
    }
  }

  /** The "perfect forwarding" test: an lvalue `str` and then a temporary
      are added, in that order. */
  method PerfectForwarding() returns (items: seq<string>)
    ensures items == ["text", "abc"]
  {
    var container := new Container();
    var str := "text";
    container.Add(str);
    container.Add("abc");
    items := container.items;
  }

  /** `Explain::size(const TContainer&)`: the container's own `size()`, the
      number of elements it holds. */
  function ContainerSize<T>(container: seq<T>): (n: nat)
    ensures n == |container|
  {
    |container|
  }

  /** `Explain::size(T (&arr)[N])`: the `N` of the array's type, whatever
      its items hold. */
  function NativeArraySize<T>(arr: array<T>): (n: nat)
    ensures n == arr.Length
  {
    arr.Length
  }

  /** The "size" test: a vector built from {1, 2, 3} has size 3; the native
      array `int native_tab[10] = {1, 2, 3}` has size 10, the items not
      named in the initialiser being zero. */
  method SizeOfVectorAndNativeArray() returns (vectorSize: nat, arraySize: nat, tab: seq<int>)
    ensures vectorSize == 3 && arraySize == 10
    ensures tab == [1, 2, 3, 0, 0, 0, 0, 0, 0, 0]
  {
    vectorSize := ContainerSize([1, 2, 3]);
    var native := new int[10](i => if i == 0 then 1 else if i == 1 then 2 else if i == 2 then 3 else 0);
    arraySize := NativeArraySize(native);
    tab := native[..];
  }

  /** Reading `get_nth(container, nth)`: `container[nth]`, unchecked, so
      `nth` must be below the size. */
  function GetNth<T>(container: array<T>, nth: nat): (r: T)
    requires nth < container.Length
    reads container
    ensures r == container[nth]
  {
    container[nth]
  }

  /** `get_nth(container, nth) = value`: `decltype(auto)` returns the
      element's reference, so the assignment replaces element `nth` and
      nothing else. */
  method AssignNth<T>(container: array<T>, nth: nat, value: T)
    requires nth < container.Length
    modifies container
    ensures container[..] == old(container[..])[nth := value]
  {
    container[nth] := value;
  }

  /** After assigning through `get_nth`, reading it back gives the new value
      and every other element is as before. */
  method AssignThenGet<T>(container: array<T>, nth: nat, value: T) returns (read: T)
    requires nth < container.Length
    modifies container
    ensures read == value
    ensures container[nth] == value
    ensures forall i :: 0 <= i < container.Length && i != nth ==> container[i] == old(container[i])
  {
    AssignNth(container, nth, value);
    read := GetNth(container, nth);
  }

  /** The "auto vs. decltype(auto)" test. */
  method GetNthExamples() returns (result: int, vec: seq<int>, words: seq<string>, bools: seq<bool>)
    ensures result == 2
    ensures vec == [1, 665, 3]
    ensures words == ["new", "two"]
    ensures bools == [false, false, true, true]
  {
    var v := new int[3](i => i + 1);
    result := GetNth(v, 1);
    AssignNth(v, 1, 665);
    vec := v[..];
    var w := new string[2](i => if i == 0 then "one" else "two");
    AssignNth(w, 0, "new");
    words := w[..];
    var b := new bool[4](i => i != 0);
    AssignNth(b, 1, false);
    bools := b[..];
  }

  /** `multiply(a, b)`: `a * b` on the common argument type, here `int`,
      whose products must stay within 32 bits. */
  function Multiply(a: int, b: int): (r: int)
    requires -0x8000_0000 <= a * b < 0x8000_0000
    ensures r == a * b
  {
    a * b
  }

  /** The two kinds of reference. */
  datatype RefKind = LValueRef | RValueRef

  /** The reference-collapsing table: a reference `outer` applied to a type
      that is already a reference `inner`. Only `&& &&` stays `&&`; every
      combination with `&` collapses to `&`. */
  function Collapse(outer: RefKind, inner: RefKind): (r: RefKind)
    ensures r == RValueRef <==> outer == RValueRef && inner == RValueRef
  {
    match (outer, inner)
    case (LValueRef, LValueRef) => LValueRef
    case (RValueRef, LValueRef) => LValueRef
    case (LValueRef, RValueRef) => LValueRef
    case (RValueRef, RValueRef) => RValueRef
  }

  /** Stacking three references gives the same result in either grouping. */
  lemma CollapseAssociates(a: RefKind, b: RefKind, c: RefKind)
    ensures Collapse(a, Collapse(b, c)) == Collapse(Collapse(a, b), c)
  {
  }

  function MakeRef(kind: RefKind, t: Type): Type {
    if kind == LValueRef then LRef(t) else RRef(t)
  }

  /** `T&` or `T&&` written for a type `T` that may itself be a reference:
      a reference to a reference collapses into one reference. */
  function AddReference(t: Type, kind: RefKind): (r: Type)
    requires t != Void
    ensures WellFormed(t) ==> WellFormed(r) && IsReference(r)
    ensures RemoveReference(r) == RemoveReference(t)
    ensures !IsReference(t) ==> r == MakeRef(kind, t)
  {
    match t
    case LRef(u) => MakeRef(Collapse(kind, LValueRef), u)
    case RRef(u) => MakeRef(Collapse(kind, RValueRef), u)
    case _ => MakeRef(kind, t)
  }

  /** Adding `&` to any reference, or `&&` to `T&&`, changes nothing. */
  lemma AddReferenceCollapses(t: Type, kind: RefKind)
    requires IsReference(t)
    ensures t.LRef? ==> AddReference(t, kind) == t
    ensures t.RRef? ==> (AddReference(t, kind) == t <==> kind == RValueRef)
  {
  }

  /** Whether an expression names an object (an lvalue such as `str`) or a
      temporary (an rvalue such as `std::string("abc")`). */
  datatype Category = LValue | RValue

  /** The `T` that `deduce3(T&& arg)` and `add(TItem&& item)` deduce from an
      argument of type `a`: `a&` for an lvalue, plain `a` for an rvalue. */
  function ForwardingDeduced(a: Type, category: Category): (t: Type)
    requires a != Void && !IsReference(a)
    ensures category == LValue <==> IsReference(t)
  {
    if category == LValue then LRef(a) else a
  }

  /** `Explain::forward<T>(arg)`: an lvalue when `T` is an lvalue reference
      (`return arg;`), an rvalue otherwise (`return std::move(arg);`). */
  function Forward(t: Type): (c: Category)
    ensures c == LValue <==> t.LRef?
  {
    if t.LRef? then LValue else RValue
  }

  /** `decltype(auto)` of `forward<T>`: `T&` and `T&&` collapsed, that is
      `T&&` with the collapsing rules applied. */
  function ForwardedType(t: Type): (r: Type)
    requires t != Void
    ensures Forward(t) == LValue <==> r.LRef?
  {
    AddReference(t, RValueRef)
  }

  /** Perfect forwarding: whatever the argument's type and category,
      `forward<T>` with the deduced `T` hands on the same category, and the
      parameter `T&&` is `a&` for an lvalue and `a&&` for an rvalue. */
  lemma ForwardPreservesCategory(a: Type, category: Category)
    requires a != Void && !IsReference(a)
    ensures Forward(ForwardingDeduced(a, category)) == category
    ensures ForwardedType(ForwardingDeduced(a, category)) == (if category == LValue then LRef(a) else RRef(a))
  {
  }

  /** The "Case 3" examples: `deduce3(x)` deduces `int&`, a temporary
      string deduces `std::string`, and the parameter types follow. */
  lemma DeduceThreeExamples()
    ensures ForwardingDeduced(Int, LValue) == LRef(Int)
    ensures ForwardingDeduced(Named("std::string"), RValue) == Named("std::string")
    ensures AddReference(LRef(Int), RValueRef) == LRef(Int)
    ensures AddReference(Named("std::string"), RValueRef) == RRef(Named("std::string"))
  {
  }
}
