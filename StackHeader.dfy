/** The LIFO stack adaptor of `stack.hpp`.
    The adaptor owns one sequence container (a `std::deque` by default, a
    `std::vector` in some tests) and uses only its back end: `push` appends
    with `push_back`, `top` reads `back`, `pop` copies `back` into the
    caller's variable and then calls `pop_back`. The container is the field
    `container`, the bottom of the stack at index 0 and the top at the end. */
module StackHeader {

  class Stack<T> {
    var container: seq<T>

    /** `TContainer container{}`: a new stack is empty. */
    constructor ()
      ensures container == []
    {
      container := [];
    }

    method Size() returns (n: nat)
      ensures n == |container|
    {
      n := |container|;
    }

    method Empty() returns (e: bool)
      ensures e <==> |container| == 0
    {
      e := |container| == 0;
    }

    /** `push_back`: the value goes on top, everything below stays. */
    method Push(v: T)
      modifies this
      ensures container == old(container) + [v]
    {
      container := container + [v];
    }

    /** `back()` on an empty container is undefined, so the caller must
        not ask for the top of an empty stack. */
    method Top() returns (t: T)
      requires |container| > 0
      ensures t == container[|container| - 1]
    {
      t := container[|container| - 1];
    }

    /** `_value = container.back(); container.pop_back();` — the out-parameter
        is the returned value. Popping an empty stack is undefined. */
    method Pop() returns (v: T)
      requires |container| > 0
      modifies this
      ensures v == old(container)[|old(container)| - 1]
      ensures container == old(container)[..|old(container)| - 1]
    {
      v := container[|container| - 1];
      container := container[..|container| - 1];
    }
  }

  /** What a client sees of a fresh stack: empty, size 0. */
  method NewStackIsEmpty<T>() returns (size: nat, empty: bool)
    ensures size == 0 && empty
  {
    var s := new Stack<T>();
    size := s.Size();
    empty := s.Empty();
  }

  /** After `push(v)` the top is `v`; popping then hands back `v` and
      restores the earlier contents (last in, first out). */
  method PushThenPop<T>(s: Stack<T>, v: T) returns (top: T, popped: T)
    modifies s
    ensures top == v && popped == v
    ensures s.container == old(s.container)
  {
    s.Push(v);
    top := s.Top();
    popped := s.Pop();
  }
}

/** The same adaptor written with a template template parameter: the
    container template (`std::deque` or `std::vector`) and its allocator are
    passed separately, but the stack operations are exactly those of
    `StackHeader.Stack`. */
module TemplateTemplateParam {

  class Stack<T> {
    var container: seq<T>

    constructor ()
      ensures container == []
    {
      container := [];
    }

    method Size() returns (n: nat)
      ensures n == |container|
    {
      n := |container|;
    }

    method Empty() returns (e: bool)
      ensures e <==> |container| == 0
    {
      e := |container| == 0;
    }

    method Push(v: T)
      modifies this
      ensures container == old(container) + [v]
    {
      container := container + [v];
    }

    method Top() returns (t: T)
      requires |container| > 0
      ensures t == container[|container| - 1]
    {
      t := container[|container| - 1];
    }

    method Pop() returns (v: T)
      requires |container| > 0
      modifies this
      ensures v == old(container)[|old(container)| - 1]
      ensures container == old(container)[..|old(container)| - 1]
    {
      v := container[|container| - 1];
      container := container[..|container| - 1];
    }
  }

  /** The template-template stack keeps LIFO order: push 1 then 4, and the
      pops give 4 then 1, leaving it empty. */
  method LifoOrder() returns (a: int, b: int, empty: bool)
    ensures a == 4 && b == 1 && empty
  {
    var s := new Stack<int>();
    s.Push(1);
    s.Push(4);
    a := s.Pop();
    b := s.Pop();
    empty := s.Empty();
  }
}
