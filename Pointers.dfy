/** Raw pointers.
    A C++ `T*` that points at a live object is a reference to a heap cell
    holding one `T`; a null pointer is `null`. Several snippets dereference
    pointers (`max_value(&x, &y)`, `is_power_of_2(&x)`), and this cell is
    what they read. */
module Pointers {

  class Cell<T> {
    var value: T

    constructor (v: T)
      ensures value == v
    {
      value := v;
    }
  }
}
