/** The `max_value` family and `add` of the function-template examples.
    A template's use of `<` becomes an explicit `less` argument: the
    instantiation for `int` passes `IntLess`, for `std::string` and C
    strings `LexLess`, for `Person` the defaulted `<=>` ordering
    `PersonLess`. */
module FunctionTemplates {

  /** `a < b` can never hold in both directions. */
  ghost predicate Asymmetric<T(!new)>(less: (T, T) -> bool) {
    forall x, y :: less(x, y) ==> !less(y, x)
  }

  /** `max_value(T a, T b)`: `a < b ? b : a`. The result is one of the
      arguments, the second exactly when the first is smaller, so a tie
      returns the first. */
  function MaxValue<T>(a: T, b: T, less: (T, T) -> bool): (r: T)
    ensures r == a || r == b
    ensures less(a, b) ==> r == b
    ensures !less(a, b) ==> r == a
  {
    if less(a, b) then b else a
  }

  /** For any asymmetric `<` (every strict order), the maximum is not below
      either argument. */
  lemma MaxValueIsUpperBound<T(!new)>(a: T, b: T, less: (T, T) -> bool)
    requires Asymmetric(less)
    ensures !less(MaxValue(a, b, less), a) && !less(MaxValue(a, b, less), b)
  {
    if less(a, b) {
      assert !less(b, a);
    } else {
      assert !less(a, a);
    }
  }

  /** `Ver_2::maximum_value`: the same choice written as an `if` with two
      `return`s. Both returns must deduce the same type, so the two
      arguments share one type. */
  function MaximumValue<T>(a: T, b: T, less: (T, T) -> bool): (r: T)
    ensures r == MaxValue(a, b, less)
  {
    if less(a, b) then
      b
    else
      a
  }

  function IntLess(x: int, y: int): bool { x < y }

  lemma IntLessIsAsymmetric()
    ensures Asymmetric(IntLess)
  {
  }

  /** For `int`, the maximum is at least as large as either argument. */
  lemma MaxValueOfIntsIsUpperBound(a: int, b: int)
    ensures MaxValue(a, b, IntLess) >= a && MaxValue(a, b, IntLess) >= b
  {
    IntLessIsAsymmetric();
    MaxValueIsUpperBound(a, b, IntLess);
  }

  /** The "int" test: `max_value(19, 42) == 42`, `max_value(a, 665) == 665`. */
  lemma MaxValueOfInts()
    ensures MaxValue(19, 42, IntLess) == 42
    ensures MaxValue(19, 665, IntLess) == 665
  {
  }

  /** `std::string`'s `<`: lexicographic comparison of the characters,
      where a proper prefix comes first. Equivalently, the two strings
      share a first `k` characters, after which `a` has ended while `b` has
      not, or `a`'s next character is the smaller one. */
  function LexLess(a: string, b: string): (r: bool)
    ensures r <==> exists k :: 0 <= k <= |a| && k < |b| && a[..k] == b[..k] && (k == |a| || a[k] < b[k])
  {
    if |a| == 0 then
      assert a[..0] == b[..0];
      |b| > 0
    else if |b| == 0 then false
    else if a[0] != b[0] then
      assert a[..0] == b[..0];
      assert forall k :: 0 < k <= |a| && k < |b| ==> a[..k][0] == a[0] && b[..k][0] == b[0];
      a[0] < b[0]
    else
      var r := LexLess(a[1..], b[1..]);
      assert forall k :: 0 <= k <= |a| - 1 && k < |b| - 1 ==>
        (a[1..][..k] == b[1..][..k] <==> a[..k + 1] == b[..k + 1]) by {
        forall k | 0 <= k <= |a| - 1 && k < |b| - 1
          ensures a[1..][..k] == b[1..][..k] <==> a[..k + 1] == b[..k + 1]
        {
          assert a[..k + 1] == [a[0]] + a[1..][..k];
          assert b[..k + 1] == [b[0]] + b[1..][..k];
        }
      }
      if r then
        var j :| 0 <= j <= |a| - 1 && j < |b| - 1 && a[1..][..j] == b[1..][..j] && (j == |a| - 1 || a[1..][j] < b[1..][j]);
        assert a[..j + 1] == b[..j + 1];
        r
      else
        assert forall k :: 0 < k <= |a| && k < |b| && a[..k] == b[..k] && (k == |a| || a[k] < b[k]) ==>
          a[1..][..k - 1] == b[1..][..k - 1] && (k - 1 == |a| - 1 || a[1..][k - 1] < b[1..][k - 1]);
        r
  }

  lemma {:induction false} LexLessIrreflexive(a: string)
    ensures !LexLess(a, a)
  {
    if |a| > 0 {
      LexLessIrreflexive(a[1..]);
    }
  }

  lemma {:induction false} LexLessTransitive(a: string, b: string, c: string)
    requires LexLess(a, b) && LexLess(b, c)
    ensures LexLess(a, c)
  {
    if |a| > 0 && a[0] == b[0] && b[0] == c[0] {
      LexLessTransitive(a[1..], b[1..], c[1..]);
    }
  }

  lemma {:induction false} LexLessTotal(a: string, b: string)
    requires a != b
    ensures LexLess(a, b) || LexLess(b, a)
  {
    if |a| > 0 && |b| > 0 && a[0] == b[0] {
      assert a == [a[0]] + a[1..] && b == [b[0]] + b[1..];
      LexLessTotal(a[1..], b[1..]);
    }
  }

  lemma LexLessIsAsymmetric()
    ensures Asymmetric(LexLess)
  {
    forall x, y | LexLess(x, y)
      ensures !LexLess(y, x)
    {
      if LexLess(y, x) {
        LexLessTransitive(x, y, x);
        LexLessIrreflexive(x);
      }
    }
  }

  /** The "std::string" test. */
  lemma MaxValueOfStrings()
    ensures MaxValue("ala", "ola", LexLess) == "ola"
    ensures MaxValue("ola", "zola", LexLess) == "zola"
  {
  }

  /** A `const char*` points at characters followed by a terminating
      `'\0'`; the characters before it are the string. */
  type CString = s: string | '\0' !in s

  /** `std::strcmp`: the difference of the first pair of characters that
      differ, the terminator included, or 0 when both strings end
      together. */
  function StrCmp(a: CString, b: CString): (r: int)
    ensures r == 0 <==> a == b
    decreases |a|
  {
    var ca := if a == [] then 0 else a[0] as int;
    var cb := if b == [] then 0 else b[0] as int;
    if ca != cb || ca == 0 then ca - cb
    else
      assert a == [a[0]] + a[1..] && b == [b[0]] + b[1..];
      StrCmp(a[1..], b[1..])
  }

  /** `strcmp` orders C strings exactly as `std::string`'s `<` orders the
      same characters, and reports equality exactly for equal strings. */
  lemma {:induction false} StrCmpIsLexicographic(a: CString, b: CString)
    ensures StrCmp(a, b) < 0 <==> LexLess(a, b)
    ensures StrCmp(a, b) == 0 <==> a == b
    decreases |a|
  {
    if a != [] && b != [] && a[0] == b[0] {
      StrCmpIsLexicographic(a[1..], b[1..]);
      assert a == [a[0]] + a[1..] && b == [b[0]] + b[1..];
    } else if a != [] && b != [] {
      assert a[0] != b[0];
    }
  }

  /** The `const char*` overload: `strcmp(a, b) < 0 ? b : a`. It picks the
      same string as the generic template does on `std::string`. */
  function MaxCString(a: CString, b: CString): (r: CString)
    ensures r == MaxValue<string>(a, b, LexLess)
  {
    StrCmpIsLexicographic(a, b);
    if StrCmp(a, b) < 0 then b
    else
      assert !LexLess(a, b);
      a
  }

  /** The "const char*" test: "ola" beats "ala". */
  lemma MaxCStringOlaAla()
    ensures MaxCString("ola", "ala") == "ola"
  {
    assert !LexLess("ola", "ala");
  }

  newtype uint8 = x: int | 0 <= x < 256

  datatype Person = Person(name: string, age: uint8)

  /** The defaulted `operator<=>` compares the members in declaration
      order: `name` first, `age` only between equal names. */
  predicate PersonLess(p: Person, q: Person): (r: bool)
    ensures r ==> p != q
    ensures p.name == q.name ==> (r <==> p.age < q.age)
    ensures p.name != q.name ==> (r <==> LexLess(p.name, q.name))
  {
    LexLessIrreflexive(p.name);
    LexLess(p.name, q.name) || (p.name == q.name && p.age < q.age)
  }

  lemma PersonLessIsStrictTotalOrder(p: Person, q: Person, o: Person)
    ensures !PersonLess(p, p)
    ensures PersonLess(p, q) && PersonLess(q, o) ==> PersonLess(p, o)
    ensures p != q ==> PersonLess(p, q) || PersonLess(q, p)
  {
    LexLessIrreflexive(p.name);
    if PersonLess(p, q) && PersonLess(q, o) && LexLess(p.name, q.name) && LexLess(q.name, o.name) {
      LexLessTransitive(p.name, q.name, o.name);
    }
    if p.name != q.name {
      LexLessTotal(p.name, q.name);
    }
  }

  /** The "custom types" test: {"Jan", 33} and {"Jan", 42} differ only in
      age, so the older one is the maximum. */
  lemma MaxValueOfPersons()
    ensures MaxValue(Person("Jan", 33), Person("Jan", 42), PersonLess) == Person("Jan", 42)
  {
    LexLessIrreflexive("Jan");
  }

  /** `Ver_3::add` on `std::string`: `a + b` is concatenation, `a`
      followed by `b`. */
  function Add(a: string, b: string): (r: string)
    ensures |r| == |a| + |b|
    ensures r[..|a|] == a && r[|a|..] == b
  {
    a + b
  }

  /** The "type-traits" test: `add("text"s, ":abc") == "text:abc"`. */
  lemma AddTextAbc()
    ensures Add("text", ":abc") == "text:abc"
  {
  }
}
