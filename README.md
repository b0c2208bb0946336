# C++ templates course snippets, modelled in Dafny

This project models the run-time behaviour of the C++ template teaching
examples in the course repository. It covers:

- the LIFO `Stack` adaptor and its `TemplateTemplateParam` twin;
- `pop_all` and `IndexedSet::operator[]`;
- the iterator algorithms `find_if`, `zero` and the sentinel-terminated
  `accumulate`;
- the `max_value` family for values, C strings, `Person` and pointers;
- `add`;
- the `gen_id` counter;
- `add_to_container`;
- the hand-written type traits (`IsSame`, `IsPointer`, `IsVoid`,
  `RemoveReference`, `By2`, `Factorial`);
- `is_power_of_2`, `create_buffer` and `EnableIf`;
- `Array<T, N>` and the `scale_*` functions;
- perfect forwarding in `Container::add`;
- `Explain::size`, `get_nth`, `multiply`;
- reference collapsing and `Explain::forward`.

Modelling conventions:

- An iterator is a `nat` position into the sequence of elements.
- A sentinel is a small datatype: an end position, `Unreachable`, or "the
  element equals a value".
- The operations a template uses on its type parameter are explicit
  parameters of the model:
  - `<` is a `less` function;
  - `+=` is a `plus` function;
  - the value-initialised `T{}` is a `zero` value.
- Types themselves are values of `TypeTraits.Type`, so that the traits
  become functions and a partial specialisation becomes a `match` case.
- Objects whose state the source changes in place are Dafny classes: the
  stack, the id generator, the containers and `Array`.
- A raw pointer is a nullable `Pointers.Cell`.

One module per source file:

| module | source file |
|---|---|
| `StackHeader`, `TemplateTemplateParam` | `_exercises/ex-class-templates/stack.hpp` |
| `ExClassTemplates` | `_exercises/ex-class-templates/ex_class_templates.cpp` |
| `ExTemplateFunctions` | `_exercises/ex-template-functions/ex_template_functions.cpp` |
| `FunctionTemplates` | `function-templates/function_templates.cpp` |
| `Concepts` | `concepts/concepts.cpp` |
| `TypeTraits` | `type-traits/type_traits.cpp` |
| `Sfinae` | `sfinae/sfinae.cpp` |
| `ClassTemplates` | `class-templates/class_templates.cpp` |
| `TypeDeduction` | `type-deduction/type_deduction.cpp` |

## Model

| member | source | states |
|---|---|---|
| StackHeader.Stack.constructor | _exercises/ex-class-templates/stack.hpp:9 | a new stack holds no elements |
| StackHeader.Stack.Size | _exercises/ex-class-templates/stack.hpp:16-19 | the size is the number of elements held |
| StackHeader.Stack.Empty | _exercises/ex-class-templates/stack.hpp:20-23 | empty exactly when the size is 0 |
| StackHeader.Stack.Push | _exercises/ex-class-templates/stack.hpp:25-29 | the value is appended on top and the elements below are unchanged |
| StackHeader.Stack.Top | _exercises/ex-class-templates/stack.hpp:33-36 | on a non-empty stack, the top is the last element pushed and not yet popped |
| StackHeader.Stack.Pop | _exercises/ex-class-templates/stack.hpp:39-44 | on a non-empty stack, the out-value is the old top and the stack loses exactly that element |
| StackHeader.NewStackIsEmpty | _exercises/ex-class-templates/ex_class_templates.cpp:26-39 | a fresh stack reports size 0 and empty |
| StackHeader.PushThenPop | _exercises/ex-class-templates/ex_class_templates.cpp:61-66 | after push(v) the top is v; a pop then returns v and restores the earlier contents (LIFO) |
| TemplateTemplateParam.Stack.constructor | _exercises/ex-class-templates/stack.hpp:56 | a new stack holds no elements |
| TemplateTemplateParam.Stack.Size | _exercises/ex-class-templates/stack.hpp:63-66 | the size is the number of elements held |
| TemplateTemplateParam.Stack.Empty | _exercises/ex-class-templates/stack.hpp:67-70 | empty exactly when the size is 0 |
| TemplateTemplateParam.Stack.Push | _exercises/ex-class-templates/stack.hpp:72-76 | the value is appended on top, nothing else changes |
| TemplateTemplateParam.Stack.Top | _exercises/ex-class-templates/stack.hpp:80-83 | the top is the last element |
| TemplateTemplateParam.Stack.Pop | _exercises/ex-class-templates/stack.hpp:86-91 | the old top is returned and removed, nothing else changes |
| TemplateTemplateParam.LifoOrder | _exercises/ex-class-templates/stack.hpp:72-91 | the template-template stack keeps LIFO order: after pushing 1 then 4, the pops give 4 then 1 and leave it empty |
| ExClassTemplates.Reversed | _exercises/ex-class-templates/ex_class_templates.cpp:74-75 | reading a stack's contents top first keeps their number |
| ExClassTemplates.ReversedAt | _exercises/ex-class-templates/ex_class_templates.cpp:74-75 | position k of the top-first reading is element n-1-k of the container |
| ExClassTemplates.PopAll | _exercises/ex-class-templates/ex_class_templates.cpp:69-78 | the result has one slot per element, holds the elements top first (the reverse of push order) and leaves the stack empty |
| ExClassTemplates.PopTwiceAfterPushingOneAndFour | _exercises/ex-class-templates/ex_class_templates.cpp:117-126 | pushing 1 then 4 and popping twice gives 4 then 1 |
| ExClassTemplates.PopAllAfterPushingOneAndFour | _exercises/ex-class-templates/ex_class_templates.cpp:80-89 | pop_all after pushing 1 and 4 gives two values, [4, 1] |
| ExClassTemplates.StrictlyIncreasingCardinality | _exercises/ex-class-templates/ex_class_templates.cpp:142-144 | a std::set's ascending sequence has as many distinct elements as positions |
| ExClassTemplates.IndexedSet.Contains | _exercises/ex-class-templates/ex_class_templates.cpp:161 | find(x) != end() exactly when x is an element of the set |
| ExClassTemplates.IndexedSet.Insert | _exercises/ex-class-templates/ex_class_templates.cpp:159 | insert keeps the sequence strictly ascending and the set becomes the old one plus x |
| ExClassTemplates.InsertAscending | _exercises/ex-class-templates/ex_class_templates.cpp:159 | inserting into an ascending sequence keeps it strictly ascending and holds exactly the old elements and x |
| ExClassTemplates.IndexedSet.At | _exercises/ex-class-templates/ex_class_templates.cpp:148-153 | for an index below the size, the result is an element of the set with exactly index elements smaller than it (the index-th smallest) |
| ExClassTemplates.SmallerArePrefix | _exercises/ex-class-templates/ex_class_templates.cpp:150 | in ascending order, the elements below the one at position k are exactly those before position k |
| ExClassTemplates.InsertThreeThenIndexTwo | _exercises/ex-class-templates/ex_class_templates.cpp:156-164 | {1,2,4,5,6,7} plus 3 still contains 5 and has 3 at index 2 |
| ExTemplateFunctions.Reached | _exercises/ex-template-functions/ex_template_functions.cpp:48-182 | the iterator equals an end sentinel exactly at its position; Unreachable::operator== is always false; an EndValue sentinel such as EndValue42 is reached exactly on an element equal to its value (*it == 42) |
| ExTemplateFunctions.FindIf | _exercises/ex-template-functions/ex_template_functions.cpp:19-28 | the result lies in [first, last]; below last it is an element that passes the check, and no earlier element passes it |
| ExTemplateFunctions.FindIfSentinel | _exercises/ex-template-functions/ex_template_functions.cpp:33-43 | the walk stops at the first position where the sentinel is reached or the check passes |
| ExTemplateFunctions.FindLesserEvil | _exercises/ex-template-functions/ex_template_functions.cpp:58-70 | find_if(begin, end, ...) resolves to the sentinel version with end(vec) as sentinel; 665 is found at position 4 |
| ExTemplateFunctions.FindMissingLesserEvil | _exercises/ex-template-functions/ex_template_functions.cpp:72-83 | through the same sentinel version, with no 665 the end position comes back |
| ExTemplateFunctions.FindFirst42WithoutEnd | _exercises/ex-template-functions/ex_template_functions.cpp:85-92 | with the Unreachable sentinel the walk stops at the first 42 |
| ExTemplateFunctions.Zero | _exercises/ex-template-functions/ex_template_functions.cpp:97-106 | every item of the container becomes the value-initialised T{} |
| ExTemplateFunctions.ZeroVectorOfInts | _exercises/ex-template-functions/ex_template_functions.cpp:113-120 | {1,2,3,4} becomes {0,0,0,0} |
| ExTemplateFunctions.ZeroListOfStrings | _exercises/ex-template-functions/ex_template_functions.cpp:122-129 | three strings become three empty strings |
| ExTemplateFunctions.FirstReached | _exercises/ex-template-functions/ex_template_functions.cpp:142 | the first position from the start where the sentinel compares equal |
| ExTemplateFunctions.Accumulate | _exercises/ex-template-functions/ex_template_functions.cpp:134-148 | the result is T{} with every element before the first sentinel match folded in with +=, left to right; T{} when the sentinel is already reached |
| ExTemplateFunctions.AccumulateInts | _exercises/ex-template-functions/ex_template_functions.cpp:153-162 | 1..5 sum to 15 |
| ExTemplateFunctions.AccumulateStrings | _exercises/ex-template-functions/ex_template_functions.cpp:164-173 | "one", "two", "three" concatenate to "onetwothree" |
| ExTemplateFunctions.AccumulateUpTo42 | _exercises/ex-template-functions/ex_template_functions.cpp:176-190 | only the elements before the first 42 are summed, giving 15 |
| ExTemplateFunctions.SumOfOneToFive | _exercises/ex-template-functions/ex_template_functions.cpp:161 | the fold of + over 1..5 from 0 is 15 |
| FunctionTemplates.MaxValue | function-templates/function_templates.cpp:8-12 | the result is one of the arguments: b exactly when a < b, otherwise a (a tie gives a) |
| FunctionTemplates.MaxValueIsUpperBound | function-templates/function_templates.cpp:8-12 | for an asymmetric <, neither argument is greater than the result |
| FunctionTemplates.MaximumValue | function-templates/function_templates.cpp:145-151 | the if/return form picks the same argument as max_value |
| FunctionTemplates.IntLessIsAsymmetric | function-templates/function_templates.cpp:11 | int's < is asymmetric |
| FunctionTemplates.MaxValueOfIntsIsUpperBound | function-templates/function_templates.cpp:8-12 | on ints, max_value is at least each of its arguments |
| FunctionTemplates.MaxValueOfInts | function-templates/function_templates.cpp:42-50 | max_value(19, 42) is 42 and max_value(19, 665) is 665 |
| FunctionTemplates.LexLess | function-templates/function_templates.cpp:66 | a < b exactly when, after a common prefix, a ends while b goes on or a has the smaller character |
| FunctionTemplates.LexLessIrreflexive | function-templates/function_templates.cpp:66 | no string is less than itself |
| FunctionTemplates.LexLessTransitive | function-templates/function_templates.cpp:66 | std::string's < is transitive |
| FunctionTemplates.LexLessTotal | function-templates/function_templates.cpp:66 | any two different strings are ordered one way or the other |
| FunctionTemplates.LexLessIsAsymmetric | function-templates/function_templates.cpp:66 | std::string's < is asymmetric |
| FunctionTemplates.MaxValueOfStrings | function-templates/function_templates.cpp:61-70 | "ola" beats "ala", "zola" beats "ola" |
| FunctionTemplates.StrCmp | function-templates/function_templates.cpp:22 | strcmp is zero exactly for equal strings |
| FunctionTemplates.StrCmpIsLexicographic | function-templates/function_templates.cpp:22 | strcmp is negative exactly when the first string is lexicographically smaller, and zero exactly for equal strings |
| FunctionTemplates.MaxCString | function-templates/function_templates.cpp:20-23 | the const char* overload picks the same string as the generic template on std::string |
| FunctionTemplates.MaxCStringOlaAla | function-templates/function_templates.cpp:72-78 | max_value("ola", "ala") is "ola" |
| FunctionTemplates.PersonLess | function-templates/function_templates.cpp:103-109 | the defaulted <=> orders by name first and by age only between equal names; no person is less than itself |
| FunctionTemplates.PersonLessIsStrictTotalOrder | function-templates/function_templates.cpp:103-109 | the defaulted <=> on (name, age) is irreflexive, transitive and total |
| FunctionTemplates.MaxValueOfPersons | function-templates/function_templates.cpp:111-118 | of {"Jan", 33} and {"Jan", 42} the maximum is the second |
| FunctionTemplates.Add | function-templates/function_templates.cpp:154-161 | on strings, add's result is a followed by b |
| FunctionTemplates.AddTextAbc | function-templates/function_templates.cpp:192-197 | add("text"s, ":abc") is "text:abc" |
| Concepts.MaxPointee | concepts/concepts.cpp:57-63 | for non-null pointers, the result is the larger pointee, compared with the value overload's rule |
| Concepts.PointerConceptExamples | concepts/concepts.cpp:40-49 | int* satisfies Pointer, int and int& do not |
| Concepts.MaxOfPointedInts | concepts/concepts.cpp:84-95 | max_value(42, 665) and max_value(&x, &y) with x = 52, y = 665 are both 665 |
| Concepts.HandleOf | concepts/concepts.cpp:99-111 | a raw pointer as a handle is null exactly when the pointer is, and dereferences to its pointee |
| Concepts.MaxHandlePointee | concepts/concepts.cpp:119-125 | for non-null handles, the result is the larger pointee |
| Concepts.RawPointersAreHandles | concepts/concepts.cpp:57-125 | on raw pointers the Ver_4 overload picks the same value as the Ver_3 one |
| Concepts.MaxOfSharedPointers | concepts/concepts.cpp:138-141 | shared pointers to 53 and 653 give 653 |
| Concepts.AddableAdd | concepts/concepts.cpp:211-215 | add on an Addable T is T's own + applied to a and b, with no conversion |
| Concepts.AddableAddOnStrings | concepts/concepts.cpp:201-215 | the Addable-constrained add on std::string is the concatenation a followed by b, as FunctionTemplates.Add states |
| Concepts.NextId | concepts/concepts.cpp:80-81 | ++i on a uint64_t gives i + 1, and 0 after 2^64 - 1 |
| Concepts.IdsFrom | concepts/concepts.cpp:78-82 | n calls hand out n ids |
| Concepts.IdsCountUp | concepts/concepts.cpp:78-82 | until the counter wraps, the k-th call after start returns start + k + 1 |
| Concepts.IdsIncrease | concepts/concepts.cpp:78-82 | from a fresh counter the ids start at 1 and strictly increase |
| Concepts.IdGenerator.constructor | concepts/concepts.cpp:80 | the static counter starts at 0 |
| Concepts.IdGenerator.GenId | concepts/concepts.cpp:78-82 | the counter advances by one uint64 step and the call returns the new value |
| Concepts.GenIds | concepts/concepts.cpp:78-82 | n successive calls hand out IdsFrom the counter's earlier value, and the counter ends at the last id handed out |
| Concepts.FreshIdsIncrease | concepts/concepts.cpp:78-82 | n calls on a fresh counter hand out 1, 2, ..., n, each larger than the one before |
| Concepts.FirstTwoIds | concepts/concepts.cpp:94 | the first two ids are 1 and 2 |
| Concepts.Added | concepts/concepts.cpp:179-189 | a container with push_back grows by exactly the value at the back; otherwise the set gains the value and nothing else changes |
| Concepts.Container.constructor | concepts/concepts.cpp:179-189 | a container starts with the given contents |
| Concepts.AddToContainer | concepts/concepts.cpp:179-189 | the container is replaced in place by Added of its old contents |
| Concepts.AddFortyTwo | concepts/concepts.cpp:191-199 | 42 lands at v[0] of an empty vector and in an empty set |
| TypeTraits.Identity | type-traits/type_traits.cpp:43-47 | Identity<T>::type is the same type as T |
| TypeTraits.ByTwo | type-traits/type_traits.cpp:17-20 | where a * 2 fits in an int, the result is even and halves back to a |
| TypeTraits.ToInt32 | type-traits/type_traits.cpp:25 | the conversion to int keeps the low 32 bits and lands in int's range |
| TypeTraits.By2Value | type-traits/type_traits.cpp:22-26 | 2 * a is computed in size_t and stored in an int: the int with the low 32 bits of 2a |
| TypeTraits.By2AgreesWithByTwo | type-traits/type_traits.cpp:17-26 | wherever by_2 is defined on a non-negative a, By2<a>::value is the same number |
| TypeTraits.By2WrapsAtTwoToThe31 | type-traits/type_traits.cpp:22-26 | By2<2^31>::value is 0 |
| TypeTraits.ByTwoExamples | type-traits/type_traits.cpp:32-39 | by_2(2) == 4, by_2(8) == 16, By2<2>::value == 4 |
| TypeTraits.IsSame | type-traits/type_traits.cpp:85-96 | IsSame<T1, T2>::value exactly when T1 and T2 are one type |
| TypeTraits.IsSameExamples | type-traits/type_traits.cpp:98-108 | int vs double is false; int vs int and Identity<int>::type vs int are true |
| TypeTraits.FactorialValue | type-traits/type_traits.cpp:113-123 | Factorial<N>::value is at least 1 for every N >= 1 |
| TypeTraits.Factorial | type-traits/type_traits.cpp:125-128 | factorial(n) is at least n for n >= 1 |
| TypeTraits.FactorialTemplateMatchesFunction | type-traits/type_traits.cpp:113-128 | the class template and the constexpr function agree |
| TypeTraits.ProductSplitsAtTop | type-traits/type_traits.cpp:127 | lo * ... * hi is (lo * ... * (hi - 1)) * hi |
| TypeTraits.FactorialIsProduct | type-traits/type_traits.cpp:125-128 | factorial(n) is 1 * 2 * ... * n |
| TypeTraits.FactorialOfFourteen | type-traits/type_traits.cpp:130 | Factorial<14>::value is 87178291200, non-zero and below 2^64 |
| TypeTraits.IsPointer | type-traits/type_traits.cpp:135-148 | true exactly for pointer types |
| TypeTraits.IsVoid | type-traits/type_traits.cpp:153-166 | true exactly for void |
| TypeTraits.IsPointerAndIsVoidExamples | type-traits/type_traits.cpp:168-178 | IsPointer_v<int*>, !IsPointer_v<int>, IsVoid_v<void>, !IsVoid_v<int> |
| TypeTraits.RemoveReference | type-traits/type_traits.cpp:183-202 | non-references are unchanged, one reference is stripped, and on a well-formed type the result is no reference |
| TypeTraits.RemoveReferenceIdempotent | type-traits/type_traits.cpp:183-202 | on any well-formed type, stripping twice equals stripping once |
| TypeTraits.RemoveReferenceExamples | type-traits/type_traits.cpp:217-219 | int& and int&& become int, int* stays |
| TypeTraits.Zero | type-traits/type_traits.cpp:207-215 | every item becomes the value-initialised element |
| Sfinae.BitAndSelf | sfinae/sfinae.cpp:29 | v & v == v |
| Sfinae.PopCountPositive | sfinae/sfinae.cpp:29 | a positive number has a bit set |
| Sfinae.LowestBitTrick | sfinae/sfinae.cpp:48 | for positive v, v & (v - 1) is 0 exactly when v has one bit set |
| Sfinae.IsPowerOf2 | sfinae/sfinae.cpp:45-49 | true exactly for positive values with one bit set |
| Sfinae.OneBitIsPowerOfTwo | sfinae/sfinae.cpp:45-49 | a positive value has one bit set exactly when it is 2^k for some k |
| Sfinae.PopCountOfPow2 | sfinae/sfinae.cpp:45-49 | every 2^k has exactly one bit set |
| Sfinae.TwoBitsSet | sfinae/sfinae.cpp:80-81 | an odd number above 1 has at least two bits set |
| Sfinae.PowersOfTwoExamples | sfinae/sfinae.cpp:77-79 | 8, 32 and 1024 are powers of two |
| Sfinae.NonPowersOfTwoExamples | sfinae/sfinae.cpp:80-81 | 1025, 665, 0 and -8 are not |
| Sfinae.IsPowerOf2Pointee | sfinae/sfinae.cpp:60-64 | for a non-null pointer, the integral test applied to the pointee |
| Sfinae.IsPowerOf2Ver1 | sfinae/sfinae.cpp:11-30 | a value is tested directly; a non-null pointer is dereferenced and its pointee tested |
| Sfinae.PowerOf2ThroughPointer | sfinae/sfinae.cpp:87-88 | a pointer to 8 is a power of two under both versions |
| Sfinae.CreateBuffer | sfinae/sfinae.cpp:94-105 | N zero ints, in a fixed array exactly when N < 512 |
| Sfinae.CreateBufferExamples | sfinae/sfinae.cpp:94-134 | the default N = 256 gives an array of 256; N = 1024 gives a vector of 1024 |
| Sfinae.EnableIf | sfinae/sfinae.cpp:144-156 | ::type exists exactly when the condition holds, and then it is T |
| ClassTemplates.Array.constructor | class-templates/class_templates.cpp:9-12 | N items, all value-initialised |
| ClassTemplates.Array.Size | class-templates/class_templates.cpp:19-22 | size() is N |
| ClassTemplates.Array.Begin | class-templates/class_templates.cpp:24-37 | begin() is the first item's position |
| ClassTemplates.Array.End | class-templates/class_templates.cpp:29-42 | end() - begin() == N |
| ClassTemplates.Array.Get | class-templates/class_templates.cpp:49-52 | for an index below N, operator[] reads exactly items[index] |
| ClassTemplates.Array.Set | class-templates/class_templates.cpp:44-47 | writing through operator[] changes items[index] and nothing else |
| ClassTemplates.Array.AssignEach | class-templates/class_templates.cpp:61-62 | assigning through every iterator from begin() to end() sets all N items |
| ClassTemplates.ArrayOfTenInts | class-templates/class_templates.cpp:55-63 | Array<int, 10> has size 10 and all items 0 |
| ClassTemplates.ScaleBy | class-templates/class_templates.cpp:77-81 | scale_by<C>(0) and any scale_by with C.a == 0 give C.b; with C.a == 1 it shifts x by C.b |
| ClassTemplates.ScaleByIsAffine | class-templates/class_templates.cpp:77-81 | scale_by<C> sends 0 to C.b, and two inputs to results that differ by C.a times their difference |
| ClassTemplates.ScaleWithPair | class-templates/class_templates.cpp:83-87 | a pair argument scales as the Coefficients with the same numbers |
| ClassTemplates.ScaleByFunc | class-templates/class_templates.cpp:89-93 | the result is the template argument applied to x |
| ClassTemplates.ScaleByFuncGeneralisesScaleBy | class-templates/class_templates.cpp:89-93 | scale_by_func with the affine lambda of C is scale_by<C> |
| ClassTemplates.ScaleExamples | class-templates/class_templates.cpp:98-100 | 5, 12 and 84 |
| TypeDeduction.Container.constructor | type-deduction/type_deduction.cpp:49-51 | a new container holds no items |
| TypeDeduction.Container.Add | type-deduction/type_deduction.cpp:64-68 | the item is appended at the end and earlier items are unchanged |
| TypeDeduction.PerfectForwarding | type-deduction/type_deduction.cpp:87-95 | an lvalue "text" and a temporary "abc" end up in that order |
| TypeDeduction.ContainerSize | type-deduction/type_deduction.cpp:108-112 | the container's own element count |
| TypeDeduction.NativeArraySize | type-deduction/type_deduction.cpp:114-118 | N of T[N], whatever the items hold |
| TypeDeduction.SizeOfVectorAndNativeArray | type-deduction/type_deduction.cpp:121-128 | {1, 2, 3} has size 3; int[10] = {1, 2, 3} has size 10, zero-padded |
| TypeDeduction.GetNth | type-deduction/type_deduction.cpp:214-220 | for nth below the size, the element at index nth |
| TypeDeduction.AssignNth | type-deduction/type_deduction.cpp:214-244 | assigning through get_nth replaces element nth only |
| TypeDeduction.AssignThenGet | type-deduction/type_deduction.cpp:244-245 | after the assignment element nth holds the new value, get_nth reads it, and every other element is as before |
| TypeDeduction.GetNthExamples | type-deduction/type_deduction.cpp:237-256 | get_nth(vec, 1) == 2; then vec == {1, 665, 3}, words[0] == "new", vec_bool[1] == 0 |
| TypeDeduction.Multiply | type-deduction/type_deduction.cpp:194-198 | on ints whose product fits in 32 bits, the product a * b |
| TypeDeduction.Collapse | type-deduction/type_deduction.cpp:97-101 | the result is && exactly when both references are &&, otherwise & |
| TypeDeduction.CollapseAssociates | type-deduction/type_deduction.cpp:97-101 | three stacked references collapse the same in either grouping |
| TypeDeduction.AddReference | type-deduction/type_deduction.cpp:97-101 | a non-reference type gains exactly the reference written (& or &&); a reference collapses; a well-formed type ends as one reference with the same referee |
| TypeDeduction.AddReferenceCollapses | type-deduction/type_deduction.cpp:98-101 | adding any reference to T& is T&; adding one to T&& is T&& exactly for && |
| TypeDeduction.ForwardingDeduced | type-deduction/type_deduction.cpp:176-182 | T is a reference exactly for an lvalue argument |
| TypeDeduction.Forward | type-deduction/type_deduction.cpp:73-84 | an lvalue exactly when T is an lvalue reference |
| TypeDeduction.ForwardedType | type-deduction/type_deduction.cpp:73-84 | forward<T> returns an lvalue reference exactly when it yields an lvalue |
| TypeDeduction.ForwardPreservesCategory | type-deduction/type_deduction.cpp:64-84 | forward with the deduced T hands on the argument's category; the parameter is a& for lvalues and a&& for rvalues |
| TypeDeduction.DeduceThreeExamples | type-deduction/type_deduction.cpp:174-182 | deduce3(x) deduces int&; a temporary string deduces std::string |

## Left out

- Floating-point behaviour is not modelled:
  - the `std::frexp` branch and overload of `is_power_of_2` and its double tests;
  - `scale<double Factor>`;
  - `pi_v`;
  - the `double` `max_value` tests;
  - `Ver_2::max_value(T1, T2)`;
  - the `add` variants that mix `int` and `double`.
- Mixed-type arithmetic is not modelled: `Ver_1`, `Ver_2` and `Ver_4` of
  `add` in `function-templates/function_templates.cpp` take arguments of
  two types and return `a + b` after the usual arithmetic conversions.
  Only the `std::string` instance (`Ver_3::add` in the test) is modelled,
  as `FunctionTemplates.Add`. The `Addable` `add` of
  `concepts/concepts.cpp` takes one type and is modelled generically as
  `Concepts.AddableAdd`.
- Overload resolution, template argument deduction, SFINAE and concept
  checking are compiler behaviour and are not modelled. The model gives
  each selected overload's result as its own member.
- `ComparableWithNullptr`, `LeanPointer`, `Hashable`, `Sqrtable` and
  `only_42` are compile-time checks with no run-time effect.
- Printing-only code is not modelled:
  - `deduce1`, `deduce2`, `deduce3` and their `auto` counterparts;
  - `Holder::print`;
  - the `foobar` overloads of both files;
  - `ShapeBase`, `Circle` and `ColorCircle`;
  - `__PRETTY_FUNCTION__` output.
- The `decltype(auto)` test's `unordered_map` copy is not modelled.
- `_exercises/ex-concepts/concepts_and_constraints.cpp` is not part of this
  model. It holds compile-time concepts over standard-library types and a
  printing helper.
- `LegacyCode::create_buffer` and `LegacyCode::resize` are not modelled.
  The function is never instantiated, and its return type names
  `std::conditional` without `::type`.
- The "auto + if_constexpr" test's loop that writes 665 into the buffer is
  not modelled.
- The moved-from state of an argument is not modelled. This covers
  `Container::add` with an rvalue, `std::forward` in `Stack::push` and
  `Holder`'s move. The model describes only what the receiving container
  holds.
- `std::set` is modelled as a value (an ascending sequence or a Dafny
  `set`), not as a node-based tree updated in place.
- The `std::vector<bool>` proxy reference is not modelled. The model keeps
  only its observable effect, the element write.
- Allocators, and the choice of `std::deque` or `std::vector` as the
  stack's container, are not modelled. Both become one Dafny sequence.
- Template parameters are not modelled as types. `T{}`, `<` and `+=` are
  explicit arguments, and a template's element type is a Dafny type
  parameter, except for `IndexedSet` and the integer-only members
  listed below (`is_power_of_2`, the `scale_*` functions and
  `multiply`).
- ExClassTemplates.IndexedSet: modelled for `int` elements only, the one
  element type the source instantiates it with.
- StackHeader.Stack.Top: returns the top by value. Writing through the
  returned reference is not modelled.
- TemplateTemplateParam.Stack.Top: returns the top by value. Writing
  through the returned reference is not modelled.
- TypeTraits.Factorial: stated over unbounded naturals. Wrap-around of
  `size_t` beyond 20! is not modelled; from 66! on, which 2^64 divides,
  the C++ result is 0.
- TypeTraits.FactorialValue: stated over unbounded naturals, so "at least
  1" holds only without `size_t` wrap-around; in C++ `Factorial<N>::value`
  is 0 from `N == 66` on. `FactorialOfFourteen` shows that
  14! fits.
- TypeTraits.ByTwo: requires the doubled value to fit in an `int`,
  because signed overflow is undefined behaviour.
- ClassTemplates.ScaleBy: stated over unbounded integers. `int` overflow
  is not modelled.
- ClassTemplates.ScaleWithPair: stated over unbounded integers. `int`
  overflow is not modelled.
- ClassTemplates.ScaleByIsAffine: stated over unbounded integers. `int`
  overflow in `scale_by` and `scale_with_pair` is not modelled.
- TypeDeduction.Multiply: modelled for `int` arguments only, with the
  product required to fit in 32 bits, because signed overflow is undefined
  behaviour. Other argument types of `multiply` are not modelled.
- Sfinae.IsPowerOf2: stated over unbounded integers. This matches every
  integral `T`, because `&` is reached only for positive values, where
  `value - 1` cannot overflow.
- A `const` qualifier on types is not part of `TypeTraits.Type`.
- The Catch2 test harness is not modelled. Each test case becomes a method
  or lemma whose contract states the test's expectations.
