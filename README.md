# rust-course in Dafny

A model of the sequential, deterministic programs of the rust-course tutorial
repository, with proofs of what their code, tests and comments say they do.
Each Rust source file is one Dafny module:

- `SinglyLinkedList` (singly_linked_list.dfy): the `Box`-linked LIFO list. It has `add`, `remove` and `print`.
- `DoublyLinkedList` (doubly_linked_list.dfy): the `Rc<RefCell<Node>>` list with `head`, `tail`, `next` and `previous`. Nodes are Dafny objects and links are nullable references. `Valid()` states the link invariant. A ghost walk along `previous` shows the back links agree with the forward links.
- `Iterators` (iterators.dfy): `Employee_Records` and its consuming `next`.
- `IntoIterator` (into_iterator.dfy): `Book::into_iter` and `BookIterator::next`.
- `UnitTesting` (unit_testing.dfy): the `Circle` constructors, `contains` and the three tests. The panics of `new_2` become a `Panicked(message)` outcome.
- `Traits` (traits.dfy): the `Shape` trait for squares and rectangles, static and dynamic dispatch, `returns_shape`, and the derived `Student` equality.
- `GenericTraits` (generic_traits.dfy): the three `Addition::add` impls for `Point`.
- `AssociatedTraits` (associated_traits.dfy): `Kmh::distance_covered`.
- `Closures` (closures.dfy) and `FunctionPointers` (function_pointers.dfy): `is_valid_user` with its two validators.
- `Combinators` (combinators.dfy): the filter-then-uppercase chain and its loop form.
- `IteratingOverOptions` (iterating_over_options.dfy): `push`, `extend`, `chain` and `flatten` on options, plus the loop form and the filter/map form of `flatten`.
- `LifetimeStructs` (lifetime_structs.dfy): `ArrayProcessor::update_data`.
- `RepeatingMacros` (repeating_macros.dfy): the expansions of `string_concat!` and `vec_mac!`.

Two shared modules support them. `Wrappers` (wrappers.dfy) holds Rust's `Option` and `Result`. `Adapters` (adapters.dfy) holds the standard `filter` and `map` adapters over the items an iterator yields.

Where the source changes state in place, the model does too. The lists, the
two iterators and `ArrayProcessor` are classes whose methods change their
fields. The `print` loops and the `for` loops are `while`/`for` loops with
invariants. What a program prints becomes the sequence of printed values,
returned by the method. Each `main` is one more method or lemma that pins the
values it prints.

## Model

| member | source | states |
|---|---|---|
| `SinglyLinkedList.Node.constructor` | implementing-data-structures/singly-linked-list/src/main.rs:25-28 | a node holds the given element and `next` |
| `SinglyLinkedList.LinkList.constructor` | implementing-data-structures/singly-linked-list/src/main.rs:19-21 | a new list is valid and empty |
| `SinglyLinkedList.LinkList.Valid` | implementing-data-structures/singly-linked-list/src/main.rs:5-16 | the spine runs from `head` along `next` to a node with no `next`, its elements are the contents; kept by `Add` and `Remove` |
| `SinglyLinkedList.LinkList.Add` | implementing-data-structures/singly-linked-list/src/main.rs:23-30 | contents become `[x] + old`; the fresh head's `next` is the old head |
| `SinglyLinkedList.LinkList.Remove` | implementing-data-structures/singly-linked-list/src/main.rs:32-40 | empty: `None` and stays empty; otherwise `Some(first)`, contents become `old[1..]`, the old head's `next` is the new head |
| `SinglyLinkedList.LinkList.Print` | implementing-data-structures/singly-linked-list/src/main.rs:42-48 | the walk from `head` prints exactly the contents, most recent first |
| `SinglyLinkedList.AddThenRemove` | implementing-data-structures/singly-linked-list/src/main.rs:23-40 | `remove` right after `add(x)` returns `Some(x)` and restores the contents (LIFO) |
| `SinglyLinkedList.AddPrintRemove` | implementing-data-structures/singly-linked-list/src/main.rs:51-61 | after adding 1, 2, 3 the list prints 3, 2, 1; `remove` returns 3; then it prints 2, 1 |
| `SinglyLinkedList.RemoveFromNew` | implementing-data-structures/singly-linked-list/src/main.rs:19-40 | `remove` on a new list returns `None` and the list stays empty |
| `DoublyLinkedList.Node.constructor` | implementing-data-structures/doubly-linked-list/src/main.rs:22-30 | `Node::new` holds the element with no `next` and no `previous` |
| `DoublyLinkedList.DoublyLinkList.Valid` | implementing-data-structures/doubly-linked-list/src/main.rs:32-84 | the link invariant implies `head` is null exactly when `tail` is |
| `DoublyLinkedList.DoublyLinkList.constructor` | implementing-data-structures/doubly-linked-list/src/main.rs:33-39 | `new` has no head and no tail and is valid |
| `DoublyLinkedList.DoublyLinkList.Add` | implementing-data-structures/doubly-linked-list/src/main.rs:41-58 | the fresh node becomes head; its `next` is the old head; the old head's `previous` is the new node; the tail stays; on an empty list head and tail are the new node |
| `DoublyLinkedList.DoublyLinkList.Remove` | implementing-data-structures/doubly-linked-list/src/main.rs:60-84 | empty: `None`, nothing changes; otherwise `Some(old head element)`, the old head is unlinked, the new head has no `previous`, and removing the last node clears `tail` |
| `DoublyLinkedList.DoublyLinkList.Print` | implementing-data-structures/doubly-linked-list/src/main.rs:86-92 | the `traversal` walk prints exactly the contents, newest first |
| `DoublyLinkedList.Reverse` | implementing-data-structures/doubly-linked-list/src/main.rs:86-92 | the reference walk order from `tail`: same length, position i holds the element i places from the end |
| `DoublyLinkedList.DoublyLinkList.WalkBackFrom` | implementing-data-structures/doubly-linked-list/src/main.rs:41-84 | following `previous` from the k-th node meets the first k+1 elements in reverse |
| `DoublyLinkedList.DoublyLinkList.WalkBackFromTail` | implementing-data-structures/doubly-linked-list/src/main.rs:41-84 | walking back from `tail` gives the reverse of walking forward from `head` |
| `DoublyLinkedList.AddPrintRemove` | implementing-data-structures/doubly-linked-list/src/main.rs:95-115 | after adding 5, 14, 2, 9 the list prints 9, 2, 14, 5; `remove` returns 9; then it prints 2, 14, 5 |
| `Iterators.NamesIgnoreSalary` | function_programming/iterators/src/main.rs:20-46 | the names yielded depend on the records' names only, never on `salary` |
| `Iterators.Names` | function_programming/iterators/src/main.rs:38-46 | the names of the records, one per record, in store order; what draining `next` yields (`ForEachEmployee`) |
| `Iterators.EmployeeRecords.constructor` | function_programming/iterators/src/main.rs:65-67 | the store holds the given records |
| `Iterators.EmployeeRecords.Next` | function_programming/iterators/src/main.rs:38-46 | empty: `None`, stays empty; otherwise the first record's name, and exactly that record is removed, the rest in order |
| `Iterators.ForEachEmployee` | function_programming/iterators/src/main.rs:84-86 | the `for` loop yields every name in store order, exactly one per record, and drains the store |
| `Iterators.PrintEmployees` | function_programming/iterators/src/main.rs:49-87 | `main` prints John, Joseph, Jack |
| `IntoIterator.BookIterator.IntoIter` | function_programming/into-iterator/src/main.rs:58-62 | `into_iter` gives properties `[title, author, genre]` |
| `IntoIterator.BookIterator.Next` | function_programming/into-iterator/src/main.rs:39-45 | empty: `None`; otherwise the first property, removed, with the rest in order |
| `IntoIterator.ForEachProperty` | function_programming/into-iterator/src/main.rs:79-81 | the `for` loop yields every remaining property in order, then stops |
| `IntoIterator.IterateBook` | function_programming/into-iterator/src/main.rs:77-81 | iterating a book yields exactly title, author, genre |
| `IntoIterator.PrintBook` | function_programming/into-iterator/src/main.rs:70-82 | `main` prints "Digital Image Processing", "Gonzales", "Science Book" |
| `UnitTesting.New` | unit-testing/src/lib.rs:7-9 | `new` accepts any radius and stores it unchanged |
| `UnitTesting.New1` | unit-testing/src/lib.rs:11-17 | `Ok` exactly when radius > 0, with that radius; otherwise `Err("Radius should be positive")` |
| `UnitTesting.New2` | unit-testing/src/lib.rs:19-25 | the three match arms in source order; its outcomes are stated by `New2Outcomes` |
| `UnitTesting.New2Outcomes` | unit-testing/src/lib.rs:19-25 | a circle exactly when radius > 0; panic "radius should be positive" exactly for -10..0; "is lesser than -10" exactly for radius <= -11 |
| `UnitTesting.New1AgreesWithNew2` | unit-testing/src/lib.rs:11-25 | `new_1` succeeds exactly where `new_2` does, with the same circle |
| `UnitTesting.Contains` | unit-testing/src/lib.rs:27-29 | strict `>` on radii; stated by `ContainsIsStrictOrder` and `ContainsTest` |
| `UnitTesting.ContainsIsStrictOrder` | unit-testing/src/lib.rs:27-29 | `contains` is irreflexive, asymmetric, transitive and connected on distinct radii |
| `UnitTesting.ContainsTest` | unit-testing/src/lib.rs:39-46 | radius 5 contains radius 2 |
| `UnitTesting.ShouldNotCreateCircle` | unit-testing/src/lib.rs:48-53 | `new_1(-1)` is an `Err`, so this test fails as its comment says |
| `UnitTesting.ShouldNotCreateCircleAndPanic` | unit-testing/src/lib.rs:55-59 | `new_2(-11)` panics with "is lesser than -10" |
| `Traits.Area` | traits/src/main.rs:51-79 | `side*side` for a square, `length*breadth` for a rectangle; stated by `SquareIsRectangle`, `RectangleTurned`, `MainValues` |
| `Traits.Perimeter` | traits/src/main.rs:51-79 | `4*side` for a square, `2*(length+breadth)` for a rectangle; stated by `SquareIsRectangle`, `RectangleTurned` |
| `Traits.ReturnsShape` | traits/src/main.rs:135-141 | the shape built from the dimensions; stated by `ReturnsShapeMeasures` |
| `Traits.StudentEq` | traits/src/main.rs:152-156 | derived field-wise `PartialEq`; stated by `StudentEqIsEquality` |
| `Traits.SquareIsRectangle` | traits/src/main.rs:51-79 | a square has area `side*side` and perimeter `4*side`, as the side-by-side rectangle has |
| `Traits.RectangleTurned` | traits/src/main.rs:71-79 | a rectangle's area and perimeter do not change when length and breadth swap |
| `Traits.ShareProperties` | traits/src/main.rs:98-100 | a square of side s gives (s*s, 4*s); a rectangle l by b gives (l*b, 2*(l+b)); partner: `DispatchAgrees` |
| `Traits.SharePropertiesDynamic` | traits/src/main.rs:112-114 | through `Box<dyn Shape>`, a square of side s gives (s*s, 4*s) and a rectangle l by b gives (l*b, 2*(l+b)); partner: `DispatchAgrees` |
| `Traits.DispatchAgrees` | traits/src/main.rs:98-114 | static and dynamic dispatch give the same pair |
| `Traits.AreaBound` | traits/src/main.rs:128-130 | a square of side s gives s*s; a rectangle l by b gives l*b |
| `Traits.ReturnsShapeMeasures` | traits/src/main.rs:135-141 | one dimension d0 builds exactly `Square(d0)`; two or more build exactly `Rectangle(d0, d1)`, ignoring the rest; their areas and perimeters follow |
| `Traits.MainValues` | traits/src/main.rs:161-215 | the areas and pairs `main` prints: 16, 48, (16, 16), (48, 28), (25, 20), (70, 34), 81, 54 |
| `Traits.StudentEqIsEquality` | traits/src/main.rs:152-156 | derived `PartialEq` on name and age is exactly value equality |
| `Traits.StudentsCompareEqual` | traits/src/main.rs:220-234 | the two "Ayush"/24 students compare equal |
| `GenericTraits.AddPoint` | traits/generic_traits/src/main.rs:21-28 | componentwise sum; stated by `AddPointLaws` |
| `GenericTraits.AddScalar` | traits/generic_traits/src/main.rs:30-37 | scalar added to both coordinates; stated by `AddScalarIsDiagonal` |
| `GenericTraits.AddLine` | traits/generic_traits/src/main.rs:39-46 | a `Line` from `self` to `rhs`; stated by `AddLineKeepsPoints` |
| `GenericTraits.AddPointLaws` | traits/generic_traits/src/main.rs:21-28 | `Point + Point` adds componentwise: commutative, associative, origin as identity |
| `GenericTraits.AddScalarIsDiagonal` | traits/generic_traits/src/main.rs:30-37 | `Point + i32` adds the scalar to both coordinates, like adding `(k, k)` |
| `GenericTraits.AddLineKeepsPoints` | traits/generic_traits/src/main.rs:39-46 | `Point + Point` as a `Line` starts at `self` and ends at `rhs`, no arithmetic |
| `GenericTraits.MainValues` | traits/generic_traits/src/main.rs:48-70 | (1,2)+(2,5) = (3,7); (2,3)+3 = (5,6); the line from (2,1) to (3,5) |
| `AssociatedTraits.DistanceCovered` | traits/associated_traits/src/main.rs:16-23 | speed times hours as `Km`; stated by `DistanceIsLinear` |
| `AssociatedTraits.DistanceIsLinear` | traits/associated_traits/src/main.rs:16-23 | the distance is speed times hours: zero for zero hours, additive over hours |
| `AssociatedTraits.MainValue` | traits/associated_traits/src/main.rs:25-30 | 50 km/h for 6 hours is 300 km |
| `Closures.IsValidUser` | function_programming/closures/src/main.rs:23-30 | both validators accept, evaluated with `&&`; stated by `ShortCircuit` |
| `Closures.ValidateUserSimple` | function_programming/closures/src/main.rs:46-49 | the name is non-empty and differs from the captured banned name; stated by `SimpleValidatorRejects` |
| `Closures.ValidateUserAdvance` | function_programming/closures/src/main.rs:51 | age at least 30; stated by `IsValidUserInMainIff` |
| `Closures.IsValidUserInMain` | function_programming/closures/src/main.rs:53-58 | `is_valid_user` with the two closures of `main`; stated by `IsValidUserInMainIff`, `MainResult` |
| `Closures.IsValidUserInMainIff` | function_programming/closures/src/main.rs:23-58 | with `main`'s closures a user is valid exactly when the name is neither empty nor "banned_user" and age >= 30 |
| `Closures.ShortCircuit` | function_programming/closures/src/main.rs:23-30 | a rejected name makes the user invalid whatever the age validator says |
| `Closures.SimpleValidatorRejects` | function_programming/closures/src/main.rs:46-49 | the simple closure rejects "" and, among non-empty names, exactly "banned_user" |
| `Closures.MainResult` | function_programming/closures/src/main.rs:32-60 | "Ayush" aged 24 is invalid |
| `FunctionPointers.IsValidUser` | function_programming/functional_pointers/src/main.rs:20-28 | both function pointers accept; stated by `IsValidUserIff` |
| `FunctionPointers.ValidateUserSimple` | function_programming/functional_pointers/src/main.rs:30-32 | the name is non-empty; stated by `SimpleValidatorIff` |
| `FunctionPointers.ValidateUserAdvance` | function_programming/functional_pointers/src/main.rs:34-36 | age at least 30; stated by `IsValidUserIff` |
| `FunctionPointers.IsValidUserIff` | function_programming/functional_pointers/src/main.rs:20-36 | with the two pointers a user is valid exactly when the name is non-empty and age >= 30 |
| `FunctionPointers.SimpleValidatorIff` | function_programming/functional_pointers/src/main.rs:30-32 | the simple validator accepts exactly the non-empty names, "banned_user" included |
| `FunctionPointers.MainResult` | function_programming/functional_pointers/src/main.rs:38-52 | "Ayush" aged 24 is invalid |
| `Adapters.Filter` | function_programming/combinators/src/main.rs:33 | `filter` keeps exactly the elements passing the predicate: every kept element is in the input and passes, every passing input element is kept, never more than the input |
| `Adapters.FilterAppend` | function_programming/combinators/src/main.rs:33 | filtering distributes over concatenation, so the kept elements stay in input order |
| `Adapters.Map` | function_programming/combinators/src/main.rs:37 | `map` applies the closure to each element, same length, position by position |
| `Combinators.StartsWith` | function_programming/combinators/src/main.rs:33 | case-sensitive prefix test; stated by `CaseSensitive` |
| `Combinators.Keep` | function_programming/combinators/src/main.rs:33 | the filter closure: starts with "a" or "b"; stated by `PipelineMembers`, `CaseSensitive` |
| `Combinators.ToUppercase` | function_programming/combinators/src/main.rs:37 | same length, every character upper-cased in place (ASCII) |
| `Combinators.Pipeline` | function_programming/combinators/src/main.rs:27-42 | the filter/map/collect chain; stated by `PipelineMembers`, `PipelineAppend`, `LoopVersion` |
| `Combinators.PipelineMembers` | function_programming/combinators/src/main.rs:27-42 | the output holds exactly the uppercased input words starting with "a" or "b", and is never longer than the input |
| `Combinators.PipelineAppend` | function_programming/combinators/src/main.rs:27-42 | the chain distributes over concatenation, so the input order is kept |
| `Combinators.PipelineSingle` | function_programming/combinators/src/main.rs:17-22 | one word passes the filter and comes out upper-cased, or is dropped |
| `Combinators.LoopVersion` | function_programming/combinators/src/main.rs:15-24 | the commented loop builds the same vector as the combinator chain |
| `Combinators.CaseSensitive` | function_programming/combinators/src/main.rs:33 | `starts_with` is case-sensitive: "Apple" is dropped, "apple" kept |
| `Combinators.MainValue` | function_programming/combinators/src/main.rs:11-43 | the five words give ["APPLE", "BANANA"] |
| `IteratingOverOptions.Items` | function_programming/iterating-over-options/src/main.rs:18-25 | the zero or one items an option yields; stated by `PushAgreesWithExtend`, `ChainOrder` |
| `IteratingOverOptions.PushIfSome` | function_programming/iterating-over-options/src/main.rs:9-16 | the `match` / `if let` push; stated by `PushAgreesWithExtend` |
| `IteratingOverOptions.Extend` | function_programming/iterating-over-options/src/main.rs:18 | `extend` with an option; stated by `PushAgreesWithExtend` |
| `IteratingOverOptions.Chain` | function_programming/iterating-over-options/src/main.rs:21-25 | the option chained before the products; stated by `ChainOrder` |
| `IteratingOverOptions.Flatten` | function_programming/iterating-over-options/src/main.rs:42 | `flatten`; stated by `FlattenLength`, `FlattenAppend`, `FlattenMembers`, `FlattenIsFilterMap`, `FlattenLoop` |
| `IteratingOverOptions.FilterMap` | function_programming/iterating-over-options/src/main.rs:36-40 | the commented `filter(is_some).map(unwrap)` chain; stated by `FlattenIsFilterMap` |
| `IteratingOverOptions.PushAgreesWithExtend` | function_programming/iterating-over-options/src/main.rs:9-18 | `match`, `if let` and `extend` agree: `Some(x)` appends `x`, `None` changes nothing |
| `IteratingOverOptions.ChainOrder` | function_programming/iterating-over-options/src/main.rs:21-25 | chaining yields the option's value first, then the products in order |
| `IteratingOverOptions.FlattenIsFilterMap` | function_programming/iterating-over-options/src/main.rs:36-42 | `flatten` equals the `filter(is_some).map(unwrap)` chain |
| `IteratingOverOptions.FlattenLength` | function_programming/iterating-over-options/src/main.rs:42 | the output length is the number of `Some` entries |
| `IteratingOverOptions.FlattenAppend` | function_programming/iterating-over-options/src/main.rs:42 | `flatten` distributes over concatenation, so order is kept |
| `IteratingOverOptions.FlattenMembers` | function_programming/iterating-over-options/src/main.rs:42 | `x` is in the output exactly when `Some(x)` is in the input |
| `IteratingOverOptions.FlattenLoop` | function_programming/iterating-over-options/src/main.rs:29-34 | the commented loop builds the same vector as `flatten` |
| `IteratingOverOptions.MainValues` | function_programming/iterating-over-options/src/main.rs:5-43 | extend and chain with `Some("laptop")`, and the four options flatten to ["charger", "battery", "cellphone"] |
| `LifetimeStructs.ArrayProcessor.constructor` | memory-management/lifetimes/lifetime-structs/src/main.rs:18-20 | the processor holds the given slice |
| `LifetimeStructs.ArrayProcessor.UpdateData` | memory-management/lifetimes/lifetime-structs/src/main.rs:28-36 | returns the slice held before and then holds the new one |
| `LifetimeStructs.UpdateTwice` | memory-management/lifetimes/lifetime-structs/src/main.rs:28-36 | two updates in a row: the second returns the first one's argument |
| `LifetimeStructs.MainRun` | memory-management/lifetimes/lifetime-structs/src/main.rs:39-46 | from [4, 5, 6], updating to [1, 2, 3] returns [4, 5, 6] and leaves [1, 2, 3] |
| `RepeatingMacros.StringConcat` | macros/repeating-macros/src/main.rs:48-53 | the expansion pushes each argument in turn, giving their left-to-right concatenation |
| `RepeatingMacros.VecMac` | macros/repeating-macros/src/main.rs:56-62 | the expansion gives a vector of its arguments, in order |
| `RepeatingMacros.Concat` | macros/repeating-macros/src/main.rs:48-53 | the arguments joined left to right; stated by `ConcatSmall`, `ConcatAppend`, `ConcatLength`, `StringConcat` |
| `RepeatingMacros.ConcatSmall` | macros/repeating-macros/src/main.rs:48-53 | no arguments give ""; one argument gives a copy of it |
| `RepeatingMacros.ConcatAppend` | macros/repeating-macros/src/main.rs:48-53 | concatenating two runs of arguments joins their results |
| `RepeatingMacros.ConcatLength` | macros/repeating-macros/src/main.rs:51 | the result's length is the sum of the argument lengths |
| `RepeatingMacros.MainRun` | macros/repeating-macros/src/main.rs:64-73 | "", "First", "FirstSecond", "One Two ThreeFour", ["Ayush", "Joshi"] |

## Left out

- The programs under concurrency/ are not part of this model. They show threads, barriers, channels, mutexes, parking, scoped threads, async tasks and tokio tasks, and what they print depends on scheduling.
- The `Rc`/`RefCell`/`Weak`/`Box` demos, the other lifetime demos, macros/question-mark-operator (`f64` arithmetic and `parse::<i32>`), macros/capturing-types (stdin and float casts), macros/declarative-macro and function_programming/iterating-over-collections (it only prints, in `HashMap` order) are not part of this model.
- Reference counts, `RefCell` borrow checks and the dropping of an unlinked node are not modelled. A doubly linked node is a plain object reference.
- Console output is not modelled beyond the sequence of printed values. That covers the two `println!` messages inside `DoublyLinkList::remove`, `Debug` formatting and `Draw::draw_object`, which only prints.
- Traits.Area, Traits.Perimeter, GenericTraits.AddPoint, GenericTraits.AddScalar, AssociatedTraits.DistanceCovered: computed on unbounded integers. They agree with Rust's `i32` wherever no overflow occurs. On overflow Rust panics in debug builds and wraps in release builds; the model does neither.
- Circle radii, ages, elements and coordinates are unbounded integers, not `i32`. Every operation on them other than the arithmetic above is a comparison, so this changes nothing within the `i32` range.
- Traits.ReturnsShape: requires at least one dimension. Rust panics when it indexes an empty vector, and the model does not include that panic.
- Combinators.ToUppercase: upper-cases ASCII letters only. Rust's Unicode case mapping, which can change a string's length, is not modelled.
- Ownership and borrowing are not modelled. This covers the `move` capture of `banned_user`, `FnOnce` against `Fn`, `&self` against `&mut self`, and the lifetime parameters of `ArrayProcessor`. Every `&self` operation is a function of values, so it cannot change its receiver.
- The unused `salary` fields of `User` in the closure and function-pointer programs are not modelled, and neither is the empty `#[ignore]` test `huge_test`.
- The mutated `Vec` locals in iterating-over-options are modelled by the vector value each `push`, `extend` or `chain` step produces, not by an in-place update.
