# ft_containers core: raw-memory algorithms and the iterator layer, in Dafny

This project models the two header-only components that hold the logic of the
`ft_containers` library and proves what they promise.

1. **Allocator-mediated raw-memory algorithms** (`include/memory.hpp`), in
   `memory.dfy`. They are `destroy_at`, `destroy`, `destroy_n`,
   `uninitialized_copy`, `uninitialized_copy_n`, `uninitialized_fill` and
   `uninitialized_fill_n`.
   - Storage is an array of slots, each `Raw` or `Live(v)`. A slot index plays
     the role of an address.
   - The allocator is a class. Its `Construct` either builds a value in a slot
     or fails with the exception value it holds. Its `Destroy` ends a live
     object.
   - A copy constructor that throws partway through a batch is modelled by the
     allocator's `budget`: how many constructions still succeed before one
     throws. A batch of `n` constructions started with budget `Some(k)`,
     `k < n`, fails at index `k`.
   - The allocator keeps a ghost log of every construct and destroy, in order.
     The algorithms' postconditions state the whole new storage and the exact
     log suffix they add. This gives "front to back", "exactly once" and
     "nothing outside the range touched".
   - The four `uninitialized_*` algorithms share one loop and one rollback,
     `ConstructAll`. Each of them feeds it its own values: `src[first..last]`,
     the first `max(count, 0)` source elements, or copies of `val`. The
     rollback loop in each `catch` block is the `destroy` loop over
     `[d_first, it)`, so the model calls `Destroy` there.
2. **The iterator layer** (`iterator.hpp`), in `iterators.dfy`,
   `reverse_iterator.dfy` and `insert_iterators.dfy`.
   - An iterator is an integer position. `++i` is `i + 1`.
   - The category is the datatype `Input | Output | Forward | Bidirectional |
     RandomAccess`. The tag inheritance is the relation `DerivesFrom`.
     Overload resolution of `advance__` and `distance__` is a function that
     picks the most derived viable overload. Forward falls through to the
     input overloads, and Bidirectional takes the input `distance__` overload.
   - `reverse_iterator` has one field, `current`. Its value is the datatype
     `Rev`, which carries the pure operators. The class `ReverseIterator`
     carries the operators that update `current` in place.
   - The target container of the insertion adaptors is a class whose contents
     are a `seq`. It offers only `push_back`, `push_front` and `insert`. The
     three adaptors are classes that hold a reference to it;
     `insert_iterator` also holds its cursor.

Where the code is more permissive than the C++ standard's contracts, the model
follows the code:

- Input-category `advance` with `n <= 0` does nothing (the loop runs while
  `n > 0`). The C++ standard's `std::advance` allows a negative `n` only for
  bidirectional iterators, and leaves it undefined for the others; here it is
  defined as a no-op.
- `destroy_n`, `uninitialized_copy_n` and `uninitialized_fill_n` loop while
  `count > 0`, so a negative count does nothing.

## Model

| member | source | states |
|---|---|---|
| `Memory.Allocator.Construct` | include/memory.hpp:57 | `alloc.construct(p, v)` either makes slot `p` `Live(v)` and logs it, or, when the budget is spent, fails with the allocator's exception and changes nothing |
| `Memory.Allocator.Destroy` | include/memory.hpp:31 | `alloc.destroy(p)` on a live slot makes it `Raw`, logs it, never fails |
| `Memory.DestroyAt` | include/memory.hpp:28-32 | exactly slot `p` becomes `Raw`; every other slot is unchanged; the log gains one `Destroyed(p)` |
| `Memory.Destroy` | include/memory.hpp:34-39 | every slot of `[first, last)` becomes `Raw` and nothing else changes; the log gains `Destroyed(first) … Destroyed(last-1)` in order |
| `Memory.DestroyN` | include/memory.hpp:41-46 | exactly `max(count, 0)` slots from `first` are destroyed, front to back; nothing happens when `count <= 0` |
| `Memory.ConstructAll` | include/memory.hpp:54-63 | the shared construct loop and `catch` block: on success every slot `d+i` is `Live(vals[i])`, the result is `d + |vals|`, and only those slots were constructed, in order; on a failure at index `k`, slots `d..d+k-1` were constructed and then destroyed in order, slots from `d+k` were never touched, and the allocator's exception is returned |
| `Memory.UninitializedCopy` | include/memory.hpp:48-64 | on success returns `d_first + (last - first)` with each destination slot `Live` holding its source element; on a failure at index `k` the built prefix is rolled back and the same exception propagates |
| `Memory.UninitializedCopyN` | include/memory.hpp:66-85 | constructs exactly `max(count, 0)` elements and returns `d_first + max(count, 0)`; same rollback |
| `Memory.UninitializedFill` | include/memory.hpp:87-102 | on success every slot of `[first, last)` is `Live(val)`; on a failure at `k` the prefix `[first, first+k)` is destroyed and the exception propagates |
| `Memory.UninitializedFillN` | include/memory.hpp:104-120 | returns `first + max(count, 0)` with that prefix all `Live(val)`; same rollback |
| `Memory.CountsAppend` | include/memory.hpp:54-62 | the number of constructions and destructions of a slot in two consecutive log pieces is the sum of the two |
| `Memory.CountsOfBuilds` | include/memory.hpp:56-57 | the construct loop constructs each slot of its run exactly once, no slot outside it, and destroys nothing |
| `Memory.CountsOfDestroys` | include/memory.hpp:37-38 | the destroy loop destroys each slot of its run exactly once, no slot outside it, and constructs nothing |
| `Memory.RollbackExactlyOnce` | include/memory.hpp:55-62 | after a failure at `k`, each slot of `[d, d+k)` was constructed exactly once and destroyed exactly once; every other slot was neither constructed nor destroyed |
| `Memory.RollbackStorage` | include/memory.hpp:58-61 | rolling back the built prefix leaves the storage as if only that prefix had been cleared; the slots past the failure keep their old contents |
| `Iterators.SelectAdvance` | iterator.hpp:60-91 | `advance__` resolves exactly for library tags that derive from the input tag; the chosen overload takes a tag the argument derives from, and it is more derived than every other viable overload |
| `Iterators.SelectDistance` | iterator.hpp:102-115 | the same for `distance__`; with no bidirectional overload, a bidirectional tag takes the input one |
| `Iterators.AdvanceInput` | iterator.hpp:72-76 | the step loop moves forward exactly `n` steps when `n > 0` and leaves the position unchanged when `n <= 0` |
| `Iterators.AdvanceBidirectional` | iterator.hpp:78-86 | the two step loops move the position by exactly `n` for either sign |
| `Iterators.AdvanceRandomAccess` | iterator.hpp:88-91 | `i += n` lands on the same position `i + n` as the bidirectional step loops |
| `Iterators.Advance` | iterator.hpp:93-96 | dispatch on the category: bidirectional and random-access iterators move by `n`; input and forward ones move by `n` only when `n > 0` |
| `Iterators.DistanceInput` | iterator.hpp:102-109 | when `last` is reachable, the counting loop returns `last - first`, the random-access result |
| `Iterators.DistanceRandomAccess` | iterator.hpp:111-115 | advancing `first` by the result reaches `last` |
| `Iterators.Distance` | iterator.hpp:117-122 | every category's `distance` returns `last - first` |
| `Iterators.AdvanceByDistance` | iterator.hpp:93-122 | advancing `first` by `distance(first, last)` reaches `last` in every category, including a random-access range with `last < first`: `advance` and `distance` are inverses |
| `Iterators.PointerTraitsTagAsWritten` | iterator.hpp:29-45 | the pointer traits as written name a `std::` tag, and neither `advance__` nor `distance__` has an overload for it |
| `Iterators.PointerTraitsTag` | iterator.hpp:29-45 | with the library's own random-access tag, pointers get the constant-time `advance__` and `distance__` |
| `Iterators.AdvanceAsWritten` | iterator.hpp:93-96 | `advance` as written builds its tag from the iterator, so no call of it is well-formed |
| `ReverseIterators.Rev.Base` | iterator.hpp:165-167 | `base()` returns the underlying iterator `current`, which determines the adaptor: the adaptor is exactly the one built from its base |
| `ReverseIterators.Rev.Deref` | iterator.hpp:169-172 | `*r` reads element `|s| - current` of `s` read back to front, which is `s[current - 1]`; it is a function, so `current` is unchanged |
| `ReverseIterators.Rev.Plus` | iterator.hpp:200-202 | `r + n` has base `current - n`, and `- n` undoes it |
| `ReverseIterators.Rev.Minus` | iterator.hpp:209-211 | `r - n` has base `current + n` |
| `ReverseIterators.Rev.At` | iterator.hpp:218-220 | `r[n]` is `*(r + n)`, the element `s[current - n - 1]` |
| `ReverseIterators.Eq` | iterator.hpp:227-231 | `x == y` holds iff the bases are equal, i.e. iff the adaptors are equal |
| `ReverseIterators.Ne` | iterator.hpp:233-237 | `x != y` is the negation of `==` |
| `ReverseIterators.Lt` | iterator.hpp:239-243 | `x < y` iff `y.base() < x.base()`, iff `y - x > 0` |
| `ReverseIterators.Le` | iterator.hpp:245-249 | `x <= y`, defined as `!(y < x)`, holds iff `x < y` or `x == y` |
| `ReverseIterators.Gt` | iterator.hpp:251-255 | `x > y`, defined as `y < x`, holds iff `x - y > 0` |
| `ReverseIterators.Ge` | iterator.hpp:257-261 | `x >= y`, defined as `!(x < y)`, holds iff `x > y` or `x == y` |
| `ReverseIterators.Difference` | iterator.hpp:267-272 | `x - y == y.base() - x.base()` is the number of steps from `y` to `x`: `y + (x - y) == x` |
| `ReverseIterators.PlusLeft` | iterator.hpp:274-279 | `n + x` equals `x + n` |
| `ReverseIterators.LtTrichotomous` | iterator.hpp:239-261 | reverse `<` is a strict total order: exactly one of `<`, `==`, `>` holds, and `<` is transitive |
| `ReverseIterators.WalkReadsBackwards` | iterator.hpp:169-181 | repeating `*r; ++r` from base `c` down to base 0 reads `s[..c]` back to front |
| `ReverseIterators.WalkWholeRange` | iterator.hpp:169-181 | from `rbegin` to `rend` the reverse iterator reads all of `s` reversed |
| `ReverseIterators.ReverseIterator.Default` | iterator.hpp:146-147 | the default constructor value-initialises `current`, here to position 0 |
| `ReverseIterators.ReverseIterator.constructor` | iterator.hpp:149-150 | `explicit reverse_iterator(it)` stores `it`, so the new adaptor has `base() == it` |
| `ReverseIterators.ReverseIterator.Copy` | iterator.hpp:152-157 | the copy and converting constructors take `current` from `u.base()` |
| `ReverseIterators.ReverseIterator.Assign` | iterator.hpp:159-163 | assignment takes `current` from `u.base()` |
| `ReverseIterators.ReverseIterator.PreIncrement` | iterator.hpp:178-181 | `++r` makes the adaptor `r + 1`, i.e. decrements `current` |
| `ReverseIterators.ReverseIterator.PostIncrement` | iterator.hpp:183-187 | `r++` does the same and returns the old value |
| `ReverseIterators.ReverseIterator.PreDecrement` | iterator.hpp:189-192 | `--r` makes the adaptor `r - 1`, i.e. increments `current` |
| `ReverseIterators.ReverseIterator.PostDecrement` | iterator.hpp:194-198 | `r--` does the same and returns the old value |
| `ReverseIterators.ReverseIterator.PlusAssign` | iterator.hpp:204-207 | `r += n` makes the adaptor `r + n` |
| `ReverseIterators.ReverseIterator.MinusAssign` | iterator.hpp:213-216 | `r -= n` makes the adaptor `r - n` |
| `InsertIterators.BackInsertIterator.constructor` | iterator.hpp:296-297 | the adaptor refers to the given container |
| `InsertIterators.BackInsertIterator.Assign` | iterator.hpp:299-302 | assigning `v` appends `v` to the container |
| `InsertIterators.BackInsertIterator.Deref` | iterator.hpp:304-306 | `*it` returns the adaptor itself and changes nothing |
| `InsertIterators.BackInsertIterator.PreIncrement` | iterator.hpp:308-310 | `++it` returns the adaptor itself and changes nothing |
| `InsertIterators.BackInsertIterator.PostIncrement` | iterator.hpp:312-314 | `it++` returns a copy on the same container and changes nothing |
| `InsertIterators.BackInserter` | iterator.hpp:319-322 | `back_inserter(x)` is a new adaptor on `x` |
| `InsertIterators.BackInsertAppendsInOrder` | iterator.hpp:299-302 | assigning `v1..vk` through a back inserter leaves the container `old + [v1..vk]` |
| `InsertIterators.FrontInsertIterator.constructor` | iterator.hpp:335-336 | the adaptor refers to the given container |
| `InsertIterators.FrontInsertIterator.Assign` | iterator.hpp:338-341 | assigning `v` prepends `v` to the container |
| `InsertIterators.FrontInsertIterator.Deref` | iterator.hpp:343-345 | `*it` returns the adaptor itself and changes nothing |
| `InsertIterators.FrontInsertIterator.PreIncrement` | iterator.hpp:347-349 | `++it` returns the adaptor itself and changes nothing |
| `InsertIterators.FrontInsertIterator.PostIncrement` | iterator.hpp:351-353 | `it++` returns a copy on the same container and changes nothing |
| `InsertIterators.FrontInserter` | iterator.hpp:358-361 | `front_inserter(x)` is a new adaptor on `x` |
| `InsertIterators.FrontInsertPrependsReversed` | iterator.hpp:338-341 | assigning `v1..vk` through a front inserter leaves the container `[vk..v1] + old` |
| `InsertIterators.InsertIterator.constructor` | iterator.hpp:375-377 | the adaptor refers to the given container, with its cursor at `i` |
| `InsertIterators.InsertIterator.Assign` | iterator.hpp:379-383 | assigning `v` inserts it before the cursor and moves the cursor just past it |
| `InsertIterators.InsertIterator.Deref` | iterator.hpp:385-387 | `*it` returns the adaptor itself and changes nothing |
| `InsertIterators.InsertIterator.PreIncrement` | iterator.hpp:389-391 | `++it` returns the adaptor itself and changes nothing |
| `InsertIterators.InsertIterator.PostIncrement` | iterator.hpp:393-395 | `it++` returns the adaptor itself by reference, not a copy |
| `InsertIterators.Inserter` | iterator.hpp:400-403 | `inserter(x, i)` is a new adaptor on `x` with its cursor at `i` |
| `InsertIterators.InsertKeepsRunInOrder` | iterator.hpp:379-383 | repeated assignments insert `v1..vk` as one contiguous run, in order, at the starting cursor, and leave the cursor just past the run |
| `InsertIterators.CursorAsWritten` | iterator.hpp:375-377 | the constructor as written initialises the cursor from `&i`, a pointer to an iterator, which is never a position in the container |
| `InsertIterators.AssignThrough` | iterator.hpp:379-383 | an assignment is well-formed exactly when the cursor was initialised with a position in the container, and then it inserts before that position |
| `InsertIterators.InserterAsWrittenLosesPosition` | iterator.hpp:375-383 | with the cursor initialiser as written no `inserter` use is well-formed; with the intended one the first assignment inserts at `i` |

`Memory.ThirdCopyThrows` and `InsertIterators.ThreeAssignments` are callers
that use only the contracts above. The first is a five-slot copy whose third
construction throws. The second assigns three values through a back inserter
and through a front inserter.

## Findings

| source | as written | input that shows it | evidently intended | confidence | as-written member | corrected member |
|---|---|---|---|---|---|---|
| iterator.hpp:95 | `advance` passes `iterator_category(i)`: a tag constructed from the iterator, and no tag struct has such a constructor | any call `advance(i, n)`, whatever the iterator's category | a value-initialised tag `iterator_category()`, as `distance` passes at line 121 | high; not executed | `Iterators.AdvanceAsWritten` | `Iterators.Advance` |
| iterator.hpp:35 | the traits for `T*` (and for `const T*` at line 44) name `std::random_access_iterator_tag`, which converts to none of the `ft::` tag parameters | `distance(p, q)` or `advance(p, n)` with `p`, `q` of type `int*` | `ft::random_access_iterator_tag`, which selects the constant-time overloads | high; not executed | `Iterators.PointerTraitsTagAsWritten` | `Iterators.PointerTraitsTag` |
| iterator.hpp:376 | the constructor initialises the cursor with `iter(&i)`, a `Container::iterator*`; no container's iterator can be constructed from that (a vector's `T*` not from `T**`, a class iterator has no such constructor), so no instantiation of the constructor is well-formed; the model's `None` stands for this | `inserter(c, c.begin())` for any container `c`: it does not compile | `iter(i)`, a cursor at position `i` | high; not executed | `InsertIterators.CursorAsWritten` | `InsertIterators.InsertIterator.constructor` |

The rest of the model uses the corrected members. `InsertIterators.InserterAsWrittenLosesPosition`
exhibits the third row's discrepancy on every container and position. In all
three rows the defect is a compile-time one, so the as-written members return
`None` for "not well-formed" rather than modelling a run-time effect.

## Left out

- `ft::addressof` (include/memory.hpp:21-26): it exists to get past an overloaded unary `&`. Slot indices are addresses here, so it has no counterpart.
- `iterator_traits`, the `iterator` base struct and the tag structs as C++ types (iterator.hpp:20-68): they are compile-time type plumbing. The category is the `Category` datatype, and a tag argument is the `Tag` datatype.
- `reverse_iterator::operator->` (iterator.hpp:174-176): it returns an address, which the position model does not have.
- Integer widths: positions, distances and counts are unbounded integers. Overflow of `ptrdiff_t` or of the `Size` type is not modelled.
- Exceptions are failure values (`Result`, `Outcome`). Unwinding is not modelled. Destructors are assumed not to throw, as the library assumes.
- Which construction throws is fixed by the allocator's budget. A copy constructor whose failure depends on the value being copied is not modelled separately.
- Aliasing between the source range of `uninitialized_copy` and its destination storage: the source is a value sequence.
- Single-pass input iterators: every iterator is a position that can be copied and revisited.
- The container types (`vector`, `map`, `stack`) are not part of this model. The `Container` class has only the three mutations the adaptors call.
- Bounds that the source leaves unchecked appear as preconditions. A reverse iterator is dereferenced only inside its sequence. `Destroy` and `DestroyN` need live slots. An insert iterator's cursor must be a position in its container.
