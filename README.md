# Dynamic-Memory-Learning: a verified model of its containers

This project models, in Dafny, three of the containers of the repository's
`src/` directory that carry state and error behaviour of their own.

- `DynamicArray<T>` (src/DynamicArray.cpp) is a growable array. It owns a
  count `size_`, a capacity `capacity_` and a heap buffer `data_` of exactly
  `capacity_` slots. It starts with one slot. `push_back` doubles the
  capacity when it finds the buffer full: the private `resize` copies the
  live prefix into a new buffer. `pop_back` and `at` are checked and throw
  `out_of_range`. `operator[]` is unchecked. `clear` releases the buffer and
  starts over with one slot.
- `StrBlob` (src/StrBlob.cpp, and again in src/StrBlobPtr.cpp, where the
  members both files define have the same bodies) wraps a `shared_ptr` to one `vector<string>`. Copies of a blob
  share that vector. `front`, `back` and `pop_back` first call `check(0)`,
  which throws `out_of_range` on an empty vector.
- `StrBlobPtr` (src/StrBlobPtr.cpp) is a cursor holding a weak pointer to a
  blob's vector and an index `curr`. Its `check` throws "unbound" when the
  weak pointer yields no vector and `out_of_range` when the index is at or
  past the end. `deref` and `incr` succeed only while `curr < size`.

Files:

- `errors.dfy` (module `Errors`): the two exception kinds, `OutOfRange` and
  `Unbound`, and the `Result`/`Outcome` values a failing call returns instead
  of throwing.
- `dynamic_array_spec.dfy` (module `DynamicArraySpec`): the abstract value
  of a `DynamicArray`, a pair of its live elements and its capacity, and one
  function per mutating call. The lemmas cover many calls: the element
  round trips, capacity is the least power of two that holds the elements,
  and the reallocation copies total `capacity - 1` over `n` pushes. That
  total is at most `2n - 2`.
- `dynamic_array.dfy` (module `DynamicArrays`): the class itself, with fields
  `len`, `cap` and an `array<T>` buffer. `PushBack` and `PopBack` are proved
  to move the abstract value exactly as the matching specification function
  says, and `Clear` to reach the initial value. The private `Resize` is proved
  to keep the elements and set the capacity to the requested one. The driver
  in `main` is proved as a client.
- `str_blob.dfy` (module `StrBlobs`): the shared vector is a heap object
  (`StringVector`). `StrBlob` is a datatype holding a reference to it, so
  copying a blob aliases the vector as the C++ copy does. `StrBlobPtr` is a
  class whose weak pointer is either empty or observes one vector.

src/DynamicArray V2.cpp is a second version of the array. It adds `insert`,
a sized constructor, copy construction and assignment, and `begin`/`end`, and
its `clear` (src/DynamicArray V2.cpp:88-90) keeps the buffer. That file is not
part of this model. This project models src/DynamicArray.cpp only, whose
`clear` (src/DynamicArray.cpp:54-59) releases the buffer and resets the
capacity to 1. `DynamicArrays.DynamicArray.Clear` states exactly that.

The driver in src/StrBlobPtr.cpp `main` has a comment at line 106 saying its
third `incr` throws. It does not: `curr` is 2 and the size is 3, so the check
passes and the cursor moves to `end()`. `StrBlobs.CursorScenario` proves
this, and proves that a fourth `incr` is the one that throws. This is a flaw
in the demonstration's comment, not in `StrBlobPtr`.

## Model

| member | source | states |
|---|---|---|
| `DynamicArraySpec.Init` | src/DynamicArray.cpp:8 | a fresh array has no elements, capacity 1, and satisfies the invariant |
| `DynamicArraySpec.PushBack` | src/DynamicArray.cpp:25-30 | `push_back` preserves `1 <= capacity_` and `size_ <= capacity_` |
| `DynamicArraySpec.PopBack` | src/DynamicArray.cpp:33-38 | `pop_back`, failing or not, preserves the invariant |
| `DynamicArraySpec.PushAll` | src/DynamicArray.cpp:25-30 | any number of pushes preserves the invariant |
| `DynamicArraySpec.Apply` | src/DynamicArray.cpp:25-59 | each mutating call (`push_back`, `pop_back`, `clear`) preserves the invariant |
| `DynamicArraySpec.Run` | src/DynamicArray.cpp:25-59 | every sequence of mutating calls preserves the invariant; without a `clear` the capacity never shrinks |
| `DynamicArraySpec.PushBackThenPopBack` | src/DynamicArray.cpp:25-38 | `push_back` then `pop_back` succeeds and restores the elements; the grown capacity is kept |
| `DynamicArraySpec.PushAllElems` | src/DynamicArray.cpp:25-30 | pushing `xs` appends exactly `xs`, so earlier elements keep their indices across reallocations |
| `DynamicArraySpec.AtAfterPushes` | src/DynamicArray.cpp:41-46 | after pushing `xs` onto a fresh array, `at(i)` is `xs[i]` for every `i` below the length of `xs` and `out_of_range` otherwise |
| `DynamicArraySpec.TightIsLeast` | src/DynamicArray.cpp:26-27 | a power-of-two capacity less than twice the need is the least power of two that meets the need |
| `DynamicArraySpec.PushAllKeepsTight` | src/DynamicArray.cpp:26-27 | pushes keep the capacity a power of two in `[max(1,n), 2*max(1,n))` |
| `DynamicArraySpec.CapacityAfterPushes` | src/DynamicArray.cpp:26-27 | after `n` pushes from fresh, the capacity is the least power of two that is at least `max(1, n)` |
| `DynamicArraySpec.CopiesEqualGrowth` | src/DynamicArray.cpp:67-75 | the elements the `resize` loop copies over a run of pushes equal the slots it adds |
| `DynamicArraySpec.AmortizedCopies` | src/DynamicArray.cpp:26-29 | `n >= 1` pushes from fresh copy `capacity - 1 <= 2n - 2` elements in all |
| `DynamicArrays.DynamicArray.constructor` | src/DynamicArray.cpp:8 | size 0, capacity 1, a fresh one-slot buffer |
| `DynamicArrays.DynamicArray.Size` | src/DynamicArray.cpp:16 | the number of live elements |
| `DynamicArrays.DynamicArray.Capacity` | src/DynamicArray.cpp:19 | the capacity, equal to the buffer's length and at least 1 |
| `DynamicArrays.DynamicArray.Empty` | src/DynamicArray.cpp:22 | true exactly when there are no elements, that is when the size is 0 |
| `DynamicArrays.DynamicArray.PushBack` | src/DynamicArray.cpp:25-30 | elements become old elements plus `x` at index old size; capacity doubles exactly when the array was full, and then the buffer is fresh; otherwise capacity and buffer are unchanged |
| `DynamicArrays.DynamicArray.PopBack` | src/DynamicArray.cpp:33-38 | on an empty array, `out_of_range` and nothing changes; otherwise the last element is dropped; always the same buffer and capacity |
| `DynamicArrays.DynamicArray.At` | src/DynamicArray.cpp:41-46 | `out_of_range` exactly when `i >= size`, otherwise the element at `i`; reads only |
| `DynamicArrays.DynamicArray.Get` | src/DynamicArray.cpp:49-51 | unchecked read of any slot of the buffer; below the size it is the live element `at` returns |
| `DynamicArrays.DynamicArray.Clear` | src/DynamicArray.cpp:54-59 | a fresh one-slot buffer, size 0 and capacity 1, whatever the prior state |
| `DynamicArrays.DynamicArray.Resize` | src/DynamicArray.cpp:67-75 | a fresh buffer of the requested capacity holding the same live elements in order; size unchanged, so the abstract value is the old elements with the new capacity |
| `DynamicArrays.DriverScenario` | src/DynamicArray.cpp:78-101 | four pushes give `[1,2,3,4]` with size and capacity 4; `pop_back` succeeds and gives size 3 and `at(0) == 1`; `clear` gives size 0 and capacity 1 |
| `StrBlobs.StringVector.constructor` | src/StrBlob.cpp:12-15 | the shared vector holds the given strings |
| `StrBlobs.StrBlob.Create` | src/StrBlob.cpp:12 | a blob over a fresh, empty vector |
| `StrBlobs.StrBlob.FromList` | src/StrBlob.cpp:15 | a blob over a fresh vector holding the list in order |
| `StrBlobs.StrBlob.Size` | src/StrBlob.cpp:18 | the number of strings in the shared vector |
| `StrBlobs.StrBlob.Empty` | src/StrBlob.cpp:21 | true exactly when the size is 0 |
| `StrBlobs.StrBlob.Check` | src/StrBlob.cpp:43-47 | `out_of_range` exactly when `i >= size()`; no effect |
| `StrBlobs.StrBlob.Front` | src/StrBlob.cpp:50-53 | `out_of_range` exactly on an empty blob, otherwise the first string |
| `StrBlobs.StrBlob.Back` | src/StrBlob.cpp:56-59 | `out_of_range` exactly on an empty blob, otherwise the last string |
| `StrBlobs.StrBlob.PushBack` | src/StrBlob.cpp:24 | the shared vector gains `t` at its end |
| `StrBlobs.StrBlob.PopBack` | src/StrBlob.cpp:62-65 | on an empty blob, `out_of_range` and nothing changes; otherwise exactly the last string is removed |
| `StrBlobs.StrBlob.Begin` | src/StrBlobPtr.cpp:87-89 | a fresh cursor on this blob's vector at index 0 |
| `StrBlobs.StrBlob.End` | src/StrBlobPtr.cpp:92-94 | a fresh cursor on this blob's vector at index `size()` |
| `StrBlobs.StrBlobPtr.constructor` | src/StrBlobPtr.cpp:11 | an unbound cursor at index 0 |
| `StrBlobs.StrBlobPtr.Bind` | src/StrBlobPtr.cpp:60 | a cursor observing the blob's vector at index `sz` |
| `StrBlobs.StrBlobPtr.Check` | src/StrBlobPtr.cpp:64-71 | "unbound" exactly when there is no vector; else `out_of_range` exactly when `i >= size`; else the observed vector |
| `StrBlobs.StrBlobPtr.Deref` | src/StrBlobPtr.cpp:74-77 | the string at `curr` when bound and `curr < size`; the error kinds of `check` otherwise |
| `StrBlobs.StrBlobPtr.Incr` | src/StrBlobPtr.cpp:80-84 | `curr` grows by exactly 1 when bound and `curr < size`; otherwise the error of `check` and `curr` unchanged |
| `StrBlobs.SharingScenario` | src/StrBlob.cpp:68-89 | after `b1 = b2` and `b2.push_back`, `b1.size() == 4`; a three-string blob has front "Hello" and back "!", and `pop_back` leaves size 2 |
| `StrBlobs.CursorScenario` | src/StrBlobPtr.cpp:96-111 | from `begin()` the derefs give "hello", "world", "test"; three `incr` calls succeed and reach `end()`; a fourth, or a deref there, is `out_of_range`; an unbound cursor gives "unbound" |

`StrBlobs.StrBlob` also models the copy of `StrBlob` in src/StrBlobPtr.cpp.
Its `check`, `pop_back`, `front` and `back` are at src/StrBlobPtr.cpp:33-46
and src/StrBlobPtr.cpp:53-56, with the same bodies as in src/StrBlob.cpp.

## Left out

- Console I/O in the three `main` drivers. The scenarios return the values
  the drivers print instead of printing them.
- The destructor and `delete[]`. Dafny memory is garbage collected, so a
  released buffer is simply no longer referenced. `Clear` and `Resize` do
  state that the array then holds a fresh buffer.
- `size_t` arithmetic. Sizes and capacities are unbounded naturals, so the
  overflow of `capacity_ * 2` and of `size_` is not modelled.
- Writes through the references that `at`, `operator[]`, `front`, `back` and
  `deref` return. The model returns the element's value.
- `DynamicArrays.DynamicArray.Get`: an index at or past `capacity_` is
  undefined behaviour in C++, so it is excluded by a precondition. Between
  `size_` and `capacity_` the result is only known to be the slot's value.
- `DynamicArrays.DynamicArray.Resize`: the source does not check its argument.
  A capacity below `size_` would overflow the new buffer, and a capacity of 0
  would break the invariant, so both are excluded by a precondition. Its only
  caller passes `2 * capacity_`.
- `DynamicArrays.DynamicArray.PushBack`: the source takes its argument by
  `const T&`. When the argument refers into the array's own buffer, as in
  `arr.push_back(arr[0])` on a full array, `resize` frees that buffer
  (src/DynamicArray.cpp:72) before line 29 reads the argument, which is
  undefined behaviour. The model passes the value by copy, so it describes a
  clean append in that case too.
- `StrBlobs.StrBlobPtr.Incr` returns an outcome instead of a reference to the
  cursor, so chained calls are not modelled.
- The expiry of a weak pointer whose vector has been destroyed. Dafny objects
  are never destroyed here and reference counts are not modelled. "Unbound"
  is therefore reached only by a cursor that was never bound to a vector.
- Exception message texts. Errors are modelled by kind only.
- Copy construction and assignment of `DynamicArray`. The source defines
  none; the compiler-generated ones would share `data_`.
- The other files of `src/`: reading numbers from standard input, C-string
  concatenation, allocator and `uninitialized_*` walkthroughs, and
  custom-deleter demonstrations. They only exercise library facilities.
