/** The growable array `DynamicArray<T>` of src/DynamicArray.cpp: a count
    of live elements, a capacity, and an owned heap buffer of exactly
    `capacity` slots that is replaced by a twice-as-large one when a
    `push_back` finds it full. */
module DynamicArrays {
  import opened Errors
  import Spec = DynamicArraySpec

  /** `T(0)`: like `new T[n]` in C++, allocating a buffer fills every slot
      with a default value of `T`. */
  class DynamicArray<T(0)> {
    /** `size_`: the number of live elements, in `data[0 .. len)`. */
    var len: nat
    /** `capacity_`: the number of slots in `data`. */
    var cap: nat
    /** `data_`: the buffer; slots `[len, cap)` hold default or stale values. */
    var data: array<T>

    /** `0 <= size_ <= capacity_`, `capacity_ >= 1`, and `data_` has exactly
        `capacity_` slots. */
    ghost predicate Valid()
      reads this
    {
      data.Length == cap && 1 <= cap && len <= cap
    }

    /** The abstract value: the live elements and the capacity. */
    ghost function Model(): (m: Spec.State<T>)
      reads this, data
      requires Valid()
      ensures Spec.Valid(m)
    {
      Spec.State(data[..len], cap)
    }

    /** `DynamicArray()`: size 0, capacity 1, a fresh one-slot buffer. */
    constructor ()
      ensures Valid() && fresh(data)
      ensures Model() == Spec.Init()
    {
      len := 0;
      cap := 1;
      data := new T[1];
    }

    function Size(): (r: nat)
      reads this, data
      requires Valid()
      ensures r == |Model().elems|
    {
      len
    }

    function Capacity(): (r: nat)
      reads this, data
      requires Valid()
      ensures r == Model().capacity && r == data.Length && 1 <= r
    {
      cap
    }

    function Empty(): (r: bool)
      reads this, data
      requires Valid()
      ensures r <==> Model().elems == []
      ensures r <==> Size() == 0
    {
      len == 0
    }

    /** `push_back(value)`: when full, reallocate to twice the capacity,
        copying the live prefix; then store `x` at index `size_`. */
    method PushBack(x: T)
      requires Valid()
      modifies this, data
      ensures Valid()
      ensures Model() == Spec.PushBack(old(Model()), x)
      ensures Model().elems == old(Model().elems) + [x]
      ensures cap == if old(len) == old(cap) then 2 * old(cap) else old(cap)
      ensures old(len) == old(cap) ==> fresh(data)
      ensures old(len) < old(cap) ==> data == old(data)
    {
      if len == cap {
        Resize(cap * 2);
      }
      data[len] := x;
      len := len + 1;
    }

    /** `pop_back()`: out_of_range on an empty array, which is then left as
        it was; otherwise `size_` drops by one. The buffer, its capacity and
        the popped slot's value are kept. */
    method PopBack() returns (r: Outcome)
      requires Valid()
      modifies this
      ensures Valid() && data == old(data) && cap == old(cap)
      ensures (r, Model()) == Spec.PopBack(old(Model()))
      ensures r == Fail(OutOfRange) <==> old(len) == 0
      ensures r.Pass? ==> Model().elems == old(Model().elems)[..old(len) - 1]
      ensures r.Fail? ==> len == old(len)
    {
      if len == 0 {
        return Fail(OutOfRange);
      }
      ghost var before := data[..len];
      len := len - 1;
      assert data[..len] == before[..len];
      r := Pass;
    }

    /** `at(index)`: the element at `i`, or out_of_range exactly when
        `i >= size_`. It changes nothing. */
    function At(i: nat): (r: Result<T>)
      reads this, data
      requires Valid()
      ensures r == Spec.At(Model(), i)
      ensures r.Err? <==> i >= Size()
      ensures r.Err? ==> r.error == OutOfRange
      ensures r.Ok? ==> r.value == Model().elems[i]
    {
      if i >= len then Err(OutOfRange) else Ok(data[i])
    }

    /** `operator[](index)`: no bounds check against `size_`; reading past
        the buffer is undefined behaviour in C++, so only `i < capacity_` is
        allowed. Below `size_` it is the live element. */
    function Get(i: nat): (r: T)
      reads this, data
      requires Valid() && i < Capacity()
      ensures i < Size() ==> r == Model().elems[i] && At(i) == Ok(r)
    {
      data[i]
    }

    /** `clear()`: release the buffer and start over with a fresh one-slot
        buffer, whatever the prior size and capacity. */
    method Clear()
      requires Valid()
      modifies this
      ensures Valid() && fresh(data)
      ensures Model() == Spec.Init()
      ensures len == 0 && cap == 1
    {
      len := 0;
      cap := 1;
      data := new T[cap];
    }

    /** The private `resize(new_capacity)`: allocate `newCap` slots, copy
        `data_[0 .. size_)` over in order and adopt the new buffer. The
        source does no check; fewer slots than `size_` would overflow the
        new buffer, and its only caller passes `2 * capacity_`. */
    method Resize(newCap: nat)
      requires Valid()
      requires len <= newCap && 1 <= newCap
      modifies this
      ensures Valid() && fresh(data)
      ensures cap == newCap && len == old(len)
      ensures data[..len] == old(data[..len])
      ensures Model() == Spec.State(old(Model()).elems, newCap)
    {
      var newData := new T[newCap];
      for i := 0 to len
        invariant unchanged(this)
        invariant newData[..i] == data[..i]
      {
        newData[i] := data[i];
      }
      data := newData;
      cap := newCap;
    }
  }

  /** The demonstration in `main`: four pushes, a pop, `at(0)`, a clear. */
  method DriverScenario()
    returns (elems: seq<int>, sizeAfterPush: nat, capacityAfterPush: nat,
             popped: Outcome, sizeAfterPop: nat, first: Result<int>,
             sizeAfterClear: nat, capacityAfterClear: nat)
    ensures elems == [1, 2, 3, 4] && sizeAfterPush == 4 && capacityAfterPush == 4
    ensures popped == Pass && sizeAfterPop == 3 && first == Ok(1)
    ensures sizeAfterClear == 0 && capacityAfterClear == 1
  {
    var arr := new DynamicArray<int>();
    arr.PushBack(1);
    arr.PushBack(2);
    arr.PushBack(3);
    arr.PushBack(4);
    sizeAfterPush, capacityAfterPush := arr.Size(), arr.Capacity();
    elems := [arr.Get(0), arr.Get(1), arr.Get(2), arr.Get(3)];
    popped := arr.PopBack();
    sizeAfterPop := arr.Size();
    first := arr.At(0);
    arr.Clear();
    sizeAfterClear, capacityAfterClear := arr.Size(), arr.Capacity();
  }
}
