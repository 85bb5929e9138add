/** `StrBlob` and its checked cursor `StrBlobPtr` (src/StrBlob.cpp and
    src/StrBlobPtr.cpp; the members of `StrBlob` that both files define have
    the same bodies; only src/StrBlob.cpp has `size` and `empty`, and only
    src/StrBlobPtr.cpp has `begin` and `end`).

    A `StrBlob` is a value whose only member is a shared pointer to one
    heap-allocated `std::vector<std::string>`. Copying a `StrBlob` copies
    the pointer, so every copy reads and changes the same vector. Here the
    vector is a heap object (`StringVector`) and the blob a datatype that
    holds a reference to it, so a Dafny copy aliases exactly as a C++ copy
    does. A `StrBlobPtr` holds a weak pointer to such a vector, modelled as
    an optional reference: `None` is a pointer that was never bound. */
module StrBlobs {
  import opened Errors

  /** The shared `std::vector<std::string>`. */
  class StringVector {
    var elems: seq<string>

    constructor (init: seq<string>)
      ensures elems == init
    {
      elems := init;
    }
  }

  datatype StrBlob = StrBlob(data: StringVector)
  {
    /** `StrBlob()`: a fresh, empty vector. */
    static method Create() returns (b: StrBlob)
      ensures fresh(b.data) && b.data.elems == []
    {
      var v := new StringVector([]);
      b := StrBlob(v);
    }

    /** `StrBlob(il)`: a fresh vector holding the list's strings in order. */
    static method FromList(il: seq<string>) returns (b: StrBlob)
      ensures fresh(b.data) && b.data.elems == il
    {
      var v := new StringVector(il);
      b := StrBlob(v);
    }

    function Size(): (r: nat)
      reads data
      ensures r == |data.elems|
    {
      |data.elems|
    }

    function Empty(): (r: bool)
      reads data
      ensures r <==> Size() == 0
      ensures r <==> data.elems == []
    {
      |data.elems| == 0
    }

    /** `check(i, msg)`: out_of_range exactly when `i >= size()`; it has
        no other effect. */
    function Check(i: nat): (r: Outcome)
      reads data
      ensures r.Fail? <==> i >= Size()
      ensures r.Fail? ==> r.error == OutOfRange
    {
      if i >= |data.elems| then Fail(OutOfRange) else Pass
    }

    /** `front()`: `check(0, …)`, then the first string. */
    function Front(): (r: Result<string>)
      reads data
      ensures r.Err? <==> Empty()
      ensures r.Err? ==> r.error == OutOfRange
      ensures r.Ok? ==> r.value == data.elems[0]
    {
      match Check(0)
      case Fail(e) => Err(e)
      case Pass => Ok(data.elems[0])
    }

    /** `back()`: `check(0, …)`, then the last string. */
    function Back(): (r: Result<string>)
      reads data
      ensures r.Err? <==> Empty()
      ensures r.Err? ==> r.error == OutOfRange
      ensures r.Ok? ==> r.value == data.elems[Size() - 1]
    {
      match Check(0)
      case Fail(e) => Err(e)
      case Pass => Ok(data.elems[|data.elems| - 1])
    }

    /** `push_back(t)`: append to the shared vector. */
    method PushBack(t: string)
      modifies data
      ensures data.elems == old(data.elems) + [t]
    {
      data.elems := data.elems + [t];
    }

    /** `pop_back()`: `check(0, …)`, then drop the last string. */
    method PopBack() returns (r: Outcome)
      modifies data
      ensures r == old(Check(0))
      ensures r.Fail? <==> old(data.elems) == []
      ensures r.Fail? ==> data.elems == old(data.elems)
      ensures r.Pass? ==> data.elems + [old(data.elems)[|old(data.elems)| - 1]] == old(data.elems)
    {
      r := Check(0);
      if r.Pass? {
        data.elems := data.elems[..|data.elems| - 1];
      }
    }

    /** `begin()`: a cursor on this blob's vector at index 0. */
    method Begin() returns (p: StrBlobPtr)
      ensures fresh(p) && p.wptr == Some(data) && p.curr == 0
    {
      p := new StrBlobPtr.Bind(this, 0);
    }

    /** `end()`: a cursor on this blob's vector at index `size()`. */
    method End() returns (p: StrBlobPtr)
      ensures fresh(p) && p.wptr == Some(data) && p.curr == Size()
    {
      p := new StrBlobPtr.Bind(this, |data.elems|);
    }
  }

  /** A weak pointer: empty, or observing one vector. */
  datatype WeakPtr = None | Some(target: StringVector)

  class StrBlobPtr {
    /** `wptr`: the vector this cursor observes, if it is bound to one. */
    var wptr: WeakPtr
    /** `curr`: the index the cursor stands at. */
    var curr: nat

    /** `StrBlobPtr()`: unbound, at index 0. */
    constructor ()
      ensures wptr == None && curr == 0
    {
      wptr := None;
      curr := 0;
    }

    /** `StrBlobPtr(a, sz)`: observes `a`'s vector, at index `sz`. */
    constructor Bind(a: StrBlob, sz: nat)
      ensures wptr == Some(a.data) && curr == sz
    {
      wptr := Some(a.data);
      curr := sz;
    }

    /** The objects the checks read: this cursor and the vector it observes. */
    function Footprint(): (fp: set<object>)
      reads this
      ensures this in fp && (wptr.Some? ==> wptr.target in fp)
    {
      if wptr.Some? then {this, wptr.target} else {this}
    }

    /** `check(i, msg)`: "unbound" when the weak pointer yields no vector,
        else out_of_range when `i >= size`, else the vector itself. */
    function Check(i: nat): (r: Result<StringVector>)
      reads Footprint()
      ensures r == Err(Unbound) <==> wptr.None?
      ensures r == Err(OutOfRange) <==> wptr.Some? && i >= |wptr.target.elems|
      ensures r.Ok? ==> wptr == Some(r.value) && i < |r.value.elems|
    {
      match wptr
      case None => Err(Unbound)
      case Some(v) => if i >= |v.elems| then Err(OutOfRange) else Ok(v)
    }

    /** `deref()`: `check(curr, …)`, then the string at `curr`. */
    function Deref(): (r: Result<string>)
      reads Footprint()
      ensures r == Err(Unbound) <==> wptr.None?
      ensures r == Err(OutOfRange) <==> wptr.Some? && curr >= |wptr.target.elems|
      ensures r.Ok? ==> wptr.Some? && curr < |wptr.target.elems| && r.value == wptr.target.elems[curr]
    {
      match Check(curr)
      case Err(e) => Err(e)
      case Ok(v) => Ok(v.elems[curr])
    }

    /** `incr()`: `check(curr, …)`, then step `curr` by one. A failed check
        leaves `curr` where it was. */
    method Incr() returns (r: Outcome)
      modifies this`curr
      ensures r == if old(Check(curr)).Ok? then Pass else Fail(old(Check(curr)).error)
      ensures r.Pass? <==> wptr.Some? && old(curr) < |wptr.target.elems|
      ensures curr == if r.Pass? then old(curr) + 1 else old(curr)
    {
      match Check(curr)
      case Err(e) =>
        r := Fail(e);
      case Ok(_) =>
        curr := curr + 1;
        r := Pass;
    }
  }

  /** The demonstration in src/StrBlob.cpp's `main`: after `b1 = b2` both
      blobs share one vector, so `b2.push_back` shows in `b1.size()`; then
      a blob from a list, its front and back, and one `pop_back`. */
  method SharingScenario()
    returns (b1Size: nat, size: nat, front: Result<string>, back: Result<string>,
             popped: Outcome, sizeAfterPop: nat)
    ensures b1Size == 4
    ensures size == 3 && front == Ok("Hello") && back == Ok("!")
    ensures popped == Pass && sizeAfterPop == 2
  {
    var b1 := StrBlob.Create();
    var b2 := StrBlob.FromList(["a", "an", "the"]);
    b1 := b2;
    b2.PushBack("about");
    b1Size := b1.Size();

    var blob := StrBlob.FromList(["Hello", "World", "!"]);
    size := blob.Size();
    front := blob.Front();
    back := blob.Back();
    popped := blob.PopBack();
    sizeAfterPop := blob.Size();
  }

  /** The demonstration in src/StrBlobPtr.cpp's `main`, carried one call
      further: from `begin()` on three strings, `deref` and `incr` walk the
      strings; the third `incr` reaches `end()`, and only a fourth `incr`,
      or a `deref` there, throws out_of_range. An unbound cursor throws
      "unbound" on every call. */
  method CursorScenario()
    returns (d0: Result<string>, d1: Result<string>, d2: Result<string>,
             i0: Outcome, i1: Outcome, i2: Outcome, i3: Outcome,
             atEnd: bool, dEnd: Result<string>,
             unboundDeref: Result<string>, unboundIncr: Outcome)
    ensures d0 == Ok("hello") && d1 == Ok("world") && d2 == Ok("test")
    ensures i0 == Pass && i1 == Pass && i2 == Pass && i3 == Fail(OutOfRange)
    ensures atEnd && dEnd == Err(OutOfRange)
    ensures unboundDeref == Err(Unbound) && unboundIncr == Fail(Unbound)
  {
    var blob := StrBlob.FromList(["hello", "world", "test"]);
    var ptr := blob.Begin();
    d0 := ptr.Deref();
    i0 := ptr.Incr();
    d1 := ptr.Deref();
    i1 := ptr.Incr();
    d2 := ptr.Deref();
    i2 := ptr.Incr();
    var e := blob.End();
    atEnd := ptr.curr == e.curr && ptr.wptr == e.wptr;
    dEnd := ptr.Deref();
    i3 := ptr.Incr();

    var unbound := new StrBlobPtr();
    unboundDeref := unbound.Deref();
    unboundIncr := unbound.Incr();
  }
}
