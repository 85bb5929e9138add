/** The abstract value of a `DynamicArray<T>` (src/DynamicArray.cpp): its
    live elements, in index order, and the number of slots its buffer has.

    The class in dynamic_array.dfy is proved to follow these functions one
    call at a time; the lemmas here then say what follows over many calls:
    the growth policy, the cost of reallocation, and the round trips. */
module DynamicArraySpec {
  import opened Errors

  /** `elems` is `data_[0 .. size_)`, `capacity` is `capacity_`. */
  datatype State<T> = State(elems: seq<T>, capacity: nat)

  /** The class invariant: `size_ <= capacity_` and the buffer is never empty. */
  predicate Valid<T>(s: State<T>)
  {
    1 <= s.capacity && |s.elems| <= s.capacity
  }

  /** The default constructor: no elements and a buffer of one slot. */
  function Init<T>(): (r: State<T>)
    ensures Valid(r) && r.elems == [] && r.capacity == 1
  {
    State([], 1)
  }

  /** The capacity `push_back` leaves: doubled when the buffer was full. */
  function GrownCapacity(size: nat, capacity: nat): (r: nat)
  {
    if size == capacity then capacity * 2 else capacity
  }

  /** `push_back(x)`: grow if full, then store `x` at index `size_`. */
  function PushBack<T>(s: State<T>, x: T): (r: State<T>)
    requires Valid(s)
    ensures Valid(r)
  {
    State(s.elems + [x], GrownCapacity(|s.elems|, s.capacity))
  }

  /** `pop_back()`: throws on an empty array, leaving it as it was;
      otherwise forgets the last element and keeps the buffer. */
  function PopBack<T>(s: State<T>): (r: (Outcome, State<T>))
    requires Valid(s)
    ensures Valid(r.1)
  {
    if s.elems == [] then (Fail(OutOfRange), s)
    else (Pass, State(s.elems[..|s.elems| - 1], s.capacity))
  }

  /** `at(i)`: the element at `i`, or out_of_range when `i >= size_`. */
  function At<T>(s: State<T>, i: nat): (r: Result<T>)
  {
    if i >= |s.elems| then Err(OutOfRange) else Ok(s.elems[i])
  }

  /** The state after `push_back` of each of `xs` in turn. */
  function PushAll<T>(s: State<T>, xs: seq<T>): (r: State<T>)
    requires Valid(s)
    ensures Valid(r)
    decreases |xs|
  {
    if xs == [] then s else PushAll(PushBack(s, xs[0]), xs[1..])
  }

  // ---------------------------------------------------------------------
  // Every sequence of mutating calls keeps the invariant
  // ---------------------------------------------------------------------

  /** The calls that change a `DynamicArray`. */
  datatype Op<T> = PushBackOp(x: T) | PopBackOp | ClearOp

  function Apply<T>(s: State<T>, op: Op<T>): (r: State<T>)
    requires Valid(s)
    ensures Valid(r)
  {
    match op
    case PushBackOp(x) => PushBack(s, x)
    case PopBackOp => PopBack(s).1
    case ClearOp => Init()
  }

  /** The state after the calls `ops`, in order; `0 <= size_ <= capacity_`
      and `capacity_ >= 1` hold at the end whatever the calls were. */
  function Run<T>(s: State<T>, ops: seq<Op<T>>): (r: State<T>)
    requires Valid(s)
    ensures Valid(r)
    ensures (forall k :: 0 <= k < |ops| ==> !ops[k].ClearOp?) ==> s.capacity <= r.capacity
    decreases |ops|
  {
    if ops == [] then s else Run(Apply(s, ops[0]), ops[1..])
  }

  // ---------------------------------------------------------------------
  // Round trips and element preservation
  // ---------------------------------------------------------------------

  /** `push_back` followed by `pop_back` gives back the elements there were
      before, and keeps the (possibly grown) buffer. */
  lemma PushBackThenPopBack<T>(s: State<T>, x: T)
    requires Valid(s)
    ensures PopBack(PushBack(s, x)) == (Pass, State(s.elems, PushBack(s, x).capacity))
  {
  }

  /** Pushing `xs` appends exactly `xs`, so every element stored before
      keeps its index, across however many reallocations. */
  lemma {:induction false} PushAllElems<T>(s: State<T>, xs: seq<T>)
    requires Valid(s)
    ensures PushAll(s, xs).elems == s.elems + xs
    decreases |xs|
  {
    if xs != [] {
      PushAllElems(PushBack(s, xs[0]), xs[1..]);
      assert s.elems + [xs[0]] + xs[1..] == s.elems + xs;
    }
  }

  /** After `n` pushes onto a fresh array, `at(i)` gives the `i`-th value
      pushed for every `i < n` and throws out_of_range for every other `i`. */
  lemma AtAfterPushes<T>(xs: seq<T>, i: nat)
    ensures At(PushAll(Init(), xs), i) == if i < |xs| then Ok(xs[i]) else Err(OutOfRange)
  {
    PushAllElems(Init(), xs);
  }

  // ---------------------------------------------------------------------
  // The growth policy: capacity is the least power of two that holds the
  // elements
  // ---------------------------------------------------------------------

  predicate IsPowerOfTwo(n: nat)
    decreases n
  {
    if n <= 1 then n == 1 else n % 2 == 0 && IsPowerOfTwo(n / 2)
  }

  /** Of two distinct powers of two, the larger is at least twice the smaller. */
  lemma {:induction false} PowersOfTwoApart(p: nat, q: nat)
    requires IsPowerOfTwo(p) && IsPowerOfTwo(q) && p < q
    ensures 2 * p <= q
    decreases p
  {
    if p > 1 {
      PowersOfTwoApart(p / 2, q / 2);
    }
  }

  /** `max(1, n)`: the number of slots `n` elements need in this design. */
  function Needed(n: nat): (r: nat)
  {
    if n == 0 then 1 else n
  }

  /** The capacity is a power of two, holds the elements, and is less than
      twice what they need. */
  predicate Tight<T>(s: State<T>)
  {
    IsPowerOfTwo(s.capacity) && Needed(|s.elems|) <= s.capacity < 2 * Needed(|s.elems|)
  }

  /** A tight capacity is the least power of two that holds the elements. */
  lemma TightIsLeast<T>(s: State<T>, p: nat)
    requires Tight(s) && IsPowerOfTwo(p) && Needed(|s.elems|) <= p
    ensures s.capacity <= p
  {
    if p < s.capacity {
      PowersOfTwoApart(p, s.capacity);
    }
  }

  lemma {:induction false} PushAllKeepsTight<T>(s: State<T>, xs: seq<T>)
    requires Valid(s) && Tight(s)
    ensures Tight(PushAll(s, xs))
    decreases |xs|
  {
    if xs != [] {
      var t := PushBack(s, xs[0]);
      if |s.elems| == s.capacity {
        assert (2 * s.capacity) / 2 == s.capacity;
      }
      assert Tight(t);
      PushAllKeepsTight(t, xs[1..]);
    }
  }

  /** After `n` pushes onto a fresh array the capacity is the least power of
      two that is at least `max(1, n)`. */
  lemma CapacityAfterPushes<T>(xs: seq<T>)
    ensures var c := PushAll(Init(), xs).capacity;
      IsPowerOfTwo(c) && Needed(|xs|) <= c < 2 * Needed(|xs|)
    ensures forall p :: IsPowerOfTwo(p) && Needed(|xs|) <= p ==> PushAll(Init(), xs).capacity <= p
  {
    PushAllKeepsTight(Init(), xs);
    PushAllElems(Init(), xs);
    forall p | IsPowerOfTwo(p) && Needed(|xs|) <= p
      ensures PushAll(Init(), xs).capacity <= p
    {
      TightIsLeast(PushAll(Init(), xs), p);
    }
  }

  // ---------------------------------------------------------------------
  // The cost of reallocation: amortized constant time per push
  // ---------------------------------------------------------------------

  /** Element copies made by the `resize` loop inside one `push_back`:
      all `size_` elements when the buffer is full, none otherwise. */
  function ResizeCopies<T>(s: State<T>): (r: nat)
  {
    if |s.elems| == s.capacity then |s.elems| else 0
  }

  /** Element copies made by pushing each of `xs` in turn. */
  function PushAllCopies<T>(s: State<T>, xs: seq<T>): (r: nat)
    requires Valid(s)
    decreases |xs|
  {
    if xs == [] then 0 else ResizeCopies(s) + PushAllCopies(PushBack(s, xs[0]), xs[1..])
  }

  /** Each reallocation copies exactly as many elements as it adds slots. */
  lemma {:induction false} CopiesEqualGrowth<T>(s: State<T>, xs: seq<T>)
    requires Valid(s)
    ensures PushAllCopies(s, xs) == PushAll(s, xs).capacity - s.capacity
    decreases |xs|
  {
    if xs != [] {
      CopiesEqualGrowth(PushBack(s, xs[0]), xs[1..]);
    }
  }

  /** From a fresh array, `n` pushes copy `capacity - 1` elements in all,
      at most `2n - 2`: the doubling makes `push_back` amortized O(1). */
  lemma AmortizedCopies<T>(xs: seq<T>)
    ensures PushAllCopies(Init(), xs) == PushAll(Init(), xs).capacity - 1
    ensures xs != [] ==> PushAllCopies(Init(), xs) <= 2 * |xs| - 2
  {
    CopiesEqualGrowth(Init(), xs);
    CapacityAfterPushes(xs);
  }
}
