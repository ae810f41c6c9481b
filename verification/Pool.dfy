/** The chunked node pool: stable slots, recycled through a free list. */
module Pools {
  import opened Types

  /** `base + n - 1` down to `base`. */
  function Reverse(base: nat, n: nat): (s: seq<nat>)
    ensures |s| == n && forall k :: 0 <= k < n ==> s[k] == base + n - 1 - k
  {
    seq(n, k requires 0 <= k < n => base + n - 1 - k)
  }

  lemma ReverseMembers(base: nat, n: nat, x: nat)
    ensures x in Reverse(base, n) <==> base <= x < base + n
  {
    if base <= x < base + n { assert Reverse(base, n)[base + n - 1 - x] == x; }
  }

  class Pool {
    const chunkSize: nat
    /** Slots in all chunks together. */
    var capacity: nat
    var free: seq<nat>
    /** The slots handed out and not yet given back. */
    ghost var used: set<nat>

    /** Every slot is either free, once, or handed out. */
    ghost predicate Valid()
      reads this
    {
      && chunkSize > 0 && Unique(free)
      && (forall x :: x in free ==> x !in used && x < capacity)
      && (forall x :: x in used ==> x < capacity)
      && |free| + |used| == capacity
    }

    constructor (size: nat, initial: nat)
      requires size > 0
      ensures Valid() && used == {} && chunkSize == size && capacity >= initial
    {
      chunkSize, capacity, free, used := size, 0, [], {};
      new;
      while capacity < initial
        invariant Valid() && used == {}
        decreases initial - capacity
      {
        Grow();
      }
    }

    /** Pushes a new chunk's slots in reverse, so that its lowest is handed out first. */
    method Grow()
      requires Valid()
      modifies this`capacity, this`free
      ensures Valid() && capacity == old(capacity) + chunkSize
      ensures free == old(free) + Reverse(old(capacity), chunkSize)
    {
      var base := capacity;
      ghost var was := free;
      var i := chunkSize;
      while i > 0
        invariant 0 <= i <= chunkSize && free == was + Reverse(base + i, chunkSize - i)
      {
        i := i - 1;
        assert Reverse(base + i, chunkSize - i) == Reverse(base + i + 1, chunkSize - i - 1) + [base + i];
        free := free + [base + i];
      }
      capacity := base + chunkSize;
      forall x: nat ensures x in Reverse(base, chunkSize) <==> base <= x < base + chunkSize {
        ReverseMembers(base, chunkSize, x);
      }
      UniqueAppend(was, Reverse(base, chunkSize));
    }

    /** The slot handed out was free, and is nobody else's until it is given back. */
    method Alloc() returns (p: nat)
      requires Valid()
      modifies this
      ensures Valid() && p !in old(used) && used == old(used) + {p} && p < capacity && capacity >= old(capacity)
    {
      if |free| == 0 { Grow(); }
      var n := |free| - 1;
      p := free[n];
      free := free[..n];
      used := used + {p};
    }

    method Free(p: nat)
      requires Valid() && p in used
      modifies this`free, this`used
      ensures Valid() && used == old(used) - {p}
    {
      free := free + [p];
      used := used - {p};
    }

    /** Capacity less free slots is exactly the number handed out. */
    method InUse() returns (n: nat)
      requires Valid()
      ensures n == |used|
    {
      n := capacity - |free|;
    }
  }
}
