/** One side's flat array of price levels with its occupancy bitmap. */
module LevelBooks {
  import opened Types
  import opened Ladders
  import opened Bitmap

  /** A level's cached totals, and the FIFO they are totals of. The nodes themselves, and
      the level's head and tail, are in the slab. */
  datatype Level = Level(total: nat, hidden: nat, count: nat, ghost fifo: Queue)

  /** The cached totals are the sums over the FIFO. */
  ghost predicate Tallied(l: Level) {
    l.total == Sum(Shown, l.fifo) && l.hidden == Sum(Dark, l.fifo) && l.count == |l.fifo|
  }

  ghost function Fifos(ls: seq<Level>): (q: Ladder)
    ensures |q| == |ls| && forall i :: 0 <= i < |ls| ==> q[i] == ls[i].fifo
  {
    seq(|ls|, i requires 0 <= i < |ls| => ls[i].fifo)
  }

  function Pushed(l: Level, o: Order): (r: Level)
    requires Tallied(l)
    ensures Tallied(r) && r.fifo == l.fifo + [o]
  {
    SumJoin(Shown, l.fifo, o);
    SumJoin(Dark, l.fifo, o);
    Level(l.total + o.qty, l.hidden + o.reserve, l.count + 1, l.fifo + [o])
  }

  /** Order `o`, the one at `k`, leaves. */
  function Unlinked(l: Level, ghost k: nat, o: Order): (r: Level)
    requires Tallied(l) && k < |l.fifo| && o == l.fifo[k]
    ensures Tallied(r) && r.fifo == Without(l.fifo, k)
  {
    SumWithout(Shown, l.fifo, k);
    SumWithout(Dark, l.fifo, k);
    Level(l.total - o.qty, l.hidden - o.reserve, l.count - 1, Without(l.fifo, k))
  }

  /** Order `was`, the one at `k`, changes in place to `o`. */
  function Revised(l: Level, ghost k: nat, was: Order, o: Order): (r: Level)
    requires Tallied(l) && k < |l.fifo| && was == l.fifo[k]
    ensures Tallied(r) && r.fifo == l.fifo[k := o]
  {
    SumReplace(Shown, l.fifo, k, o);
    SumReplace(Dark, l.fifo, k, o);
    Level(l.total - was.qty + o.qty, l.hidden - was.reserve + o.reserve, l.count, l.fifo[k := o])
  }

  /** The head `was` moves to the tail, as `o`. */
  function Rotated(l: Level, was: Order, o: Order): (r: Level)
    requires Tallied(l) && l.fifo != [] && was == l.fifo[0]
    ensures Tallied(r) && r.fifo == l.fifo[1..] + [o]
  {
    SumJoin(Shown, l.fifo[1..], o);
    SumJoin(Dark, l.fifo[1..], o);
    SumOne(l.fifo);
    Level(l.total - was.qty + o.qty, l.hidden - was.reserve + o.reserve, l.count, l.fifo[1..] + [o])
  }

  class LevelBook {
    const n: nat
    const levels: array<Level>
    const bits: LevelBitmap

    ghost predicate Sized() {
      levels.Length == n == bits.n && n > 0 && levels as object != bits.words
    }

    ghost function Queues(): (q: Ladder)
      reads levels
      ensures |q| == levels.Length && forall i :: 0 <= i < |q| ==> q[i] == levels[i].fifo
    {
      Fifos(levels[..])
    }

    /** Totals are right everywhere; bits are exact except perhaps at level `i`. */
    ghost predicate ValidBut(i: int)
      reads levels, bits.words
    {
      && Sized() && bits.Valid()
      && (forall j :: 0 <= j < n ==> Tallied(levels[j]))
      && (forall j :: 0 <= j < n && j != i ==> (bits.Test(j) <==> levels[j].fifo != []))
    }

    ghost predicate Valid()
      reads levels, bits.words
    {
      ValidBut(-1)
    }

    /** Valid except that level `i` may be empty with its bit still set. */
    ghost predicate StaleAt(i: nat)
      reads levels, bits.words
    {
      ValidBut(i) && i < n && bits.Test(i)
    }

    lemma Stale(i: nat)
      requires Valid() && i < n && Queues()[i] != []
      ensures StaleAt(i)
    {}

    lemma NotStale(i: nat)
      requires StaleAt(i) && Queues()[i] != []
      ensures Valid()
    {}

    constructor (width: nat)
      requires width > 0
      ensures Valid() && Sized() && n == width && fresh(levels) && fresh(bits.words)
      ensures Queues() == seq(width, i => [])
    {
      n := width;
      levels := new Level[width](_ => Level(0, 0, 0, []));
      bits := new LevelBitmap(width);
    }

    /** Stores a level without touching the bitmap. */
    method Store(i: nat, l: Level)
      requires Sized() && i < n && ValidBut(-1) && Tallied(l)
      modifies levels
      ensures ValidBut(i) && Queues() == old(Queues())[i := l.fifo]
      ensures (l.fifo != []) == (old(levels[i]).fifo != []) ==> Valid()
    {
      levels[i] := l;
      assert levels[..] == old(levels[..])[i := l];
    }

    /** As `Store`, while level `i` is already being worked on. */
    method Restore(i: nat, l: Level)
      requires StaleAt(i) && Tallied(l)
      modifies levels
      ensures StaleAt(i) && Queues() == old(Queues())[i := l.fifo] && levels[i] == l
    {
      levels[i] := l;
      assert levels[..] == old(levels[..])[i := l];
    }

    method Mark(i: nat)
      requires Sized() && i < n && ValidBut(i) && Queues()[i] != []
      modifies bits.words
      ensures Valid()
    {
      bits.Set(i);
    }

    method Unmark(i: nat)
      requires Sized() && i < n && ValidBut(i) && Queues()[i] == []
      modifies bits.words
      ensures Valid()
    {
      bits.Clear(i);
    }

    /** The first occupied level behind tick `i` on side `side`. */
    method Behind(side: Side, i: int) returns (b: int)
      requires Valid() && -1 <= i <= n
      ensures -1 <= b < n == |Queues()| && (b >= 0 ==> Queues()[b] != [] && Beats(side, i, b))
      ensures forall j :: 0 <= j < n && Beats(side, i, j) && (b < 0 || Beats(side, j, b)) ==> Queues()[j] == []
    {
      if side.Buy? { b := bits.FindLe(i - 1); } else { b := bits.FindGe(i + 1); }
      forall j | 0 <= j < n && Queues()[j] != [] ensures bits.Test(j) {}
    }

    /** Next best level behind tick `i`: the bitmap hop taken when a level empties. */
    method NextBest(side: Side, i: nat) returns (b: int)
      requires Valid() && i < n
      requires forall j :: 0 <= j < n && Queues()[j] != [] ==> Beats(side, i, j)
      ensures b == Best(side, Queues())
    {
      if side.Buy? { b := bits.FindLe(i - 1); } else { b := bits.FindGe(i + 1); }
      forall j | 0 <= j < n && Queues()[j] != [] ensures b >= 0 && !Beats(side, j, b) { assert bits.Test(j); }
      BestIsUnique(side, Queues(), b);
    }

    /** The lowest or highest occupied level of the whole array. */
    method Extreme(side: Side) returns (b: int)
      requires Valid()
      ensures b == Best(side, Queues())
    {
      if side.Buy? { b := bits.FindLe(n - 1); } else { b := bits.FindGe(0); }
      forall j | 0 <= j < n && Queues()[j] != [] ensures b >= 0 && !Beats(side, j, b) { assert bits.Test(j); }
      BestIsUnique(side, Queues(), b);
    }
  }
}
