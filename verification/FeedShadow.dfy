/** Where the feed believes each order stands while an auction runs. A clip shown at
    the clearing price of an order limited elsewhere is displaced. */
module FeedShadow {
  import opened Types
  import opened Ladders
  import opened Book
  import opened FeedMirror

  // ---- queues without some ids ----------------------------------------

  function Drop(q: Queue, x: set<nat>): Queue {
    if q == [] then [] else if q[0].id in x then Drop(q[1..], x) else [q[0]] + Drop(q[1..], x)
  }

  lemma {:induction false} DropJoin(q: Queue, x: set<nat>, o: Order)
    ensures Drop(q + [o], x) == Drop(q, x) + (if o.id in x then [] else [o])
  {
    if q == [] {
      assert q + [o] == [o];
    } else {
      assert (q + [o])[1..] == q[1..] + [o];
      DropJoin(q[1..], x, o);
    }
  }

  lemma {:induction false} DropTwice(q: Queue, x: set<nat>, id: nat)
    ensures Drop(Drop(q, x), {id}) == Drop(q, x + {id})
  {
    if q != [] {
      DropTwice(q[1..], x, id);
      var d := Drop(q[1..], x);
      if q[0].id !in x { assert ([q[0]] + d)[1..] == d; }
    }
  }

  lemma {:induction false} DropNone(q: Queue)
    ensures Drop(q, {}) == q
  {
    if q != [] { DropNone(q[1..]); }
  }

  lemma {:induction false} DropStranger(q: Queue, x: set<nat>, id: nat)
    requires id !in Ids(q)
    ensures Drop(q, x + {id}) == Drop(q, x)
  {
    if q != [] { DropStranger(q[1..], x, id); }
  }

  lemma {:induction false} DropWithout(q: Queue, x: set<nat>, k: nat)
    requires Distinct(q) && k < |q|
    ensures Drop(Without(q, k), x) == Drop(q, x + {q[k].id})
  {
    if k == 0 {
      assert Without(q, 0) == q[1..];
      DropStranger(q[1..], x, q[0].id);
    } else {
      assert Without(q, k)[1..] == Without(q[1..], k - 1);
      IdAt(q[1..], k - 1);
      DropWithout(q[1..], x, k - 1);
    }
  }

  /** The queue with its order of `o`'s id replaced by `o`. */
  function Swap(q: Queue, o: Order): Queue {
    if q == [] then [] else [if q[0].id == o.id then o else q[0]] + Swap(q[1..], o)
  }

  lemma {:induction false} SwapStranger(q: Queue, o: Order)
    requires o.id !in Ids(q)
    ensures Swap(q, o) == q
  {
    if q != [] { SwapStranger(q[1..], o); }
  }

  lemma SwapCons(a: Order, d: Queue, o: Order)
    ensures Swap([a] + d, o) == [if a.id == o.id then o else a] + Swap(d, o)
  {
    assert ([a] + d)[1..] == d;
  }

  lemma DropCons(q: Queue, x: set<nat>)
    requires q != []
    ensures Drop(q, x) == if q[0].id in x then Drop(q[1..], x) else [q[0]] + Drop(q[1..], x)
  {}

  lemma {:induction false} DropAmend(q: Queue, x: set<nat>, k: nat, o: Order)
    requires Distinct(q) && k < |q| && o.id == q[k].id
    ensures Drop(q[k := o], x) == Swap(Drop(q, x), o)
  {
    hide Drop, Swap;
    var rest := q[1..];
    DropCons(q, x);
    DropCons(q[k := o], x);
    SwapCons(q[0], Drop(rest, x), o);
    if k == 0 {
      assert q[k := o][1..] == rest;
      DropIds(rest, x);
      SwapStranger(Drop(rest, x), o);
    } else {
      assert q[k := o][1..] == rest[k - 1 := o];
      IdAt(rest, k - 1);
      DropAmend(rest, x, k - 1, o);
    }
  }

  lemma {:induction false} DropIds(q: Queue, x: set<nat>)
    ensures Ids(Drop(q, x)) <= Ids(q)
  {
    if q != [] {
      DropIds(q[1..], x);
      var d := Drop(q[1..], x);
      if q[0].id !in x { assert ([q[0]] + d)[1..] == d; }
    }
  }

  lemma {:induction false} SwapDropped(q: Queue, x: set<nat>, o: Order)
    requires o.id in x
    ensures Swap(Drop(q, x), o) == Drop(q, x)
  {
    if q != [] {
      SwapDropped(q[1..], x, o);
      var d := Drop(q[1..], x);
      if q[0].id !in x { assert ([q[0]] + d)[1..] == d; }
    }
  }

  // ---- orders found by id ---------------------------------------------

  ghost predicate Displayed(st: State, id: nat) {
    st.Indexed() && id in st.live && !st.live[id].shelf.stop
  }

  /** Takes `f` off the displayed clip of a live order; a spent clip leaves. */
  function Hit(st: State, id: nat, f: nat): (t: State)
    requires Displayed(st, id) && f > 0
    ensures t.Shaped() && t.width == st.width
  {
    var at, o := st.live[id], OrderOf(st, id);
    if f < o.qty then Amend(st, at.shelf, at.tick, Seat(st, id), o.(qty := o.qty - f))
    else Leave(st, at.shelf, at.tick, Seat(st, id))
  }

  /** An order changed in place leaves every other as it was. */
  lemma AmendOthers(st: State, id: nat, o': Order)
    requires st.Indexed() && id in st.live && o'.id == id
    ensures var t := Amend(st, st.live[id].shelf, st.live[id].tick, Seat(st, id), o');
      && t.Indexed() && t.live == st.live && OrderOf(t, id) == o'
      && (forall j :: j in t.live && j != id ==> OrderOf(t, j) == OrderOf(st, j))
  {
    hide State.ListedAt;
    var at, k, q := st.live[id], Seat(st, id), Home(st, id);
    var t := Amend(st, at.shelf, at.tick, k, o');
    AmendIndexed(st, at.shelf, at.tick, k, o');
    assert t.Get(at.shelf)[at.tick] == q[k := o'] && q[k := o'][k] == o';
    InQueue(t, at, o');
    forall j | j in t.live && j != id ensures OrderOf(t, j) == OrderOf(st, j) {
      if OrderOf(st, j) in q { KeptByUpdate(q, k, o', OrderOf(st, j)); }
      OrderKept(st, at.shelf, at.tick, q[k := o'], st.live, j);
    }
  }

  lemma HitOthers(st: State, id: nat, f: nat)
    requires Displayed(st, id) && f > 0
    ensures var t := Hit(st, id, f); var o := OrderOf(st, id);
      && t.Indexed() && t.min == st.min && t.width == st.width && t.halted == st.halted && t.nextId == st.nextId
      && t.live == (if f < o.qty then st.live else st.live - {id})
      && (forall j :: j in t.live && j != id ==> OrderOf(t, j) == OrderOf(st, j))
      && (f < o.qty ==> OrderOf(t, id) == o.(qty := o.qty - f))
  {
    hide State.ListedAt;
    var t, o := Hit(st, id, f), OrderOf(st, id);
    var at, k, q := st.live[id], Seat(st, id), Home(st, id);
    if f < o.qty {
      AmendOthers(st, id, o.(qty := o.qty - f));
    } else {
      LeaveIndexed(st, at.shelf, at.tick, k);
      forall j | j in t.live && j != id ensures OrderOf(t, j) == OrderOf(st, j) {
        if OrderOf(st, j) in q { KeptByWithout(q, k, OrderOf(st, j)); }
        OrderKept(st, at.shelf, at.tick, Without(q, k), st.live - {id}, j);
      }
    }
  }

  lemma KeptByUpdate(q: Queue, k: nat, o': Order, o: Order)
    requires k < |q| && o in q && o != q[k]
    ensures o in q[k := o']
  {
    var j := Position(q, o);
    assert q[k := o'][j] == o;
  }

  lemma JoinOthers(st: State, s: Side, i: nat, o: Order)
    requires st.Indexed() && i < st.width && 0 < o.id < st.nextId && o.id !in st.live
    ensures var t := Join(st, Resting(s), i, o);
      && t.Indexed() && OrderOf(t, o.id) == o
      && (forall j :: j in st.live ==> j in t.live && OrderOf(t, j) == OrderOf(st, j))
  {
    hide State.ListedAt;
    JoinIndexed(st, Resting(s), i, o);
    var t, q := Join(st, Resting(s), i, o), st.Get(Resting(s))[i];
    assert t.Get(Resting(s))[i] == q + [o] && (q + [o])[|q|] == o;
    InQueue(t, Place(Resting(s), i), o);
    forall j | j in st.live ensures j in t.live && OrderOf(t, j) == OrderOf(st, j) {
      OrderKept(st, Resting(s), i, q + [o], st.live[o.id := Place(Resting(s), i)], j);
    }
  }

  // ---- the shadow -----------------------------------------------------

  /** `sh` is `st` with the live orders of `moved` standing at tick `p` instead of
      their own; elsewhere the queues agree. */
  ghost predicate Shadows(sh: State, st: State, moved: set<nat>, p: nat)
    requires st.Indexed()
  {
    && sh.Indexed() && sh.min == st.min && sh.width == st.width && sh.halted == st.halted && sh.nextId == st.nextId
    && SamePlaces(sh, st, moved, p)
    && (forall id :: id in st.live ==> OrderOf(sh, id) == OrderOf(st, id))
    && SameOtherwise(sh, st, moved)
  }

  ghost predicate SamePlaces(sh: State, st: State, moved: set<nat>, p: nat) {
    && sh.live.Keys == st.live.Keys
    && (forall id :: id in st.live && id !in moved ==> sh.live[id] == st.live[id])
    && (forall id :: id in st.live && id in moved ==>
          sh.live[id] == Place(st.live[id].shelf, p) && !st.live[id].shelf.stop && st.live[id].tick != p)
  }

  ghost predicate SameOtherwise(sh: State, st: State, moved: set<nat>)
    requires sh.Shaped() && st.Shaped() && sh.width == st.width
  {
    forall s: Side, j :: 0 <= j < st.width ==> Drop(sh.Get(Resting(s))[j], moved) == Drop(st.Get(Resting(s))[j], moved)
  }

  /** What a hit does to the queues, seen without the moved orders. */
  lemma HitDropped(st: State, id: nat, f: nat, moved: set<nat>, s: Side, j: nat)
    requires Displayed(st, id) && f > 0 && j < st.width
    ensures var d, t, o := Drop(st.Get(Resting(s))[j], moved), Hit(st, id, f), OrderOf(st, id);
      && |t.Get(Resting(s))| == st.width
      && Drop(t.Get(Resting(s))[j], moved) ==
           if id in moved || st.live[id] != Place(Resting(s), j) then d
           else if f < o.qty then Swap(d, o.(qty := o.qty - f))
           else Drop(d, {id})
  {
    hide State.ListedAt, Drop, Swap, Distinct;
    var at, k, q, o := st.live[id], Seat(st, id), Home(st, id), OrderOf(st, id);
    assert Distinct(q) by { ListedDistinct(st, at); }
    if at == Place(Resting(s), j) {
      if f < o.qty {
        DropAmend(q, moved, k, o.(qty := o.qty - f));
        if id in moved { SwapDropped(q, moved, o.(qty := o.qty - f)); }
      } else {
        DropWithout(q, moved, k);
        DropTwice(q, moved, id);
        if id in moved { assert moved + {id} == moved; }
      }
    }
  }

  lemma HitOtherwise(sh: State, st: State, moved: set<nat>, p: nat, id: nat, f: nat)
    requires st.Indexed() && Shadows(sh, st, moved, p) && Displayed(st, id) && f > 0
    requires Displayed(sh, id) && Hit(st, id, f).Shaped() && Hit(sh, id, f).Shaped()
    requires Hit(st, id, f).width == st.width && Hit(sh, id, f).width == st.width
    ensures SameOtherwise(Hit(sh, id, f), Hit(st, id, f), moved)
  {
    hide State.ListedAt, State.Bounded, Hit, OrderOf, Seat, Swap, Drop;
    forall s: Side, j | 0 <= j < st.width
      ensures Drop(Hit(sh, id, f).Get(Resting(s))[j], moved) == Drop(Hit(st, id, f).Get(Resting(s))[j], moved)
    {
      HitDropped(st, id, f, moved, s, j);
      HitDropped(sh, id, f, moved, s, j);
    }
  }

  lemma HitShadows(sh: State, st: State, moved: set<nat>, p: nat, id: nat, f: nat)
    requires st.Indexed() && Shadows(sh, st, moved, p) && Displayed(st, id) && f > 0
    ensures Displayed(sh, id) && Hit(st, id, f).Indexed()
    ensures Shadows(Hit(sh, id, f), Hit(st, id, f), moved, p)
  {
    hide State.ListedAt, State.Bounded, Hit, SameOtherwise, OrderOf, Seat;
    HitOthers(st, id, f);
    HitOthers(sh, id, f);
    HitOtherwise(sh, st, moved, p, id, f);
  }

  lemma ShowOtherwise(sh: State, st: State, moved: set<nat>, p: nat, s: Side, i: nat, o: Order)
    requires st.Shaped() && sh.Shaped() && sh.width == st.width && SameOtherwise(sh, st, moved)
    requires i < st.width && p < st.width && (o.id in moved ==> i != p)
    ensures SameOtherwise(Join(sh, Resting(s), p, o), Join(st, Resting(s), i, o),
      if i != p then moved + {o.id} else moved)
  {
    var moved' := if i != p then moved + {o.id} else moved;
    var st', sh' := Join(st, Resting(s), i, o), Join(sh, Resting(s), p, o);
    forall r: Side, j | 0 <= j < st.width
      ensures Drop(sh'.Get(Resting(r))[j], moved') == Drop(st'.Get(Resting(r))[j], moved')
    {
      var q, q' := st.Get(Resting(r))[j], sh.Get(Resting(r))[j];
      assert Drop(q', moved) == Drop(q, moved);
      DropTwice(q, moved, o.id);
      DropTwice(q', moved, o.id);
      DropJoin(q, moved', o);
      DropJoin(q', moved', o);
    }
  }

  /** Showing a clip at `p` instead of its own tick displaces it. */
  lemma ShowShadows(sh: State, st: State, moved: set<nat>, p: nat, s: Side, i: nat, o: Order)
    requires st.Indexed() && Shadows(sh, st, moved, p) && i < st.width && p < st.width
    requires 0 < o.id < st.nextId && o.id !in st.live && (o.id in moved ==> i != p)
    ensures Join(st, Resting(s), i, o).Indexed()
    ensures Shadows(Join(sh, Resting(s), p, o), Join(st, Resting(s), i, o), if i != p then moved + {o.id} else moved, p)
  {
    hide State.ListedAt, State.Bounded, SameOtherwise, OrderOf, Seat;
    JoinOthers(st, s, i, o);
    JoinOthers(sh, s, p, o);
    ShowOtherwise(sh, st, moved, p, s, i, o);
  }
}
