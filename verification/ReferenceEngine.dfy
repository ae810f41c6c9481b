/** The naive engine: maps of queues and a flat list of parked stops, scanned
    linearly, proved against the same state transitions as the flat-array engine. */
module NaiveBook {
  import opened Types
  import opened Ladders

  type PriceMap = map<int, Queue>

  /** A parked stop with its side and trigger price; the list is in arrival order. */
  datatype Parked = Parked(side: Side, price: int, o: Order)

  /** The ladder a price map stands for: a missing key is an empty tick. */
  function Rungs(m: PriceMap, min: int, n: nat): (l: Ladder)
    ensures |l| == n
    ensures forall i :: 0 <= i < n ==> l[i] == if min + i in m then m[min + i] else []
  {
    seq(n, i requires 0 <= i < n => if min + i in m then m[min + i] else [])
  }

  /** The stops parked at one trigger, in arrival order. */
  function ParkedAt(ps: seq<Parked>, s: Side, price: int): Queue {
    if ps == [] then []
    else (if ps[0].side == s && ps[0].price == price then [ps[0].o] else []) + ParkedAt(ps[1..], s, price)
  }

  function StopRungs(ps: seq<Parked>, s: Side, min: int, n: nat): (l: Ladder)
    ensures |l| == n
    ensures forall i :: 0 <= i < n ==> l[i] == ParkedAt(ps, s, min + i)
  {
    seq(n, i requires 0 <= i < n => ParkedAt(ps, s, min + i))
  }

  /** Only occupied in-band prices are keys, except that `px` may have just emptied. */
  ghost predicate TidyBut(m: PriceMap, min: int, n: nat, px: int) {
    forall p :: p in m ==> min <= p < min + n && (p != px ==> m[p] != [])
  }

  ghost predicate Tidy(m: PriceMap, min: int, n: nat) {
    forall p :: p in m ==> min <= p < min + n && m[p] != []
  }

  predicate Better(s: Side, p: int, q: int) { if s.Buy? then p > q else p < q }

  lemma RungsSet(m: PriceMap, min: int, n: nat, px: int, q: Queue)
    requires min <= px < min + n
    ensures Rungs(m[px := q], min, n) == Rungs(m, min, n)[px - min := q]
  {}

  lemma RungsErase(m: PriceMap, min: int, n: nat, px: int)
    requires min <= px < min + n
    ensures Rungs(m - {px}, min, n) == Rungs(m, min, n)[px - min := []]
  {}

  /** The first key of an ordered map is the best occupied tick. */
  lemma BestKeyIsBest(s: Side, m: PriceMap, min: int, n: nat, px: int)
    requires Tidy(m, min, n) && px in m && forall p :: p in m ==> !Better(s, p, px)
    ensures Best(s, Rungs(m, min, n)) == px - min
  {
    var l := Rungs(m, min, n);
    assert l[px - min] == m[px];
    forall j | 0 <= j < |l| && l[j] != [] ensures !Beats(s, j, px - min) { assert min + j in m; }
    BestIsUnique(s, l, px - min);
  }

  lemma NoKeysNoBest(s: Side, m: PriceMap, min: int, n: nat)
    requires m == map[]
    ensures Best(s, Rungs(m, min, n)) == -1
  {
    BestIsUnique(s, Rungs(m, min, n), -1);
  }

  lemma NonEmptyMap(m: PriceMap)
    requires m != map[]
    ensures exists p :: p in m
  {
    if forall p :: p !in m {
      NoKeys(m);
      assert false;
    }
  }

  lemma NoKeys(m: PriceMap)
    requires forall p :: p !in m
    ensures m == map[]
  {
    forall p: int ensures p !in m.Keys { assert p !in m; }
    assert m.Keys == {};
  }

  /** `begin()` of the ordered map for asks, `rbegin()` for bids. */
  method FirstKey(s: Side, m: PriceMap, min: int, n: nat) returns (px: int)
    requires m != map[] && forall p :: p in m ==> min <= p < min + n
    ensures px in m && forall p :: p in m ==> !Better(s, p, px)
  {
    px := if s.Buy? then min + n - 1 else min;
    NonEmptyMap(m);
    while px !in m
      invariant forall p :: p in m ==> !Better(s, p, px)
      invariant exists p :: p in m
      decreases if s.Buy? then px - min else min + n - px
    {
      px := if s.Buy? then px - 1 else px + 1;
    }
  }

  lemma {:induction false} ParkedAppend(a: seq<Parked>, b: seq<Parked>, s: Side, price: int)
    ensures ParkedAt(a + b, s, price) == ParkedAt(a, s, price) + ParkedAt(b, s, price)
  {
    if a == [] {
      assert a + b == b;
    } else {
      assert (a + b)[1..] == a[1..] + b;
      ParkedAppend(a[1..], b, s, price);
    }
  }

  /** Removing entry `i` removes the order at its rank among the stops of its trigger. */
  lemma ParkedErase(ps: seq<Parked>, i: nat, s: Side, price: int)
    requires i < |ps|
    ensures var q := ParkedAt(ps, s, price);
      var k := |ParkedAt(ps[..i], s, price)|;
      ParkedAt(ps[..i] + ps[i + 1..], s, price) ==
        if ps[i].side == s && ps[i].price == price
          then (assert k < |q| && q[k] == ps[i].o by { ParkedSplit(ps, i, s, price); } Without(q, k)) else q
  {
    ParkedSplit(ps, i, s, price);
    ParkedAppend(ps[..i], ps[i + 1..], s, price);
  }

  lemma {:induction false} ParkedMember(ps: seq<Parked>, j: nat)
    requires j < |ps|
    ensures ParkedAt(ps, ps[j].side, ps[j].price) != []
  {
    ParkedSplit(ps, j, ps[j].side, ps[j].price);
  }

  lemma {:induction false} ParkedWitness(ps: seq<Parked>, s: Side, price: int) returns (j: nat)
    requires ParkedAt(ps, s, price) != []
    ensures j < |ps| && ps[j].side == s && ps[j].price == price
  {
    if ps[0].side == s && ps[0].price == price {
      j := 0;
    } else {
      var k := ParkedWitness(ps[1..], s, price);
      j := k + 1;
    }
  }

  lemma {:induction false} ParkedId(ps: seq<Parked>, s: Side, price: int, id: nat) returns (j: nat)
    requires id in Ids(ParkedAt(ps, s, price))
    ensures j < |ps| && ps[j].o.id == id
  {
    if ps[0].side == s && ps[0].price == price && ps[0].o.id == id {
      j := 0;
    } else {
      assert ParkedAt(ps, s, price) ==
        (if ps[0].side == s && ps[0].price == price then [ps[0].o] else []) + ParkedAt(ps[1..], s, price);
      if ps[0].side == s && ps[0].price == price {
        assert ParkedAt(ps, s, price)[1..] == ParkedAt(ps[1..], s, price);
      } else {
        assert ParkedAt(ps, s, price) == ParkedAt(ps[1..], s, price);
      }
      var k := ParkedId(ps[1..], s, price, id);
      j := k + 1;
    }
  }

  lemma {:induction false} NoneParked(ps: seq<Parked>, s: Side, price: int)
    requires forall j :: 0 <= j < |ps| ==> ps[j].side != s || ps[j].price != price
    ensures ParkedAt(ps, s, price) == []
  {
    if ps != [] { NoneParked(ps[1..], s, price); }
  }

  lemma ParkedOne(p: Parked, s: Side, price: int)
    ensures ParkedAt([p], s, price) == if p.side == s && p.price == price then [p.o] else []
  {
    assert [p][1..] == [];
  }

  lemma ParkedSplit(ps: seq<Parked>, i: nat, s: Side, price: int)
    requires i < |ps|
    ensures ParkedAt(ps, s, price) == ParkedAt(ps[..i], s, price) +
      (if ps[i].side == s && ps[i].price == price then [ps[i].o] else []) + ParkedAt(ps[i + 1..], s, price)
  {
    assert ps == ps[..i] + [ps[i]] + ps[i + 1..];
    ParkedAppend(ps[..i] + [ps[i]], ps[i + 1..], s, price);
    ParkedAppend(ps[..i], [ps[i]], s, price);
    assert [ps[i]][1..] == [];
  }
}

module NaiveEngine {
  import opened Types
  import opened Ladders
  import opened Book
  import opened Matching
  import opened Reach
  import opened Auction
  import opened Engine
  import opened Safety
  import opened NaiveBook
  import opened FastEngine

  /** Pumping a quiet state changes nothing. */
  lemma QuietPump(st: State)
    requires Engine.Valid(st) && Quiet(st)
    ensures Pump(st) == st
  {}

  lemma SameStopsQuiet(st: State, t: State)
    requires Quiet(st) && t.min == st.min && t.last == st.last && t.halted == st.halted
    requires t.Get(Pending(Buy)) == st.Get(Pending(Buy)) && t.Get(Pending(Sell)) == st.Get(Pending(Sell))
    ensures Quiet(t)
  {}

  /** Telling the handler keeps a state valid. */
  lemma ToldValid(st: State, last: Option<int>, news: seq<Event>)
    requires Engine.Valid(st)
    ensures Engine.Valid(st.(last := last, tape := st.tape + news))
  {
    hide State.ListedAt, StopsInBand;
    TellFrame(st, last, news, Resting(Buy));
    StopsInBandSame(st, st.(last := last, tape := st.tape + news));
  }

  lemma RequeueFacts(st: State, s: Types.Side, i: nat, o: Order)
    requires Engine.Valid(st) && i < st.width && st.Get(Resting(s))[i] != [] && o.id == st.Get(Resting(s))[i][0].id
    ensures Engine.Valid(Requeue(st, Resting(s), i, o))
  {
    hide State.ListedAt, StopsInBand;
    RequeueIndexed(st, Resting(s), i, o);
    SetQueueStopsInBand(st, Resting(s), i, st.Get(Resting(s))[i][1..] + [o], st.live);
  }

  /** An order found in a queue is the one filed under its id, at that very seat. */
  lemma SeatIs(st: State, s: Shelf, i: nat, k: nat)
    requires st.Indexed() && i < st.width && k < |st.Get(s)[i]|
    ensures var id := st.Get(s)[i][k].id;
      id in st.live && st.live[id] == Place(s, i) && Seat(st, id) == k && OrderOf(st, id) == st.Get(s)[i][k]
  {
    assert st.ListedAt(Place(s, i));
    IdAt(st.Get(s)[i], k);
  }

  class ReferenceEngine {
    const min: int
    const n: nat
    var bids: PriceMap
    var asks: PriceMap
    var stops: seq<Parked>
    var nextId: nat
    var last: int
    var hasLast: bool
    var halted: bool
    var tape: seq<Event>
    /** Where each live id is; the code finds it by scanning. */
    ghost var live: map<nat, Place>

    function Side(s: Types.Side): PriceMap
      reads this`bids, this`asks
    {
      if s.Buy? then bids else asks
    }

    ghost function Shelves(): map<Shelf, Ladder>
      reads this`bids, this`asks, this`stops
    {
      map[Resting(Buy) := Rungs(bids, min, n), Resting(Sell) := Rungs(asks, min, n),
          Pending(Buy) := StopRungs(stops, Buy, min, n), Pending(Sell) := StopRungs(stops, Sell, min, n)]
    }

    ghost function Abs(): State
      reads this
    {
      State(min, n, Shelves(), live, nextId, if hasLast then Some(last) else None, halted, tape)
    }

    ghost predicate StopsBanded()
      reads this`stops
    {
      forall j :: 0 <= j < |stops| ==> min <= stops[j].price < min + n
    }

    ghost predicate Valid()
      reads this
    {
      n > 0 && Tidy(bids, min, n) && Tidy(asks, min, n) && StopsBanded() && Engine.Valid(Abs())
    }

    /** Valid between public calls: nothing armed is left pending. */
    ghost predicate Idle()
      reads this
    {
      Valid() && Quiet(Abs())
    }

    /** The best price `px` of side `s` is being worked on; its queue may be empty. */
    ghost predicate Working(s: Types.Side, px: int)
      reads this
    {
      && n > 0 && TidyBut(Side(s), min, n, px) && px in Side(s) && Tidy(Side(s.Opposite()), min, n)
      && StopsBanded() && Engine.Valid(Abs())
      && forall p :: p in Side(s) ==> !Better(s, p, px)
    }

    constructor (minPrice: int, maxPrice: int)
      requires minPrice <= maxPrice
      ensures Idle() && Abs() == Fresh(minPrice, maxPrice - minPrice + 1)
    {
      min, n := minPrice, maxPrice - minPrice + 1;
      bids, asks, stops := map[], map[], [];
      nextId, last, hasLast, halted, tape := 1, 0, false, false, [];
      live := map[];
      new;
      FreshIsSafe(minPrice, n);
      assert Rungs(map[], min, n) == seq(n, i => []);
      assert StopRungs([], Buy, min, n) == seq(n, i => []) == StopRungs([], Sell, min, n);
    }

    lemma AbsIs()
      ensures Abs() == State(min, n, Shelves(), live, nextId, if hasLast then Some(last) else None, halted, tape)
      ensures forall s: Types.Side :: Abs().Get(Resting(s)) == Rungs(Side(s), min, n)
      ensures forall s: Types.Side :: Abs().Get(Pending(s)) == StopRungs(stops, s, min, n)
    {
      forall s: Types.Side
        ensures Abs().Get(Resting(s)) == Rungs(Side(s), min, n) && Abs().Get(Pending(s)) == StopRungs(stops, s, min, n)
      {
        assert s == Buy || s == Sell;
      }
    }

    /** Stores the queue of one price. */
    method Store(s: Types.Side, px: int, q: Queue, ghost where: map<nat, Place>)
      requires min <= px < min + n
      modifies this`bids, this`asks, this`live
      ensures Side(s) == old(Side(s))[px := q] && Side(s.Opposite()) == old(Side(s.Opposite()))
      ensures |old(Abs()).Get(Resting(s))| == n
      ensures Abs() == old(Abs()).SetQueue(Resting(s), px - min, q, where)
    {
      AbsIs();
      RungsSet(Side(s), min, n, px, q);
      if s.Buy? { bids := bids[px := q]; } else { asks := asks[px := q]; }
      live := where;
      AbsIs();
    }

    /** Drops an emptied price from the map. */
    method Erase(s: Types.Side, px: int)
      requires Working(s, px) && Side(s)[px] == []
      modifies this`bids, this`asks
      ensures Valid() && Abs() == old(Abs())
      ensures Side(s) == old(Side(s)) - {px} && Side(s.Opposite()) == old(Side(s.Opposite()))
    {
      AbsIs();
      RungsErase(Side(s), min, n, px);
      assert Rungs(Side(s), min, n)[px - min := []] == Rungs(Side(s), min, n);
      if s.Buy? { bids := bids - {px}; } else { asks := asks - {px}; }
      AbsIs();
    }

    // ---- working at the best price --------------------------------------

    lemma WorkFacts(s: Types.Side, px: int)
      requires Working(s, px)
      ensures min <= px < min + n && Engine.Valid(Abs()) && Abs().Indexed() && Abs().Shaped() && Abs().width == n &&
        Abs().min == min
      ensures px in Side(s) && Abs().live == live
      ensures |Abs().Get(Resting(s))| == n && Abs().Get(Resting(s))[px - min] == Side(s)[px]
      ensures forall j :: 0 <= j < n && Abs().Get(Resting(s))[j] != [] ==> !Beats(s, j, px - min)
    {
      hide State.ListedAt, StopsInBand;
      AbsIs();
      forall j | 0 <= j < n && Abs().Get(Resting(s))[j] != [] ensures !Beats(s, j, px - min) {
        assert min + j in Side(s);
      }
    }

    /** Stores the queue being worked on. */
    method Rework(s: Types.Side, px: int, q: Queue, ghost where: map<nat, Place>)
      requires Working(s, px) && |Abs().Get(Resting(s))| == n
      requires Engine.Valid(Abs().SetQueue(Resting(s), px - min, q, where))
      modifies this`bids, this`asks, this`live
      ensures Working(s, px) && Side(s)[px] == q && Side(s).Keys == old(Side(s).Keys)
      ensures |old(Abs()).Get(Resting(s))| == n
      ensures Abs() == old(Abs()).SetQueue(Resting(s), px - min, q, where)
    {
      hide Abs, Engine.Valid;
      Store(s, px, q, where);
    }

    method Tell(e: Event)
      requires Valid()
      modifies this`tape
      ensures Valid() && Abs() == old(Abs()).Emit(e)
    {
      hide Engine.Valid;
      ToldValid(Abs(), Abs().last, [e]);
      tape := tape + [e];
    }

    method TellAtWork(s: Types.Side, px: int, e: Event)
      requires Working(s, px)
      modifies this`tape
      ensures Working(s, px) && Abs() == old(Abs()).Emit(e)
    {
      hide Engine.Valid;
      ToldValid(Abs(), Abs().last, [e]);
      tape := tape + [e];
    }

    method PrintAtWork(s: Types.Side, at: int, px: int, e: Event)
      requires Working(s, at)
      modifies this`tape, this`last, this`hasLast
      ensures Working(s, at) && Abs() == old(Abs()).Print(px, e)
    {
      hide Engine.Valid;
      ToldValid(Abs(), Some(px), [e]);
      last, hasLast := px, true;
      tape := tape + [e];
    }

    method CancelFront(s: Types.Side, px: int)
      requires Working(s, px) && Side(s)[px] != []
      modifies this
      ensures Working(s, px) && px - min >= 0 && old(Abs()).Shaped()
      ensures px - min < |old(Abs()).Get(Resting(s))| && old(Abs()).Get(Resting(s))[px - min] != []
      ensures Abs() == CancelHead(old(Abs()), s, px - min)
      ensures |Side(s)[px]| < |old(Side(s)[px])| && Side(s).Keys == old(Side(s).Keys)
    {
      hide Abs, Working, Engine.Valid, State.Indexed;
      WorkFacts(s, px);
      var q := Side(s)[px];
      LeaveFacts(Abs(), Resting(s), px - min, 0);
      assert Without(q, 0) == q[1..];
      Rework(s, px, q[1..], live - {q[0].id});
      TellAtWork(s, px, Cancelled(q[0].id));
    }

    method FillFront(k: Taker, px: int, f: nat)
      requires Working(k.Against(), px) && Side(k.Against())[px] != [] && 0 < f <= Side(k.Against())[px][0].qty
      modifies this
      ensures Working(k.Against(), px) && px - min >= 0 && old(Abs()).Shaped()
      ensures px - min < |old(Abs()).Get(k.Shelf())| && old(Abs()).Get(k.Shelf())[px - min] != []
      ensures f <= old(Abs()).Get(k.Shelf())[px - min][0].qty
      ensures Abs() == Fill(old(Abs()), k, px - min, f) && Side(k.Against()).Keys == old(Side(k.Against()).Keys)
    {
      hide Abs, Working, Engine.Valid, State.Indexed;
      var s := k.Against();
      WorkFacts(s, px);
      var o := Side(s)[px][0];
      PrintAtWork(s, px, px, Traded(k.id, o.id, px, f, k.side));
      ConsumeFront(s, px, f);
    }

    method ConsumeFront(s: Types.Side, px: int, f: nat)
      requires Working(s, px) && Side(s)[px] != [] && 0 < f <= Side(s)[px][0].qty
      modifies this
      ensures Working(s, px) && px - min >= 0 && old(Abs()).Shaped()
      ensures px - min < |old(Abs()).Get(Resting(s))| && old(Abs()).Get(Resting(s))[px - min] != []
      ensures f <= old(Abs()).Get(Resting(s))[px - min][0].qty
      ensures Abs() == Consume(old(Abs()), s, px - min, f) && Side(s).Keys == old(Side(s).Keys)
    {
      hide Abs, Working, Engine.Valid, State.Indexed;
      WorkFacts(s, px);
      var q := Side(s)[px];
      var o := q[0];
      if f < o.qty {
        AmendFacts(Abs(), s, px - min, 0, o.(qty := o.qty - f));
        Rework(s, px, q[0 := o.(qty := o.qty - f)], live);
      } else if o.reserve > 0 {
        TellAtWork(s, px, Rested(o.id, s, px, Clip(o)));
        WorkFacts(s, px);
        RequeueFacts(Abs(), s, px - min, Reload(o));
        Rework(s, px, q[1..] + [Reload(o)], live);
      } else {
        LeaveFacts(Abs(), Resting(s), px - min, 0);
        assert Without(q, 0) == q[1..];
        Rework(s, px, q[1..], live - {o.id});
      }
    }

    // ---- matching -------------------------------------------------------

    /** The inner loop: one price level, first in, first out. */
    method SweepPrice(k: Taker, px: int, qty: nat) returns (left: nat, halt: bool)
      requires Working(k.Against(), px) && k.Reaches(px - min)
      modifies this
      ensures Working(k.Against(), px)
      ensures halt ==> left > 0 && Match(old(Abs()), k, qty) == Sweep(Abs(), left, true)
      ensures !halt ==> Match(old(Abs()), k, qty) == Match(Abs(), k, left)
      ensures !halt ==> left == 0 || Side(k.Against())[px] == []
      ensures left <= qty && Side(k.Against()).Keys == old(Side(k.Against()).Keys)
    {
      hide Working, Abs, Match, Fill, CancelHead;
      var s := k.Against();
      left, halt := qty, false;
      WorkFacts(s, px);
      while Side(s)[px] != [] && left > 0
        invariant Working(s, px) && !halt && px in Side(s) && left <= qty && Side(s).Keys == old(Side(s).Keys)
        invariant Match(old(Abs()), k, qty) == Match(Abs(), k, left)
        decreases left, |Side(s)[px]|
      {
        WorkFacts(s, px);
        MatchAtBest(Abs(), k, left, px - min);
        var o := Side(s)[px][0];
        if k.owner != 0 && o.owner == k.owner {
          if k.stp != CancelTaker { CancelFront(s, px); WorkFacts(s, px); }
          if k.stp == CancelMaker { continue; }
          halt := true;
          return;
        }
        var f := if left < o.qty then left else o.qty;
        FillFront(k, px, f);
        left := left - f;
        WorkFacts(s, px);
      }
    }

    lemma StartWork(s: Types.Side, px: int)
      requires Valid() && px in Side(s) && forall p :: p in Side(s) ==> !Better(s, p, px)
      ensures Working(s, px) && Abs().BestTick(s) == px - min && Side(s)[px] != []
    {
      hide Engine.Valid;
      AbsIs();
      BestKeyIsBest(s, Side(s), min, n, px);
    }

    lemma EmptySide(s: Types.Side)
      requires Valid() && Side(s) == map[]
      ensures Abs().BestTick(s) == -1
    {
      hide Engine.Valid;
      AbsIs();
      NoKeysNoBest(s, Side(s), min, n);
    }

    method FinishWork(s: Types.Side, px: int)
      requires Working(s, px)
      modifies this`bids, this`asks
      ensures Valid() && Abs() == old(Abs())
      ensures Side(s) == if old(Side(s))[px] == [] then old(Side(s)) - {px} else old(Side(s))
    {
      if Side(s)[px] == [] { Erase(s, px); }
    }

    lemma ValidFacts()
      requires Valid()
      ensures n > 0 && Engine.Valid(Abs()) && Abs().Indexed() && Abs().Shaped() && Abs().width == n && Abs().min == min
      ensures Abs().halted == halted && Abs().nextId == nextId && Abs().tape == tape && Abs().live == live
      ensures Abs().last == if hasLast then Some(last) else None
      ensures forall s: Types.Side, p :: p in Side(s) ==> min <= p < min + n
      ensures forall p :: p in bids ==> min <= p < min + n
      ensures forall p :: p in asks ==> min <= p < min + n
    {
      forall s: Types.Side, p | p in Side(s) ensures min <= p < min + n { assert s == Buy || s == Sell; }
    }

    method MatchAll(k: Taker, qty: nat) returns (left: nat, halt: bool)
      requires Valid()
      modifies this
      ensures Valid() && Match(old(Abs()), k, qty) == Sweep(Abs(), left, halt)
    {
      hide Valid, Working, Abs, Match, Engine.Valid, State.Indexed;
      var s := k.Against();
      left, halt := qty, false;
      while left > 0 && Side(s) != map[]
        invariant Valid() && !halt
        invariant Match(old(Abs()), k, qty) == Match(Abs(), k, left)
        decreases left, Side(s).Keys
      {
        ValidFacts();
        var px := FirstKey(s, Side(s), min, n);
        StartWork(s, px);
        if !k.Reaches(px - min) { break; }
        left, halt := SweepPrice(k, px, left);
        FinishWork(s, px);
        if halt { return; }
      }
      if Side(s) == map[] { EmptySide(s); }
      MatchDone(Abs(), k, left);
    }

    // ---- moves anywhere -------------------------------------------------

    /** Stores a queue at any price, or drops the price when the queue is empty. */
    method Replace(s: Types.Side, px: int, q: Queue, ghost where: map<nat, Place>)
      requires Valid() && min <= px < min + n && |Abs().Get(Resting(s))| == n
      requires Engine.Valid(Abs().SetQueue(Resting(s), px - min, q, where))
      modifies this`bids, this`asks, this`live
      ensures Valid() && |old(Abs()).Get(Resting(s))| == n
      ensures Abs() == old(Abs()).SetQueue(Resting(s), px - min, q, where)
    {
      hide Abs, Engine.Valid, Rungs;
      Store(s, px, q, where);
      if q == [] { EraseEmpty(s, px); }
    }

    method EraseEmpty(s: Types.Side, px: int)
      requires n > 0 && TidyBut(Side(s), min, n, px) && px in Side(s) && Tidy(Side(s.Opposite()), min, n)
      requires StopsBanded() && Engine.Valid(Abs()) && Side(s)[px] == []
      modifies this`bids, this`asks
      ensures Valid() && Abs() == old(Abs())
    {
      hide Engine.Valid;
      AbsIs();
      RungsErase(Side(s), min, n, px);
      assert Rungs(Side(s), min, n)[px - min := []] == Rungs(Side(s), min, n);
      if s.Buy? { bids := bids - {px}; } else { asks := asks - {px}; }
      AbsIs();
    }

    lemma QueueAt(s: Types.Side, px: int)
      requires Valid() && min <= px < min + n
      ensures |Abs().Get(Resting(s))| == n && Abs().Get(Resting(s))[px - min] ==
        if px in Side(s) then Side(s)[px] else []
      ensures Abs().live == live && Abs().width == n && Abs().Indexed() && Engine.Valid(Abs())
    {
      AbsIs();
    }

    method PushBack(s: Types.Side, px: int, o: Order)
      requires Valid() && min <= px < min + n && 0 < o.id < nextId && o.id !in live
      modifies this`bids, this`asks, this`live
      ensures Valid() && |old(Abs()).Get(Resting(s))| == n && Abs() == Join(old(Abs()), Resting(s), px - min, o)
    {
      hide Abs, Engine.Valid, Valid, State.Indexed;
      ValidFacts();
      QueueAt(s, px);
      var q := if px in Side(s) then Side(s)[px] else [];
      JoinIndexed(Abs(), Resting(s), px - min, o);
      LinkStops(Abs(), Resting(s), px - min, o);
      Replace(s, px, q + [o], live[o.id := Place(Resting(s), px - min)]);
    }

    method EraseAt(s: Types.Side, px: int, k: nat)
      requires Valid() && px in Side(s) && k < |Side(s)[px]|
      modifies this`bids, this`asks, this`live
      ensures Valid() && px >= min && px - min < |old(Abs()).Get(Resting(s))| &&
        k < |old(Abs()).Get(Resting(s))[px - min]|
      ensures Abs() == Leave(old(Abs()), Resting(s), px - min, k)
    {
      hide Abs, Engine.Valid, Valid, State.Indexed;
      ValidFacts();
      QueueAt(s, px);
      var q := Side(s)[px];
      LeaveFacts(Abs(), Resting(s), px - min, k);
      Replace(s, px, Without(q, k), live - {q[k].id});
    }

    method UpdateAt(s: Types.Side, px: int, k: nat, o: Order)
      requires Valid() && px in Side(s) && k < |Side(s)[px]| && o.id == Side(s)[px][k].id
      modifies this`bids, this`asks, this`live
      ensures Valid() && px >= min && px - min < |old(Abs()).Get(Resting(s))| &&
        k < |old(Abs()).Get(Resting(s))[px - min]|
      ensures Abs() == Amend(old(Abs()), Resting(s), px - min, k, o)
    {
      hide Abs, Engine.Valid, Valid, State.Indexed;
      ValidFacts();
      QueueAt(s, px);
      AmendFacts(Abs(), s, px - min, k, o);
      Replace(s, px, Side(s)[px][k := o], live);
    }

    /** Stores the parked list; one trigger queue changes. */
    method SetStops(ps: seq<Parked>, ghost s: Types.Side, ghost px: int, ghost q: Queue, ghost where: map<nat, Place>)
      requires Valid() && min <= px < min + n && |Abs().Get(Pending(s))| == n
      requires forall j :: 0 <= j < |ps| ==> min <= ps[j].price < min + n
      requires forall r: Types.Side, p :: ParkedAt(ps, r, p) == if r == s && p == px then q else ParkedAt(stops, r, p)
      requires Engine.Valid(Abs().SetQueue(Pending(s), px - min, q, where))
      modifies this`stops, this`live
      ensures Valid() && |old(Abs()).Get(Pending(s))| == n
      ensures Abs() == old(Abs()).SetQueue(Pending(s), px - min, q, where)
    {
      hide Abs, Engine.Valid, Rungs;
      ghost var st := Abs();
      AbsIs();
      ghost var before := StopRungs(stops, s, min, n);
      ghost var other := StopRungs(stops, s.Opposite(), min, n);
      stops := ps;
      live := where;
      AbsIs();
      assert StopRungs(stops, s, min, n) == before[px - min := q];
      assert StopRungs(stops, s.Opposite(), min, n) == other;
      assert Abs() == st.SetQueue(Pending(s), px - min, q, where);
    }

    lemma StopsAt(s: Types.Side, px: int)
      requires Valid() && min <= px < min + n
      ensures |Abs().Get(Pending(s))| == n && Abs().Get(Pending(s))[px - min] == ParkedAt(stops, s, px)
      ensures Abs().live == live && Abs().width == n && Abs().min == min && Abs().Indexed() && Engine.Valid(Abs()) &&
        StopsBanded()
    {
      AbsIs();
    }

    method Park(s: Types.Side, px: int, o: Order)
      requires Valid() && min <= px < min + n && 0 < o.id < nextId && o.id !in live &&
        (o.market || min <= o.limit < min + n)
      modifies this`stops, this`live
      ensures Valid() && |old(Abs()).Get(Pending(s))| == n && Abs() == Join(old(Abs()), Pending(s), px - min, o)
    {
      hide Abs, Engine.Valid, Valid, State.Indexed, ParkedAt;
      ValidFacts();
      StopsAt(s, px);
      JoinIndexed(Abs(), Pending(s), px - min, o);
      LinkStops(Abs(), Pending(s), px - min, o);
      var ps := stops + [Parked(s, px, o)];
      forall r: Types.Side, p
        ensures ParkedAt(ps, r, p) == if r == s && p == px then ParkedAt(stops, s, px) + [o] else ParkedAt(stops, r, p)
      {
        ParkedAppend(stops, [Parked(s, px, o)], r, p);
        ParkedOne(Parked(s, px, o), r, p);
      }
      SetStops(ps, s, px, ParkedAt(stops, s, px) + [o], live[o.id := Place(Pending(s), px - min)]);
    }

    /** Removes entry `j` of the parked list. */
    method Unpark(j: nat)
      requires Valid() && j < |stops|
      modifies this`stops, this`live
      ensures Valid()
      ensures var p := old(stops)[j]; var k := |ParkedAt(old(stops)[..j], p.side, p.price)|;
        && 0 <= p.price - min < |old(Abs()).Get(Pending(p.side))| &&
          k < |old(Abs()).Get(Pending(p.side))[p.price - min]|
        && old(Abs()).Get(Pending(p.side))[p.price - min][k] == p.o
        && Abs() == Leave(old(Abs()), Pending(p.side), p.price - min, k)
    {
      hide Abs, Engine.Valid, Valid, State.Indexed, ParkedAt;
      var p := stops[j];
      ValidFacts();
      BandOf(j);
      StopsAt(p.side, p.price);
      ghost var q := ParkedAt(stops, p.side, p.price);
      ghost var k := |ParkedAt(stops[..j], p.side, p.price)|;
      ParkedSplit(stops, j, p.side, p.price);
      LeaveFacts(Abs(), Pending(p.side), p.price - min, k);
      var ps := stops[..j] + stops[j + 1..];
      forall r: Types.Side, px
        ensures ParkedAt(ps, r, px) == if r == p.side && px == p.price then Without(q, k) else ParkedAt(stops, r, px)
      {
        ParkedErase(stops, j, r, px);
      }
      SetStops(ps, p.side, p.price, Without(q, k), live - {q[k].id});
    }

    lemma BandOf(j: nat)
      requires Valid() && j < |stops|
      ensures min <= stops[j].price < min + n
    {}

    // ---- placing --------------------------------------------------------

    method RestShaped(id: nat, s: Types.Side, px: int, qty: nat, t: Terms)
      requires Valid() && min <= px < min + n && qty > 0 && 0 < id < nextId && id !in live
      modifies this
      ensures Valid() && |old(Abs()).Get(Resting(s))| == n && Abs() == Rest(old(Abs()), id, s, px - min, qty, t)
    {
      hide Abs, Engine.Valid, Valid;
      ValidFacts();
      var o := Shape(id, qty, t);
      PushBack(s, px, o);
      Tell(Rested(id, s, px, o.qty));
    }

    method PlaceOrder(id: nat, s: Types.Side, px: int, qty: nat, tif: TimeInForce, t: Terms)
      requires Valid() && min <= px < min + n && qty > 0 && 0 < id < nextId && id !in live
      modifies this
      ensures Valid() && old(Abs()).Shaped() && old(Abs()).width == n
      ensures Abs() == PlaceLimit(old(Abs()), id, s, px - min, qty, tif, t)
    {
      hide Abs, Engine.Valid, Valid, Match, Rest;
      ValidFacts();
      if halted { RestShaped(id, s, px, qty, t); return; }
      var k := AsTaker(id, s, px - min, t);
      MatchSteady(Abs(), k, qty);
      var remaining, halt := MatchAll(k, qty);
      ValidFacts();
      if halt {
        if remaining > 0 { Tell(Cancelled(id)); }
        return;
      }
      if remaining > 0 {
        if tif == IOC || tif == FOK { Tell(Cancelled(id)); } else { RestShaped(id, s, px, remaining, t); }
      }
    }

    method Fire(s: Types.Side, o: Order)
      requires Valid() && (o.market || min <= o.limit < min + n) && 0 < o.id < nextId && o.id !in live
      modifies this
      ensures Valid() && old(Abs()).Shaped() && old(Abs()).width == n && old(Abs()).min == min
      ensures Abs() == ExecuteStop(old(Abs()), s, o)
    {
      hide Abs, Engine.Valid, Valid, Match, PlaceLimit;
      ValidFacts();
      var t := Terms(o.owner, o.stp, 0);
      if o.market {
        var left, halt := MatchAll(AsTaker(o.id, s, if s.Buy? then n - 1 else 0, t), o.qty);
      } else {
        PlaceOrder(o.id, s, o.limit, o.qty, GTC, t);
      }
    }

    // ---- the stop pump --------------------------------------------------

    /** Linear scan for the armed stop of one side with the extreme trigger, earliest on ties. */
    method PickSide(s: Types.Side) returns (pick: nat)
      requires Valid() && hasLast
      ensures pick <= |stops|
      ensures pick < |stops| ==>
        && stops[pick].side == s && Armed(Abs(), s, stops[pick].price) &&
          ParkedAt(stops[..pick], s, stops[pick].price) == []
        && Best(s.Opposite(), Abs().Get(Pending(s))) == stops[pick].price - min
      ensures pick == |stops| ==>
        var b := Best(s.Opposite(), Abs().Get(Pending(s))); b < 0 || !Armed(Abs(), s, min + b)
    {
      hide Engine.Valid, ParkedAt;
      pick := |stops|;
      for i := 0 to |stops|
        invariant pick <= |stops| &&
          (pick < |stops| ==> pick < i && stops[pick].side == s && Armed(Abs(), s, stops[pick].price))
        invariant forall j :: 0 <= j < i && stops[j].side == s && Armed(Abs(), s, stops[j].price) ==>
          pick < |stops| && !Better(s.Opposite(), stops[j].price, stops[pick].price) &&
          (stops[j].price == stops[pick].price ==> pick <= j)
      {
        if stops[i].side == s && (if s.Buy? then last >= stops[i].price else last <= stops[i].price) {
          if pick == |stops| || Better(s.Opposite(), stops[i].price, stops[pick].price) { pick := i; }
        }
      }
      PickIsBest(s, pick);
    }

    lemma PickIsBest(s: Types.Side, pick: nat)
      requires Valid() && hasLast && pick <= |stops|
      requires pick < |stops| ==> stops[pick].side == s && Armed(Abs(), s, stops[pick].price)
      requires forall j :: 0 <= j < |stops| && stops[j].side == s && Armed(Abs(), s, stops[j].price) ==>
        pick < |stops| && !Better(s.Opposite(), stops[j].price, stops[pick].price) &&
        (stops[j].price == stops[pick].price ==> pick <= j)
      ensures pick < |stops| ==>
        && ParkedAt(stops[..pick], s, stops[pick].price) == []
        && Best(s.Opposite(), Abs().Get(Pending(s))) == stops[pick].price - min
      ensures pick == |stops| ==>
        var b := Best(s.Opposite(), Abs().Get(Pending(s))); b < 0 || !Armed(Abs(), s, min + b)
    {
      hide Engine.Valid, ParkedAt;
      AbsIs();
      var l := Abs().Get(Pending(s));
      if pick < |stops| {
        var p := stops[pick];
        NoneParked(stops[..pick], s, p.price);
        ParkedMember(stops, pick);
        forall i | 0 <= i < |l| && l[i] != [] ensures !Beats(s.Opposite(), i, p.price - min) {
          var j := ParkedWitness(stops, s, min + i);
        }
        BestIsUnique(s.Opposite(), l, p.price - min);
      } else {
        var b := Best(s.Opposite(), l);
        if b >= 0 { var j := ParkedWitness(stops, s, min + b); }
      }
    }

    /** Entry `pick` is the next stop to fire and the first of its trigger; past the end, none is armed. */
    ghost predicate Picked(pick: nat)
      reads this
    {
      && pick <= |stops| && (pick == |stops| <==> NextStop(Abs()) == None)
      && (pick < |stops| ==>
            && min <= stops[pick].price
            && NextStop(Abs()) == Some(Place(Pending(stops[pick].side), stops[pick].price - min))
            && ParkedAt(stops[..pick], stops[pick].side, stops[pick].price) == [])
    }

    method NextArmed() returns (pick: nat)
      requires Valid()
      ensures Picked(pick)
    {
      hide Engine.Valid, ParkedAt, Best;
      if !hasLast { return |stops|; }
      pick := PickSide(Buy);
      if pick == |stops| { pick := PickSide(Sell); }
    }

    method PumpAll()
      requires Valid()
      modifies this
      ensures Engine.Valid(old(Abs())) && Idle() && Abs() == Pump(old(Abs()))
    {
      hide Abs, Engine.Valid, Valid, State.Indexed, NextStop, FireStop, ParkedAt;
      ValidFacts();
      if halted { return; }
      var pick: nat := NextArmed();
      while pick < |stops|
        invariant Valid() && Engine.Valid(Abs()) && !Abs().halted && Picked(pick)
        invariant Pump(old(Abs())) == Pump(Abs())
        decreases PendingStops(Abs())
      {
        ValidFacts();
        FireStopFrame(Abs(), NextStop(Abs()).value);
        FirePicked(pick);
        ValidFacts();
        pick := NextArmed();
      }
    }

    method FirePicked(pick: nat)
      requires Valid() && pick < |stops| && ParkedAt(stops[..pick], stops[pick].side, stops[pick].price) == []
      modifies this
      ensures Valid() && old(stops)[pick].price >= min && old(Abs()).Shaped()
      ensures var p := Place(Pending(old(stops)[pick].side), old(stops)[pick].price - min);
        && p.tick < old(Abs()).width && old(Abs()).Get(p.shelf)[p.tick] != []
        && (var o := old(Abs()).Get(p.shelf)[p.tick][0]; o.market || old(Abs()).InBand(o.limit))
        && Abs() == FireStop(old(Abs()), p)
    {
      hide Abs, Valid, ParkedAt, ExecuteStop, State.ListedAt, StopsInBand;
      var x := stops[pick];
      ghost var st := Abs();
      ValidFacts();
      BandOf(pick);
      ghost var p := Place(Pending(x.side), x.price - min);
      Unpark(pick);
      LeaveIndexed(st, p.shelf, p.tick, 0);
      FireStopFrame(st, p);
      ValidFacts();
      Fire(x.side, x.o);
    }

    // ---- looking orders up by scanning ----------------------------------

    /** First resting order carrying `id`, searched bids first, lowest price first. */
    method FindResting(id: nat) returns (found: bool, s: Types.Side, px: int, k: nat)
      requires Valid()
      ensures found ==> px in Side(s) && min <= px < min + n && k < |Side(s)[px]| && Side(s)[px][k].id == id
      ensures !found ==> forall r: Types.Side, p :: p in Side(r) ==> id !in Ids(Side(r)[p])
    {
      hide Engine.Valid, Abs;
      found, px, k := FindOnSide(Buy, id);
      s := Buy;
      if found { return; }
      found, px, k := FindOnSide(Sell, id);
      s := Sell;
      if !found {
        forall r: Types.Side, p | p in Side(r) ensures id !in Ids(Side(r)[p]) { assert r == Buy || r == Sell; }
      }
    }

    method FindOnSide(s: Types.Side, id: nat) returns (found: bool, px: int, k: nat)
      requires Valid()
      ensures found ==> px in Side(s) && min <= px < min + n && k < |Side(s)[px]| && Side(s)[px][k].id == id
      ensures !found ==> forall p :: p in Side(s) ==> id !in Ids(Side(s)[p])
    {
      hide Engine.Valid, Abs;
      k := 0;
      px := min;
      while px < min + n
        invariant min <= px <= min + n && forall p :: p in Side(s) && p < px ==> id !in Ids(Side(s)[p])
      {
        if px in Side(s) {
          found, k := FindIn(Side(s)[px], id);
          if found { return; }
        }
        px := px + 1;
      }
      found := false;
    }

    static method FindIn(q: Queue, id: nat) returns (found: bool, k: nat)
      ensures found ==> k < |q| && q[k].id == id
      ensures !found ==> id !in Ids(q)
    {
      k := 0;
      while k < |q|
        invariant k <= |q| && (id in Ids(q) <==> id in Ids(q[k..]))
      {
        if q[k].id == id { return true, k; }
        assert q[k..][1..] == q[k + 1..];
        k := k + 1;
      }
      found := false;
    }

    method FindStop(id: nat) returns (j: nat)
      requires Valid()
      ensures j <= |stops| && (j < |stops| ==> stops[j].o.id == id)
      ensures j == |stops| ==> forall i :: 0 <= i < |stops| ==> stops[i].o.id != id
    {
      j := 0;
      while j < |stops|
        invariant j <= |stops| && forall i :: 0 <= i < j ==> stops[i].o.id != id
      {
        if stops[j].o.id == id { return; }
        j := j + 1;
      }
    }

    /** A resting order found at a seat is the one filed under its id. */
    lemma FoundResting(s: Types.Side, px: int, k: nat)
      requires Valid() && px in Side(s) && k < |Side(s)[px]|
      ensures var id := Side(s)[px][k].id; var st := Abs();
        && st.Indexed() && min <= px < min + n && id in st.live && st.live[id] == Place(Resting(s), px - min)
        && Seat(st, id) == k && OrderOf(st, id) == Side(s)[px][k]
    {
      hide State.ListedAt, StopsInBand;
      ValidFacts();
      QueueAt(s, px);
      SeatIs(Abs(), Resting(s), px - min, k);
    }

    lemma FoundStop(j: nat)
      requires Valid() && j < |stops|
      ensures var p := stops[j]; var id := p.o.id; var st := Abs();
        && st.Indexed() && min <= p.price < min + n && id in st.live &&
          st.live[id] == Place(Pending(p.side), p.price - min)
        && Seat(st, id) == |ParkedAt(stops[..j], p.side, p.price)|
    {
      hide State.ListedAt, StopsInBand;
      var p := stops[j];
      BandOf(j);
      StopsAt(p.side, p.price);
      ParkedSplit(stops, j, p.side, p.price);
      SeatIs(Abs(), Pending(p.side), p.price - min, |ParkedAt(stops[..j], p.side, p.price)|);
    }

    /** An id not found in the book is dead or a pending stop. */
    lemma NotResting(id: nat)
      requires Valid() && forall r: Types.Side, p :: p in Side(r) ==> id !in Ids(Side(r)[p])
      ensures id in Abs().live ==> Abs().live[id].shelf.stop
    {
      hide StopsInBand, Valid, Abs, ParkedAt;
      ValidFacts();
      if id in Abs().live {
        var p := Abs().live[id];
        assert Abs().ListedAt(p);
        ShelfCases(p.shelf);
        if !p.shelf.stop { QueueAt(p.shelf.side, min + p.tick); }
      }
    }

    lemma NotStop(id: nat)
      requires Valid() && forall i :: 0 <= i < |stops| ==> stops[i].o.id != id
      ensures id in Abs().live ==> !Abs().live[id].shelf.stop
    {
      hide StopsInBand, Valid, Abs, ParkedAt;
      ValidFacts();
      if id in Abs().live {
        var p := Abs().live[id];
        assert Abs().ListedAt(p);
        ShelfCases(p.shelf);
        if p.shelf.stop {
          StopsAt(p.shelf.side, min + p.tick);
          var j := ParkedId(stops, p.shelf.side, min + p.tick, id);
        }
      }
    }

    // ---- public operations ----------------------------------------------

    lemma StaysQuiet(st: State, t: State)
      requires Engine.Valid(t) && Quiet(st) && t.min == st.min && t.last == st.last && t.halted == st.halted
      requires t.Get(Pending(Buy)) == st.Get(Pending(Buy)) && t.Get(Pending(Sell)) == st.Get(Pending(Sell))
      ensures Quiet(t) && Pump(t) == t
    {
      hide Engine.Valid;
      SameStopsQuiet(st, t);
      QuietPump(t);
    }

    method Announce(s: Types.Side, px: int, qty: nat) returns (id: nat)
      requires Valid()
      modifies this`nextId, this`tape
      ensures Valid() && Abs() == Accept(old(Abs()), s, px, qty) && id == old(nextId) && 0 < id < nextId && id !in live
    {
      hide Engine.Valid;
      id := nextId;
      AcceptSteady(Abs(), s, px, qty);
      nextId := nextId + 1;
      tape := tape + [Accepted(id, s, px, qty)];
    }

    method FillableNaive(s: Types.Side, px: int, want: nat) returns (sum: nat)
      requires Valid() && min <= px < min + n
      ensures Abs().Shaped() && Abs().InBand(px) && (sum < want <==> Fillable(Abs(), s, px) < want)
    {
      hide Engine.Valid, Abs, Valid;
      ValidFacts();
      sum := 0;
      if s.Buy? {
        ghost var l := Abs().Get(Resting(Sell));
        var p := min;
        while p <= px && sum < want
          invariant min <= p <= px + 1 && |l| == n && sum == Span(Size, l, 0, p - min)
        {
          QueueAt(Sell, p);
          SpanSplit(Size, l, 0, p - min, p - min + 1);
          if p in asks { sum := sum + Sum(Size, asks[p]); }
          p := p + 1;
        }
        SpanSplit(Size, l, 0, p - min, px - min + 1);
      } else {
        ghost var l := Abs().Get(Resting(Buy));
        var p := min + n;
        while p > px && sum < want
          invariant px <= p <= min + n && |l| == n && sum == Span(Size, l, p - min, n)
        {
          p := p - 1;
          QueueAt(Buy, p);
          if p in bids { sum := sum + Sum(Size, bids[p]); }
        }
        SpanSplit(Size, l, px - min, p - min, n);
      }
    }

    method WouldTake(s: Types.Side, px: int) returns (r: bool)
      requires Valid()
      ensures r == WouldCross(Abs(), s, px - min)
    {
      hide Engine.Valid, Abs, Valid;
      ValidFacts();
      var o := s.Opposite();
      if Side(o) == map[] { EmptySide(o); return false; }
      var best := FirstKey(o, Side(o), min, n);
      StartWork(o, best);
      QueueAt(o, best);
      r := if s.Buy? then best <= px else best >= px;
    }

    /** Shared body of limit and iceberg submission after validation. */
    method EnterOrder(s: Types.Side, px: int, qty: nat, tif: TimeInForce, t: Terms) returns (id: nat)
      requires Idle() && min <= px < min + n && qty > 0
      modifies this
      ensures old(Abs()).Shaped() && old(Abs()).InBand(px)
      ensures var r := Enter(old(Abs()), s, px, qty, tif, t);
        Engine.Valid(r.st) && Idle() && Result(Abs(), Assigned(id)) == Result(Pump(r.st), r.reply)
    {
      hide Engine.Valid, Abs, Valid, PlaceLimit, Quiet, Pump, Fillable;
      ghost var st := Abs();
      ValidFacts();
      EnterValid(st, s, px, qty, tif, t);
      StaysQuiet(st, st);
      id := Announce(s, px, qty);
      ValidFacts();
      if halted {
        PlaceSteady(Abs(), id, s, px - min, qty, tif, t);
        if tif != GTC { Tell(Cancelled(id)); } else { PlaceOrder(id, s, px, qty, tif, t); }
        HaltedQuiet();
        return;
      }
      if tif == FOK {
        var sum := FillableNaive(s, px, qty);
        if sum < qty { Tell(Cancelled(id)); StaysQuiet(st, Abs()); return; }
      }
      if tif == PostOnly {
        var crosses := WouldTake(s, px);
        if crosses { Tell(Cancelled(id)); StaysQuiet(st, Abs()); return; }
      }
      PlaceOrder(id, s, px, qty, tif, t);
      PumpAll();
    }

    lemma HaltedQuiet()
      requires Valid() && Abs().halted
      ensures Engine.Valid(Abs()) && Quiet(Abs()) && Pump(Abs()) == Abs()
    {
      QuietPump(Abs());
    }

    /** A refused call leaves a quiet state quiet. */
    method Refuse()
      requires Idle()
      modifies this`tape
      ensures Idle() && Abs() == Reject(old(Abs())).st && Engine.Valid(Abs()) && Pump(Abs()) == Abs()
    {
      hide Engine.Valid, Abs, Valid;
      ghost var st := Abs();
      ValidFacts();
      Tell(Rejected(0));
      ValidFacts();
      StaysQuiet(st, Abs());
    }

    method SubmitLimitOrder(s: Types.Side, px: int, qty: nat, tif: TimeInForce, owner: nat, stp: StpPolicy)
      returns (id: nat)
      requires Idle()
      modifies this
      ensures Engine.Valid(old(Abs())) && Idle()
      ensures Result(Abs(), Assigned(id)) == Step(old(Abs()), SubmitLimit(s, px, qty, tif, owner, stp))
    {
      hide Engine.Valid, Abs, Valid, Enter, Pump, Quiet;
      ValidFacts();
      if !(min <= px < min + n) || qty == 0 { Refuse(); return 0; }
      id := EnterOrder(s, px, qty, tif, Terms(owner, stp, 0));
    }

    method SubmitIcebergOrder(s: Types.Side, px: int, qty: nat, display: nat, tif: TimeInForce, owner: nat,
                              stp: StpPolicy)
      returns (id: nat)
      requires Idle()
      modifies this
      ensures Engine.Valid(old(Abs())) && Idle()
      ensures Result(Abs(), Assigned(id)) == Step(old(Abs()), SubmitIceberg(s, px, qty, display, tif, owner, stp))
    {
      hide Engine.Valid, Abs, Valid, Enter, Pump, Quiet;
      ValidFacts();
      if !(min <= px < min + n) || qty == 0 || display == 0 { Refuse(); return 0; }
      id := EnterOrder(s, px, qty, tif, Terms(owner, stp, display));
    }

    method SubmitMarketOrder(s: Types.Side, qty: nat, owner: nat, stp: StpPolicy) returns (left: nat)
      requires Idle()
      modifies this
      ensures Engine.Valid(old(Abs())) && Idle()
      ensures Result(Abs(), Unfilled(left)) == Step(old(Abs()), SubmitMarket(s, qty, owner, stp))
    {
      hide Engine.Valid, Abs, Valid, Match, Pump, Quiet;
      ValidFacts();
      if halted { Refuse(); return qty; }
      var id := Announce(s, 0, qty);
      ValidFacts();
      var halt;
      left, halt := MatchAll(AsTaker(id, s, if s.Buy? then n - 1 else 0, Terms(owner, stp, 0)), qty);
      PumpAll();
    }

    method SubmitStopOrder(s: Types.Side, trigger: int, limit: int, qty: nat, market: bool, owner: nat, stp: StpPolicy)
      returns (id: nat)
      requires Idle()
      modifies this
      ensures Engine.Valid(old(Abs())) && old(Abs()).Shaped() && Idle()
      ensures var r := DoSubmitStop(old(Abs()), s, trigger, limit, qty, market, owner, stp);
        Engine.Valid(r.st) && Result(Abs(), Assigned(id)) == Result(Pump(r.st), r.reply)
    {
      hide Engine.Valid, Abs, Valid, ExecuteStop, Pump, Quiet, Join, ParkedAt;
      ghost var st := Abs();
      ValidFacts();
      StopValid(st, s, trigger, limit, qty, market, owner, stp);
      if !(min <= trigger < min + n) || qty == 0 || (!market && !(min <= limit < min + n)) { Refuse(); return 0; }
      id := Announce(s, trigger, qty);
      ValidFacts();
      var o := Node(id, qty, owner, stp, 0, 0, market, if market then 0 else limit);
      if !halted && hasLast && (if s.Buy? then last >= trigger else last <= trigger) {
        Fire(s, o);
      } else {
        Park(s, trigger, o);
      }
      PumpAll();
    }

    method CancelOrder(id: nat) returns (ok: bool)
      requires Idle()
      modifies this
      ensures Engine.Valid(old(Abs())) && old(Abs()).Indexed() && Idle()
      ensures var r := DoCancel(old(Abs()), id);
        Engine.Valid(r.st) && Result(Abs(), Answer(ok)) == Result(Pump(r.st), r.reply)
    {
      hide Engine.Valid, Abs, Valid, Pump, Quiet, ParkedAt, State.Indexed;
      ghost var st := Abs();
      ValidFacts();
      CancelValid(st, id);
      var found, s, px, k := FindResting(id);
      if found {
        FoundResting(s, px, k);
        EraseAt(s, px, k);
        Tell(Cancelled(id));
        PumpAll();
        return true;
      }
      NotResting(id);
      var j := FindStop(id);
      if j < |stops| {
        FoundStop(j);
        Unpark(j);
        Tell(Cancelled(id));
        PumpAll();
        return true;
      }
      NotStop(id);
      StaysQuiet(st, st);
      ok := false;
    }

    method ReduceOrder(id: nat, delta: nat) returns (ok: bool)
      requires Idle()
      modifies this
      ensures Engine.Valid(old(Abs())) && old(Abs()).Indexed() && Idle()
      ensures var r := DoReduce(old(Abs()), id, delta);
        Engine.Valid(r.st) && Result(Abs(), Answer(ok)) == Result(Pump(r.st), r.reply)
    {
      hide Engine.Valid, Abs, Valid, Pump, Quiet, State.Indexed;
      ghost var st := Abs();
      ValidFacts();
      ReduceValid(st, id, delta);
      var found, s, px, k := FindResting(id);
      if !found {
        NotResting(id);
        StaysQuiet(st, st);
        return false;
      }
      FoundResting(s, px, k);
      var o := Side(s)[px][k];
      if delta >= o.qty + o.reserve { EraseAt(s, px, k); } else { UpdateAt(s, px, k, Shave(o, delta)); }
      PumpAll();
      ok := true;
    }

    method ReplaceOrder(id: nat, s: Types.Side, at: int, k: nat, px: int, qty: nat)
      requires Valid() && at in Side(s) && k < |Side(s)[at]| && Side(s)[at][k].id == id && min <= px < min + n &&
        qty > 0
      modifies this
      ensures Valid() && old(Abs()).Indexed() && id in old(Abs()).live && old(Abs()).InBand(px)
      ensures Abs() == CancelReplace(old(Abs()), id, px, qty)
    {
      hide Engine.Valid, Abs, Valid, PlaceLimit, State.ListedAt;
      ghost var st := Abs();
      ValidFacts();
      FoundResting(s, at, k);
      var o := Side(s)[at][k];
      RemoveValid(st, id);
      EraseAt(s, at, k);
      Tell(Cancelled(id));
      Tell(Accepted(id, s, px, qty));
      ValidFacts();
      PlaceOrder(id, s, px, qty, GTC, Terms(o.owner, o.stp, o.peak));
    }

    method ModifyOrder(id: nat, px: int, qty: nat) returns (ok: bool)
      requires Idle()
      modifies this
      ensures Engine.Valid(old(Abs())) && old(Abs()).Indexed() && Idle()
      ensures var r := DoModify(old(Abs()), id, px, qty);
        Engine.Valid(r.st) && Result(Abs(), Answer(ok)) == Result(Pump(r.st), r.reply)
    {
      hide Engine.Valid, Abs, Valid, Pump, Quiet, State.Indexed, DoCancel, DoReduce, CancelReplace;
      ghost var st := Abs();
      ValidFacts();
      ModifyValid(st, id, px, qty);
      StaysQuiet(st, st);
      var j := FindStop(id);
      if j < |stops| { FoundStop(j); }
      if j < |stops| && qty != 0 { return false; }
      if j == |stops| { NotStop(id); }
      if qty == 0 {
        CancelDead(id);
        ok := CancelOrder(id);
        return;
      }
      if !(min <= px < min + n) { return false; }
      var found, s, at, k := FindResting(id);
      if !found { NotResting(id); return false; }
      FoundResting(s, at, k);
      var o := Side(s)[at][k];
      if px == at && qty <= o.qty + o.reserve {
        ok := ReduceOrder(id, o.qty + o.reserve - qty);
        return;
      }
      ReplaceOrder(id, s, at, k, px, qty);
      PumpAll();
      ok := true;
    }

    /** Cancelling a dead id refuses and changes nothing. */
    lemma CancelDead(id: nat)
      requires Valid()
      ensures Abs().Indexed() && (id !in Abs().live ==> DoCancel(Abs(), id) == Result(Abs(), Answer(false)))
    {
      hide State.ListedAt, StopsInBand;
    }

    // ---- auction --------------------------------------------------------

    method CrossFront(s: Types.Side, px: int, f: nat, price: int)
      requires Working(s, px) && Side(s)[px] != [] && 0 < f <= Size(Side(s)[px][0])
      modifies this
      ensures Working(s, px) && px - min >= 0 && old(Abs()).Shaped()
      ensures px - min < |old(Abs()).Get(Resting(s))| && old(Abs()).Get(Resting(s))[px - min] != []
      ensures f <= Size(old(Abs()).Get(Resting(s))[px - min][0])
      ensures Abs() == CrossFill(old(Abs()), s, px - min, f, price)
    {
      hide Abs, Working, Engine.Valid, State.Indexed;
      WorkFacts(s, px);
      var q := Side(s)[px];
      var o := q[0];
      if f < o.qty {
        AmendFacts(Abs(), s, px - min, 0, o.(qty := o.qty - f));
        Rework(s, px, q[0 := o.(qty := o.qty - f)], live);
        return;
      }
      var left := o.reserve - (f - o.qty);
      if left > 0 {
        var o' := Reload(o.(reserve := left));
        TellAtWork(s, px, Rested(o.id, s, price, o'.qty));
        WorkFacts(s, px);
        RequeueFacts(Abs(), s, px - min, o');
        Rework(s, px, q[1..] + [o'], live);
      } else {
        LeaveFacts(Abs(), Resting(s), px - min, 0);
        assert Without(q, 0) == q[1..];
        Rework(s, px, q[1..], live - {o.id});
      }
    }

    /** Total size bid at or above price `p`, one full pass over the map. */
    method DemandAt(p: int) returns (sum: nat)
      requires Valid() && min <= p < min + n
      ensures |Bids(Abs())| == n && sum == Demand(Abs(), p - min)
    {
      hide Engine.Valid, Abs, Valid;
      ValidFacts();
      QueueAt(Buy, p);
      sum := 0;
      var px := min + n;
      while px > min
        invariant min <= px <= min + n && |Bids(Abs())| == n
        invariant sum == if px >= p then Span(Size, Bids(Abs()), px - min, n) else Span(Size, Bids(Abs()), p - min, n)
      {
        px := px - 1;
        QueueAt(Buy, px);
        if px in bids && px >= p { sum := sum + Sum(Size, bids[px]); }
      }
    }

    /** Total size offered at or below price `p`, one full pass over the map. */
    method SupplyAt(p: int) returns (sum: nat)
      requires Valid() && min <= p < min + n
      ensures |Asks(Abs())| == n && sum == Supply(Abs(), p - min)
    {
      hide Engine.Valid, Abs, Valid;
      ValidFacts();
      QueueAt(Sell, p);
      sum := 0;
      ghost var l := Asks(Abs());
      var px := min;
      while px < min + n
        invariant min <= px <= min + n
        invariant sum == if px <= p then Span(Size, l, 0, px - min) else Span(Size, l, 0, p - min + 1)
      {
        QueueAt(Sell, px);
        SpanSplit(Size, l, 0, px - min, px - min + 1);
        if px in asks && px <= p { sum := sum + Sum(Size, asks[px]); }
        px := px + 1;
      }
    }

    method PickClearing(lo: int, hi: int) returns (best: Pick)
      requires Valid() && min <= lo <= hi < min + n
      ensures |Asks(Abs())| == |Bids(Abs())| == n && best == Scan(Abs(), lo - min, hi - min + 1)
    {
      hide Engine.Valid, Abs, Valid, Supply, Demand;
      ValidFacts();
      best := Pick(lo - min, 0, 0);
      var p := lo;
      while p <= hi
        invariant lo <= p <= hi + 1 && |Asks(Abs())| == |Bids(Abs())| == n &&
          best == Scan(Abs(), lo - min, p - min) && best.tick < n
      {
        var demand := DemandAt(p);
        var supply := SupplyAt(p);
        var ex := if demand < supply then demand else supply;
        var imb := if demand > supply then demand - supply else supply - demand;
        var better := ex > best.exec;
        if !better && ex == best.exec && ex > 0 {
          if imb != best.imb {
            better := imb < best.imb;
          } else if hasLast {
            better := Types.Abs(p - last) < Types.Abs(min + best.tick - last);
          }
        }
        if better { best := Pick(p - min, ex, imb); }
        p := p + 1;
      }
    }

    method CrossOnce(p: nat) returns (f: nat)
      requires Valid() && Abs().Shaped() && Overlaps(Abs()) && bids != map[] && asks != map[]
      modifies this
      ensures Valid() && old(Abs()).Shaped() && Overlaps(old(Abs()))
      ensures Abs() == CrossStep(old(Abs()), p) && f == CrossQty(old(Abs()))
    {
      hide Abs, Valid, Working, CrossFill, Engine.Valid, State.Indexed, Best;
      ghost var st := Abs();
      ValidFacts();
      var bpx := FirstKey(Buy, bids, min, n);
      var apx := FirstKey(Sell, asks, min, n);
      StartWork(Buy, bpx);
      StartWork(Sell, apx);
      QueueAt(Buy, bpx);
      QueueAt(Sell, apx);
      var bid, ask := bids[bpx][0], asks[apx][0];
      f := Min(Size(bid), Size(ask));
      var trade := Traded(bid.id, ask.id, min + p, f, Buy);
      PrintAtWork(Buy, bpx, min + p, trade);
      CrossFillShape(st.Print(min + p, trade), Buy, bpx - min, f, min + p);
      CrossFront(Buy, bpx, f, min + p);
      FinishWork(Buy, bpx);
      CrossSellHalf(st, apx, f, p, trade);
    }

    method CrossSellHalf(ghost st: State, apx: int, f: nat, p: nat, ghost trade: Event)
      requires Valid() && st.Shaped() && Overlaps(st) && f == CrossQty(st) && st.min == min
      requires apx - min == st.BestTick(Sell)
      requires trade == Traded(Bids(st)[st.BestTick(Buy)][0].id, Asks(st)[st.BestTick(Sell)][0].id, st.min + p, f, Buy)
      requires Abs() == CrossFill(st.Print(st.min + p, trade), Buy, st.BestTick(Buy), f, st.min + p)
      modifies this
      ensures Valid() && Abs() == CrossStep(st, p)
    {
      hide Abs, Valid, Working, CrossFill, Engine.Valid, State.Indexed;
      ValidFacts();
      CrossFillShape(st.Print(st.min + p, trade), Buy, st.BestTick(Buy), f, st.min + p);
      assert Asks(Abs()) == Asks(st);
      QueueAt(Sell, apx);
      KeyIsBest(Sell, apx);
      StartWork(Sell, apx);
      CrossFront(Sell, apx, f, min + p);
      FinishWork(Sell, apx);
    }

    lemma KeyIsBest(s: Types.Side, px: int)
      requires Valid() && px - min == Abs().BestTick(s) >= 0
      ensures px in Side(s) && forall p :: p in Side(s) ==> !Better(s, p, px)
    {
      hide Engine.Valid;
      AbsIs();
      var l := Abs().Get(Resting(s));
      assert l[px - min] != [];
      assert s == Buy || s == Sell;
      forall p | p in Side(s) ensures !Better(s, p, px) { assert l[p - min] != []; }
    }

    /** True when both sides still reach price `p`. */
    method StillCrosses(p: int) returns (r: bool)
      requires Valid() && p >= min
      ensures r == Crossable(Abs(), p - min) && (r ==> bids != map[] && asks != map[])
    {
      hide Engine.Valid, Abs, Valid, Best;
      if bids == map[] { EmptySide(Buy); return false; }
      if asks == map[] { EmptySide(Sell); return false; }
      ValidFacts();
      var b := FirstKey(Buy, bids, min, n);
      var a := FirstKey(Sell, asks, min, n);
      StartWork(Buy, b);
      StartWork(Sell, a);
      r := b >= p && a <= p;
    }

    method UncrossOrders() returns (crossed: nat)
      requires Idle()
      modifies this
      ensures Engine.Valid(old(Abs())) && old(Abs()).Shaped() && Idle()
      ensures var r := Uncross(old(Abs())); Engine.Valid(r.st) && Abs() == Pump(r.st) && crossed == r.crossed
    {
      hide Abs, Engine.Valid, Valid, State.Indexed, Best, CrossStep, Scan, Pump, Quiet;
      ghost var st := Abs();
      ValidFacts();
      UncrossValid(st);
      StaysQuiet(st, st);
      if bids == map[] { EmptySide(Buy); return 0; }
      if asks == map[] { EmptySide(Sell); return 0; }
      var hi := FirstKey(Buy, bids, min, n);
      var lo := FirstKey(Sell, asks, min, n);
      StartWork(Buy, hi);
      StartWork(Sell, lo);
      if hi < lo { return 0; }
      ClearingExecutes(st);
      var best := PickClearing(lo, hi);
      // An overlap always executes something, so the zero-volume exit is dead.
      assert best.exec > 0;
      crossed := CrossAll(best.tick);
      PumpAll();
    }

    /** The fill loop at tick `p`. */
    method CrossAll(p: nat) returns (crossed: nat)
      requires Valid() && p < n
      modifies this
      ensures Valid() && old(Abs()).Shaped() && Cross(Abs(), crossed) == CrossLoop(old(Abs()), p, 0)
    {
      hide Abs, Engine.Valid, Valid, State.Indexed, Best, CrossStep;
      ghost var st := Abs();
      ValidFacts();
      crossed := 0;
      var more := StillCrosses(min + p);
      while more
        invariant Valid() && Abs().Shaped() && p < n && Abs().min == min && Abs().width == n
        invariant more == Crossable(Abs(), p) && (more ==> bids != map[] && asks != map[])
        invariant CrossLoop(Abs(), p, crossed) == CrossLoop(st, p, 0)
        decreases Count(Bids(Abs())) + Count(Asks(Abs()))
      {
        CrossStepShape(Abs(), p);
        var f := CrossOnce(p);
        crossed := crossed + f;
        more := StillCrosses(min + p);
      }
    }

    // ---- the public surface ---------------------------------------------

    method SetHalted(h: bool)
      requires Idle()
      modifies this
      ensures Engine.Valid(old(Abs())) && Idle() && Abs() == Step(old(Abs()), if h then Halt else Resume).st
    {
      hide Engine.Valid, Quiet, Pump;
      HaltValid(Abs(), h);
      halted := h;
      if h { HaltedQuiet(); } else { PumpAll(); }
    }

    method Apply(op: Op) returns (reply: Reply)
      requires Idle()
      modifies this
      ensures Engine.Valid(old(Abs())) && Idle()
      ensures Result(Abs(), reply) == Step(old(Abs()), op)
    {
      hide Abs, Engine.Valid, Valid, State.Indexed, Idle, DoSubmitStop, DoCancel, DoReduce, DoModify, Uncross, Pump;
      IdleFacts();
      match op {
        case SubmitLimit(side, price, qty, tif, owner, stp) =>
          var id := SubmitLimitOrder(side, price, qty, tif, owner, stp);
          reply := Assigned(id);
        case SubmitMarket(side, qty, owner, stp) =>
          var left := SubmitMarketOrder(side, qty, owner, stp);
          reply := Unfilled(left);
        case SubmitIceberg(side, price, qty, display, tif, owner, stp) =>
          var id := SubmitIcebergOrder(side, price, qty, display, tif, owner, stp);
          reply := Assigned(id);
        case SubmitStop(side, trigger, qty, owner, stp) =>
          var id := SubmitStopOrder(side, trigger, 0, qty, true, owner, stp);
          reply := Assigned(id);
        case SubmitStopLimit(side, trigger, limit, qty, owner, stp) =>
          var id := SubmitStopOrder(side, trigger, limit, qty, false, owner, stp);
          reply := Assigned(id);
        case Cancel(id) =>
          var ok := CancelOrder(id);
          reply := Answer(ok);
        case Reduce(id, delta) =>
          var ok := ReduceOrder(id, delta);
          reply := Answer(ok);
        case Modify(id, price, qty) =>
          var ok := ModifyOrder(id, price, qty);
          reply := Answer(ok);
        case Halt =>
          SetHalted(true);
          reply := Silent;
        case Resume =>
          SetHalted(false);
          reply := Silent;
        case UncrossBook =>
          var crossed := UncrossOrders();
          reply := Crossed(crossed);
      }
    }

    lemma IdleFacts()
      requires Idle()
      ensures Engine.Valid(Abs()) && Abs().Shaped() && Abs().Indexed()
    {}
  }
}
