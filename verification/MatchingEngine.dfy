/** The flat-array engine: level arrays, bitmaps, cached best ticks and an id table,
    updated in place and proved against the state transitions of `Engine`. */
module FastEngine {
  import opened Types
  import opened Ladders
  import opened Book
  import opened Matching
  import opened Reach
  import opened Auction
  import opened Engine
  import opened Safety
  import opened LevelBooks
  import opened Slabs
  import opened Walks

  /** The id table as a map: a null entry is a dead or never-rested id. */
  function LiveOf(orders: seq<Option<Place>>): (m: map<nat, Place>)
    ensures forall id :: id in m <==> 0 <= id < |orders| && orders[id].Some?
    ensures forall id :: id in m ==> m[id] == orders[id].value
  {
    map id | 0 <= id < |orders| && orders[id].Some? :: orders[id].value
  }

  lemma SetQueueCounts(st: State, s: Shelf, i: nat, q: Queue, where: map<nat, Place>)
    requires i < |st.Get(s)|
    ensures OpenOrders(st.SetQueue(s, i, q, where)) == OpenOrders(st) - |st.Get(s)[i]| + |q|
    ensures PendingStops(st.SetQueue(s, i, q, where)) ==
            if s.stop then PendingStops(st) - |st.Get(s)[i]| + |q| else PendingStops(st)
  {
    hide Count;
    CountUpdate(st.Get(s), i, q);
    ShelfCases(s);
  }

  lemma EmptyCount(n: nat)
    ensures Count(seq(n, i => [])) == 0
  {
    SpanEmpty(One, seq(n, i => []), 0, n);
  }

  /** The counters agree with the orders. */
  ghost predicate Counted(st: State, inUse: int, pendingStops: int) {
    Engine.Valid(st) && inUse == OpenOrders(st) && pendingStops == PendingStops(st)
  }

  /** The cached best ticks are the extreme occupied ones. */
  predicate Quotes(st: State, bestBid: int, bestAsk: int) {
    bestBid == st.BestTick(Buy) && bestAsk == st.BestTick(Sell)
  }

  /** Tick `i` is cached as best of side `s` and nothing beats it; the other side is exact. */
  predicate QuotesBut(st: State, bestBid: int, bestAsk: int, s: Side, i: nat) {
    && (if s.Buy? then bestBid == i && bestAsk == st.BestTick(Sell) else bestAsk == i && bestBid == st.BestTick(Buy))
    && forall j :: 0 <= j < |st.Get(Resting(s))| && st.Get(Resting(s))[j] != [] ==> !Beats(s, j, i)
  }

  ghost predicate EmptyBook(b: LevelBook, width: nat)
    reads b.levels, b.bits.words
  {
    b.Sized() && b.Valid() && b.n == width && b.Queues() == seq(width, i => [])
  }

  /** The slab's lists are the queues of these ladders. */
  ghost predicate Agree(m: map<Place, Queue>, book: map<Shelf, Ladder>, n: nat) {
    forall p: Place :: p.tick < n ==>
      p in m && p.shelf in book && p.tick < |book[p.shelf]| && m[p] == book[p.shelf][p.tick]
  }

  lemma AgreeSet(m: map<Place, Queue>, book: map<Shelf, Ladder>, n: nat, p: Place, q: Queue)
    requires Agree(m, book, n) && p.tick < n
    ensures p.shelf in book && p.tick < |book[p.shelf]|
    ensures Agree(m[p := q], book[p.shelf := book[p.shelf][p.tick := q]], n)
  {}

  /** The number of orders the pool is made for at first. */
  const EXPECTED_ORDERS := 0x10_0000

  ghost function LevelsOf(m: map<Shelf, LevelBook>): set<object> { set s | s in m :: m[s].levels }
  ghost function WordsOf(m: map<Shelf, LevelBook>): set<object> { set s | s in m :: m[s].bits.words }

  /** Four empty books that share no storage. */
  method FourBooks(width: nat) returns (m: map<Shelf, LevelBook>)
    requires width > 0
    ensures m.Keys == {Resting(Buy), Resting(Sell), Pending(Buy), Pending(Sell)}
    ensures forall s: Shelf :: s in m && EmptyBook(m[s], width)
    ensures forall r: Shelf, s: Shelf :: r != s ==> m[r].levels != m[s].levels && m[r].bits.words != m[s].bits.words
    ensures forall r: Shelf, s: Shelf :: m[r].levels as object != m[s].bits.words
    ensures LevelsOf(m) !! WordsOf(m) && fresh(LevelsOf(m)) && fresh(WordsOf(m))
  {
    hide LevelBook.ValidBut, LevelBook.Valid, LevelBook.Queues;
    var bids := new LevelBook(width);
    var asks := new LevelBook(width);
    var stopBids := new LevelBook(width);
    var stopAsks := new LevelBook(width);
    m := map[Resting(Buy) := bids, Resting(Sell) := asks, Pending(Buy) := stopBids, Pending(Sell) := stopAsks];
    forall s: Shelf ensures s in m && EmptyBook(m[s], width) && fresh(m[s].levels) && fresh(m[s].bits.words) {
      ShelfCases(s);
    }
    forall r: Shelf, s: Shelf
      ensures r != s ==> m[r].levels != m[s].levels && m[r].bits.words != m[s].bits.words
      ensures m[r].levels as object != m[s].bits.words
    {
      ShelfCases(r);
      ShelfCases(s);
    }
  }

  /** Matching unfolded once at a known best tick. */
  lemma MatchAtBest(st: State, k: Taker, qty: nat, i: nat)
    requires i < |st.Get(k.Shelf())| && st.Get(k.Shelf())[i] != [] && qty > 0 && k.Reaches(i)
    requires forall j :: 0 <= j < |st.Get(k.Shelf())| && st.Get(k.Shelf())[j] != [] ==> !Beats(k.Against(), j, i)
    ensures var o := st.Get(k.Shelf())[i][0];
      Match(st, k, qty) ==
        if !k.Own(o) then Match(Fill(st, k, i, Min(qty, o.qty)), k, qty - Min(qty, o.qty))
        else match k.stp
          case CancelTaker => Sweep(st, qty, true)
          case CancelMaker => Match(CancelHead(st, k.Against(), i), k, qty)
          case CancelBoth => Sweep(CancelHead(st, k.Against(), i), qty, true)
  {
    BestIsUnique(k.Against(), st.Get(k.Shelf()), i);
  }

  lemma MatchDone(st: State, k: Taker, qty: nat)
    requires qty == 0 || st.BestTick(k.Against()) < 0 || !k.Reaches(st.BestTick(k.Against()))
    ensures Match(st, k, qty) == Sweep(st, qty, false)
  {}

  /** The best tick of side `s` once tick `i` has become occupied. */
  function BestWith(s: Side, b: int, i: nat): int { if b < 0 || Beats(s, i, b) then i else b }

  /** How one queue replacement moves the counters and the best tick of its side. */
  lemma SetQueueKeeps(st: State, used: int, pending: int, s: Shelf, i: nat, q: Queue, where: map<nat, Place>)
    requires Counted(st, used, pending) && i < st.width
    requires Engine.Valid(st.SetQueue(s, i, q, where))
    ensures var d := |q| - |st.Get(s)[i]|;
      && Counted(st.SetQueue(s, i, q, where), used + d, if s.stop then pending + d else pending)
      && used + d >= 0 && (s.stop ==> pending + d >= 0)
  {
    hide StopsInBand, State.ListedAt, OpenOrders, PendingStops;
    SetQueueCounts(st, s, i, q, where);
  }

  lemma BestAfterSet(s: Side, l: Ladder, i: nat, q: Queue)
    requires i < |l|
    ensures (q == []) == (l[i] == []) ==> Best(s, l[i := q]) == Best(s, l)
    ensures q != [] && l[i] == [] ==> Best(s, l[i := q]) == BestWith(s, Best(s, l), i)
    ensures q == [] && Best(s, l) != i ==> Best(s, l[i := q]) == Best(s, l)
    ensures q == [] && Best(s, l) == i ==>
      forall j :: 0 <= j < |l| && l[i := q][j] != [] ==> Beats(s, i, j)
  {
    var m := l[i := q];
    var b := Best(s, l);
    if (q == []) == (l[i] == []) || (q == [] && b != i) {
      assert IsBest(s, m, b);
      BestIsUnique(s, m, b);
    } else if q != [] {
      assert IsBest(s, m, BestWith(s, b, i));
      BestIsUnique(s, m, BestWith(s, b, i));
    }
  }

  lemma LinkStops(st: State, s: Shelf, i: nat, o: Order)
    requires Engine.Valid(st) && i < st.width && Join(st, s, i, o).Indexed()
    requires s.stop ==> o.market || st.InBand(o.limit)
    ensures Engine.Valid(Join(st, s, i, o))
  {
    hide State.ListedAt, StopsInBand;
    if s.stop {
      ShelfCases(s);
      JoinStopsInBand(st, s.side, i, o);
    } else {
      SetQueueStopsInBand(st, s, i, st.Get(s)[i] + [o], st.live[o.id := Place(s, i)]);
    }
  }

  lemma DeadTail(orders: seq<Option<Place>>)
    ensures LiveOf(orders + [None]) == LiveOf(orders)
  {}

  lemma TableJoin(orders: seq<Option<Place>>, id: nat, p: Place)
    requires id < |orders|
    ensures LiveOf(orders[id := Some(p)]) == LiveOf(orders)[id := p]
  {}

  lemma TableLeave(orders: seq<Option<Place>>, id: nat)
    requires id < |orders|
    ensures LiveOf(orders[id := None]) == LiveOf(orders) - {id}
  {}

  /** After replacing one queue of shelf `s`, the quotes of the other side stand,
      and so do those of this side unless its level changed occupancy. */
  lemma QuotesAfterSet(st: State, t: State, s: Shelf, i: nat, q: Queue)
    requires i < |st.Get(s)| && t.book == st.book[s := st.Get(s)[i := q]]
    ensures s.stop ==> t.BestTick(Buy) == st.BestTick(Buy) && t.BestTick(Sell) == st.BestTick(Sell)
    ensures !s.stop ==> t.BestTick(s.side.Opposite()) == st.BestTick(s.side.Opposite())
    ensures !s.stop && (q == []) == (st.Get(s)[i] == []) ==> t.BestTick(s.side) == st.BestTick(s.side)
    ensures !s.stop && q != [] && st.Get(s)[i] == [] ==> t.BestTick(s.side) == BestWith(s.side, st.BestTick(s.side), i)
    ensures !s.stop && q == [] && st.BestTick(s.side) != i ==> t.BestTick(s.side) == st.BestTick(s.side)
    ensures !s.stop && q == [] && st.BestTick(s.side) == i ==>
      forall j :: 0 <= j < |t.Get(s)| && t.Get(s)[j] != [] ==> Beats(s.side, i, j)
  {
    hide Best, BestWith, Beats;
    BestAfterSet(s.side, st.Get(s), i, q);
  }

  lemma LeaveFacts(st: State, s: Shelf, i: nat, k: nat)
    requires Engine.Valid(st) && i < st.width && k < |st.Get(s)[i]|
    ensures Engine.Valid(Leave(st, s, i, k))
    ensures st.Get(s)[i][k].id in st.live && st.Get(s)[i][k].id < st.nextId
  {
    hide State.ListedAt, StopsInBand;
    LeaveIndexed(st, s, i, k);
    LeaveStopsInBand(st, s, i, k);
  }

  lemma AmendFacts(st: State, s: Side, i: nat, k: nat, o: Order)
    requires Engine.Valid(st) && i < st.width && k < |st.Get(Resting(s))[i]| && o.id == st.Get(Resting(s))[i][k].id
    ensures Engine.Valid(Amend(st, Resting(s), i, k, o))
  {
    hide State.ListedAt, StopsInBand;
    AmendIndexed(st, Resting(s), i, k, o);
    SetQueueStopsInBand(st, Resting(s), i, st.Get(Resting(s))[i][k := o], st.live);
  }

  /** Counters and quotes look at neither the tape nor the next id. */
  lemma Renumbered(st: State, t: State, used: int, pending: int)
    requires Counted(st, used, pending) && t == st.(nextId := st.nextId + 1, tape := t.tape)
    ensures Counted(t, used, pending)
  {
    hide StopsInBand;
    forall p: Place | p.tick < t.width ensures t.ListedAt(p) { assert st.ListedAt(p); }
    StopsInBandSame(st, t);
  }

  lemma HaltCounted(st: State, h: bool, used: int, pending: int)
    requires Counted(st, used, pending)
    ensures Counted(st.(halted := h), used, pending)
  {
    hide State.ListedAt, StopsInBand, Count;
    HaltValid(st, h);
  }

  lemma QuotesSame(st: State, t: State, bb: int, ba: int)
    requires Quotes(st, bb, ba) && t.book == st.book
    ensures Quotes(t, bb, ba)
  {}

  /** A shave changes sizes only. */
  lemma ShaveSizes(o: Order, delta: nat)
    requires delta < Size(o)
    ensures var r := Shave(o, delta); o.(qty := r.qty, reserve := r.reserve) == r
  {}

  lemma {:induction false} SumSize(q: Queue)
    ensures Sum(Size, q) == Sum(Shown, q) + Sum(Dark, q)
  {
    if q != [] { SumSize(q[1..]); }
  }

  lemma SpanNothing(w: Weight, l: Ladder, i: nat)
    requires i <= |l|
    ensures Span(w, l, i, i) == 0
  {}

  /** A sum over the ticks below `done` hops up to tick `i` past empty ones. */
  lemma SpanHop(l: Ladder, lo: nat, done: nat, i: nat)
    requires lo <= done <= i < |l| && forall j :: done <= j < i ==> l[j] == []
    ensures Span(Size, l, lo, i + 1) == Span(Size, l, lo, done) + Sum(Size, l[i])
  {
    SpanSplit(Size, l, lo, done, i + 1);
    SpanSplit(Size, l, done, i, i + 1);
    SpanEmpty(Size, l, done, i);
  }

  /** A sum over the ticks from `done` hops down to tick `i` past empty ones. */
  lemma SpanDrop(l: Ladder, i: nat, done: nat, hi: nat)
    requires i < done <= hi <= |l| && forall j :: i < j < done ==> l[j] == []
    ensures Span(Size, l, i, hi) == Span(Size, l, done, hi) + Sum(Size, l[i])
  {
    SpanSplit(Size, l, i, done, hi);
    SpanEmpty(Size, l, i + 1, done);
  }

  /** An accepted entry is killed before it can match or rest. */
  predicate DiesOnEntry(st: State, side: Side, price: int, qty: nat, tif: TimeInForce)
    requires st.Shaped() && st.InBand(price)
  {
    if st.halted then !tif.GTC?
    else (tif.FOK? && Fillable(st, side, price) < qty) || (tif.PostOnly? && WouldCross(st, side, st.Tick(price)))
  }

  lemma EnterCases(st: State, side: Side, price: int, qty: nat, tif: TimeInForce, t: Terms)
    requires st.Shaped() && st.InBand(price) && qty > 0
    ensures var a := Accept(st, side, price, qty);
      Enter(st, side, price, qty, tif, t) ==
        Result(if DiesOnEntry(a, side, price, qty, tif) then a.Emit(Cancelled(st.nextId))
               else PlaceLimit(a, st.nextId, side, a.Tick(price), qty, tif, t), Assigned(st.nextId))
  {
    hide PlaceLimit, Fillable, WouldCross;
  }

  class MatchingEngine {
    const min: int
    const n: nat
    /** The four level arrays: bids, asks, and the two stop books. */
    const shelves: map<Shelf, LevelBook>
    var bestBid: int
    var bestAsk: int
    /** Nodes, lists, id table and side table. */
    const slab: Slab
    /** Where the id table's nodes stand. */
    ghost var places: seq<Option<Place>>
    ghost var inUse: nat
    var pendingStops: nat
    var lastPx: int
    var hasLast: bool
    var halted: bool
    var stpHalt: bool
    var tape: seq<Event>

    ghost function Levels(): set<object> { LevelsOf(shelves) }
    ghost function Words(): set<object> { WordsOf(shelves) }
    ghost function Repr(): set<object> { Levels() + Words() + {slab, slab.pool} }

    /** The four books have the same width and share no storage. */
    ghost predicate Apart() {
      && n > 0
      && (forall s: Shelf :: s in shelves && shelves[s].Sized() && shelves[s].n == n)
      && (forall r: Shelf, s: Shelf :: r != s ==>
            shelves[r].levels != shelves[s].levels && shelves[r].bits.words != shelves[s].bits.words)
      && (forall r: Shelf, s: Shelf :: shelves[r].levels as object != shelves[s].bits.words)
      && Levels() !! Words() && this !in Levels() && this !in Repr()
      && slab !in Levels() + Words() && slab.pool !in Levels() + Words()
    }

    ghost function Queues(): map<Shelf, Ladder>
      reads Levels()
    {
      map s | s in shelves :: shelves[s].Queues()
    }

    /** What the arrays, the id table and the scalars mean. */
    ghost function Abs(): State
      reads this`places, this`hasLast, this`lastPx, this`halted, this`tape, Levels()
    {
      State(min, n, Queues(), LiveOf(places), |places|, if hasLast then Some(lastPx) else None, halted, tape)
    }

    function BestOf(s: Side): int
      reads this`bestBid, this`bestAsk
    {
      if s.Buy? then bestBid else bestAsk
    }

    /** The part of the invariant that speaks of the orders alone. */
    ghost predicate Core()
      reads this`places, this`hasLast, this`lastPx, this`halted, this`tape, this`inUse, this`pendingStops, Levels()
    {
      Apart() && Counted(Abs(), inUse, pendingStops)
    }

    /** Every book's totals and bits agree with its FIFOs. */
    ghost predicate Booked()
      requires Apart()
      reads Levels(), Words()
    {
      forall s: Shelf :: shelves[s].Valid()
    }

    /** As `Booked`, but level `i` of side `s` may have become empty unnoticed. */
    ghost predicate BookedBut(s: Side, i: nat)
      requires Apart()
      reads Levels(), Words()
    {
      shelves[Resting(s)].StaleAt(i) && forall r: Shelf :: r != Resting(s) ==> shelves[r].Valid()
    }

    /** The slab's lists are the FIFOs, and its id table points to their nodes. */
    ghost predicate Backed()
      reads this`places, Levels(), slab, slab.pool
    {
      slab.Valid() && slab.n == n && slab.Where() == places && Agree(slab.Book(), Queues(), n)
    }

    /** Totals, bitmaps, best ticks and counters agree with the FIFOs. */
    ghost predicate Sound()
      reads this, Levels(), Words()
    {
      Core() && Booked() && Quotes(Abs(), bestBid, bestAsk)
    }

    /** Totals, bitmaps, best ticks, linked nodes, id table and counters all agree with the FIFOs. */
    ghost predicate Valid()
      reads this, Repr()
    {
      Sound() && Backed()
    }

    /** Level `i`, the best of side `s`, is being worked on and may have become
        empty with its bit still set and the cached best still pointing at it. */
    ghost predicate Bare(s: Side, i: nat)
      reads this, Levels(), Words()
    {
      Core() && BookedBut(s, i) && QuotesBut(Abs(), bestBid, bestAsk, s, i)
    }

    ghost predicate Working(s: Side, i: nat)
      reads this, Repr()
    {
      Bare(s, i) && Backed()
    }

    /** Valid between public calls. */
    ghost predicate Idle()
      reads this, Repr()
    {
      Valid() && !stpHalt
    }

    constructor (minPrice: int, maxPrice: int)
      requires minPrice <= maxPrice
      ensures Idle() && Abs() == Fresh(minPrice, maxPrice - minPrice + 1) && fresh(Repr())
    {
      hide Valid, Abs, Fresh, Started, EmptyBook, Apart, Core, Booked, Quotes, LiveOf, Slab.Valid, Slab.Where,
        Slab.Book;
      min := minPrice;
      n := maxPrice - minPrice + 1;
      var books := FourBooks(maxPrice - minPrice + 1);
      shelves := books;
      slab := new Slab(maxPrice - minPrice + 1, EXPECTED_ORDERS);
      bestBid, bestAsk := -1, -1;
      places := [None];
      inUse, pendingStops := 0, 0;
      hasLast, halted, stpHalt := false, false, false;
      tape := [];
      new;
      EmptyIsStarted();
      StartedIsFresh();
    }

    lemma EmptyIsStarted()
      requires n > 0 && shelves.Keys == {Resting(Buy), Resting(Sell), Pending(Buy), Pending(Sell)}
      requires forall s: Shelf :: s in shelves && EmptyBook(shelves[s], n)
      requires forall r: Shelf, s: Shelf :: r != s ==>
        shelves[r].levels != shelves[s].levels && shelves[r].bits.words != shelves[s].bits.words
      requires forall r: Shelf, s: Shelf :: shelves[r].levels as object != shelves[s].bits.words
      requires Levels() !! Words() && this !in Levels() && this !in Repr()
      requires slab !in Levels() + Words() && slab.pool !in Levels() + Words()
      requires slab.Valid() && slab.n == n && slab.Where() == [None] && slab.Book() == map p | p in Places(n) :: []
      requires bestBid == -1 && bestAsk == -1 && places == [None] && inUse == 0 && pendingStops == 0
      requires !hasLast && !halted && !stpHalt && tape == []
      ensures Started()
    {
      hide LevelBook.ValidBut, LevelBook.Queues, Slab.Valid, Slab.Where, Slab.Book;
      forall p: Place | p.tick < n ensures p in Places(n) { InPlaces(n, p); }
    }

    /** A newly built engine: empty apart books and initial scalars. */
    ghost predicate Started()
      reads this, Repr()
    {
      && Apart() && Booked() && Backed() && (forall s: Shelf :: shelves[s].Queues() == seq(n, i => []))
      && shelves.Keys == {Resting(Buy), Resting(Sell), Pending(Buy), Pending(Sell)}
      && bestBid == -1 && bestAsk == -1 && places == [None] && inUse == 0 && pendingStops == 0
      && !hasLast && !halted && !stpHalt && tape == []
    }

    lemma StartedIsFresh()
      requires Started()
      ensures Valid() && Abs() == Fresh(min, n)
    {
      hide Count, LevelBook.Valid, Backed;
      var st := Fresh(min, n);
      forall s: Shelf ensures st.Get(s) == shelves[s].Queues() { ShelfCases(s); }
      assert Queues() == st.book;
      assert LiveOf(places) == map[];
      FreshIsSafe(min, n);
      EmptyCount(n);
    }

    lemma CoreApart()
      requires Core()
      ensures Apart()
    {}

    lemma AbsGet(s: Shelf)
      requires Apart()
      ensures Abs().Get(s) == shelves[s].Queues() && Abs().width == n == |shelves[s].Queues()| && Abs().min == min
    {}

    lemma StartWork(s: Side)
      requires Valid() && BestOf(s) >= 0
      ensures Working(s, BestOf(s)) && shelves[Resting(s)].Queues()[BestOf(s)] != []
    {
      hide Engine.Valid, OpenOrders, PendingStops, LevelBook.Valid, LevelBook.StaleAt, Backed;
      AbsGet(Resting(s));
      shelves[Resting(s)].Stale(BestOf(s));
    }

    method Settle(s: Side, i: nat)
      requires Apart() && BookedBut(s, i) && shelves[Resting(s)].Queues()[i] == []
      modifies Words()
      ensures Booked()
    {
      hide LevelBook.ValidBut, LevelBook.Valid;
      shelves[Resting(s)].Unmark(i);
    }

    lemma LevelFacts(s: Side, i: nat)
      requires Working(s, i)
      ensures Apart() && Core() && BookedBut(s, i) && shelves[Resting(s)].StaleAt(i) && i < n
      ensures shelves[Resting(s)].levels[i].fifo == shelves[Resting(s)].Queues()[i]
      ensures Abs().Get(Resting(s)) == shelves[Resting(s)].Queues() && QuotesBut(Abs(), bestBid, bestAsk, s, i)
    {
      hide Counted, Abs, LevelBook.ValidBut, Queues, QuotesBut, Backed;
      CoreApart();
      AbsGet(Resting(s));
    }

    /** What the slab's head pointer says of a level. */
    lemma HeadIs(s: Shelf, i: nat)
      requires Apart() && Backed() && i < n
      ensures slab.Valid() && slab.n == n && slab.Where() == places && Agree(slab.Book(), Queues(), n)
      ensures slab.Queue(Place(s, i)) == shelves[s].Queues()[i] == shelves[s].levels[i].fifo
      ensures slab.Vacant(Place(s, i)) <==> shelves[s].levels[i].fifo == []
      ensures !slab.Vacant(Place(s, i)) ==> SlotIs(s, i, 0, slab.First(Place(s, i)))
    {
      hide Slab.Valid, Slab.Where, Slab.Queue, Slab.Book, Slab.Vacant, Slab.First;
      InPlaces(n, Place(s, i));
      slab.HeadFacts(Place(s, i));
      if !slab.Vacant(Place(s, i)) { slab.SlotFacts(Place(s, i), 0); }
    }

    /** Slot `x` holds the order at position `k` of a level. */
    ghost predicate SlotIs(s: Shelf, i: nat, k: nat, x: nat)
      requires Apart() && slab.Valid() && i < n
      reads Levels(), slab, slab.pool
    {
      && Place(s, i) in slab.chains && k < |slab.chains[Place(s, i)]| && slab.chains[Place(s, i)][k] == x
      && x in slab.pool.used && x < |slab.cells| && slab.cells[x].At() == Place(s, i)
      && k < |shelves[s].levels[i].fifo| && slab.OrderAt(x) == shelves[s].levels[i].fifo[k]
    }

    lemma WorkHead(s: Side, i: nat)
      requires Working(s, i)
      ensures Apart() && Backed() && i < n && slab.Valid() && slab.n == n && slab.Where() == places
      ensures Agree(slab.Book(), Queues(), n) && slab.Queue(Place(Resting(s), i)) == shelves[Resting(s)].levels[i].fifo
      ensures slab.Vacant(Place(Resting(s), i)) <==> shelves[Resting(s)].levels[i].fifo == []
      ensures !slab.Vacant(Place(Resting(s), i)) ==> SlotIs(Resting(s), i, 0, slab.First(Place(Resting(s), i)))
    {
      hide Bare, Backed, SlotIs;
      BareFacts(s, i);
      HeadIs(Resting(s), i);
    }

    lemma ShelfHead(s: Shelf, i: nat)
      requires Valid() && i < n
      ensures Apart() && Sound() && Backed() && slab.Valid() && slab.n == n && slab.Where() == places
      ensures Agree(slab.Book(), Queues(), n) && slab.Queue(Place(s, i)) == shelves[s].levels[i].fifo
      ensures slab.Vacant(Place(s, i)) <==> shelves[s].levels[i].fifo == []
      ensures !slab.Vacant(Place(s, i)) ==> SlotIs(s, i, 0, slab.First(Place(s, i)))
    {
      hide Backed, SlotIs, Booked, Quotes, Counted, Abs;
      CoreApart();
      HeadIs(s, i);
    }

    lemma WorkIsDone(s: Side, i: nat)
      requires Working(s, i) && Apart() && shelves[Resting(s)].Queues()[i] != []
      ensures Valid()
    {
      hide Counted, Abs, LevelBook.ValidBut, LevelBook.Valid, Queues, Backed;
      LevelFacts(s, i);
      BestIsUnique(s, shelves[Resting(s)].Queues(), i);
      shelves[Resting(s)].NotStale(i);
    }

    /** Caches tick `b` as the best of side `s`. */
    method PutBest(s: Side, b: int)
      requires Core() && Booked()
      requires if s.Buy? then Quotes(Abs(), b, bestAsk) else Quotes(Abs(), bestBid, b)
      modifies this`bestBid, this`bestAsk
      ensures Sound() && Abs() == old(Abs()) && Queues() == old(Queues()) && Backed() == old(Backed())
    {
      hide Abs, Core, Booked, Quotes, Queues, Levels, Words, Backed;
      CoreApart();
      if s.Buy? { bestBid := b; } else { bestAsk := b; }
    }

    /** The level emptied: its bit is cleared and the cached best hops to the next occupied one. */
    method HopOn(s: Side, i: nat)
      requires Working(s, i) && Apart() && i < n && shelves[Resting(s)].Queues()[i] == []
      modifies this`bestBid, this`bestAsk, Words()
      ensures Valid() && Abs() == old(Abs())
    {
      hide Core, Abs, BookedBut, Booked, LevelBook.ValidBut, LevelBook.Valid, LevelBook.StaleAt, Queues, Backed;
      LevelFacts(s, i);
      var book := shelves[Resting(s)];
      Settle(s, i);
      AllBooked(Resting(s));
      var b := book.NextBest(s, i);
      PutBest(s, b);
    }

    /** If the level emptied, clear its bit and hop to the next occupied one. */
    method FinishWork(s: Side, i: nat)
      requires Working(s, i)
      modifies this`bestBid, this`bestAsk, Words()
      ensures Valid() && Abs() == old(Abs())
    {
      hide Working, Valid, Abs, LevelBook.Queues, SlotIs, Agree, Slab.Valid, Slab.Vacant, Slab.Book, Slab.Where,
        Slab.Queue, Backed, Apart;
      LevelFacts(s, i);
      WorkHead(s, i);
      if slab.Vacant(Place(Resting(s), i)) { HopOn(s, i); } else { WorkIsDone(s, i); }
    }

    lemma AllBooked(s: Shelf)
      requires Apart() && Booked()
      ensures shelves[s].Valid()
    {}

    // ---- moves at the level being swept ---------------------------------

    method WorkStore(s: Side, i: nat, l: Level)
      requires Apart() && BookedBut(s, i) && Tallied(l)
      modifies Levels()
      ensures BookedBut(s, i)
      ensures Queues() == old(Queues())[Resting(s) := old(Queues())[Resting(s)][i := l.fifo]]
    {
      hide LevelBook.ValidBut, LevelBook.Valid, LevelBook.Queues;
      shelves[Resting(s)].Restore(i, l);
    }

    /** Queue `q` at the best tick being worked on keeps counters and quotes. */
    lemma WorkSet(st: State, used: int, pending: int, bb: int, ba: int, s: Side, i: nat, q: Queue,
                  where: map<nat, Place>)
      requires Counted(st, used, pending) && QuotesBut(st, bb, ba, s, i) && i < st.width
      requires st.SetQueue(Resting(s), i, q, where).Indexed() && (q != [] ==> st.Get(Resting(s))[i] != [])
      ensures Counted(st.SetQueue(Resting(s), i, q, where), used - |st.Get(Resting(s))[i]| + |q|, pending)
      ensures used - |st.Get(Resting(s))[i]| + |q| >= 0
      ensures QuotesBut(st.SetQueue(Resting(s), i, q, where), bb, ba, s, i)
    {
      hide State.ListedAt, StopsInBand, OpenOrders, PendingStops;
      SetQueueStopsInBand(st, Resting(s), i, q, where);
      SetQueueCounts(st, Resting(s), i, q, where);
    }

    lemma BareFacts(s: Side, i: nat)
      requires Bare(s, i)
      ensures Abs().min == min && Apart() && i < n == shelves[Resting(s)].levels.Length && Engine.Valid(Abs()) &&
        Abs().Indexed() && Abs().width == n
      ensures Tallied(shelves[Resting(s)].levels[i])
      ensures Abs().Get(Resting(s)) == shelves[Resting(s)].Queues()
      ensures shelves[Resting(s)].levels[i].fifo == Abs().Get(Resting(s))[i]
    {
      hide OpenOrders, PendingStops, State.Indexed, StopsInBand;
      AbsGet(Resting(s));
    }

    lemma WorkFacts(s: Side, i: nat)
      requires Working(s, i)
      ensures Abs().min == min && Apart() && i < n == shelves[Resting(s)].levels.Length && Engine.Valid(Abs()) &&
        Abs().Indexed() && Abs().width == n
      ensures Tallied(shelves[Resting(s)].levels[i])
      ensures Abs().Get(Resting(s)) == shelves[Resting(s)].Queues()
      ensures shelves[Resting(s)].levels[i].fifo == Abs().Get(Resting(s))[i]
    {
      hide Bare, Backed, Abs, Engine.Valid, State.Indexed, Tallied, LevelBook.Queues;
      BareFacts(s, i);
    }

    lemma AbsIs()
      ensures Abs() == State(min, n, Queues(), LiveOf(places), |places|,
                             if hasLast then Some(lastPx) else None, halted, tape)
    {}

    /** Stores level `i` and the ids that go with it. */
    method Rework(s: Side, i: nat, l: Level, ghost ids: seq<Option<Place>>)
      requires Bare(s, i) && Tallied(l) && |ids| == |places|
      requires Abs().SetQueue(Resting(s), i, l.fifo, LiveOf(ids)).Indexed()
      requires l.fifo != [] ==> shelves[Resting(s)].levels[i].fifo != []
      modifies this`places, this`inUse, Levels()
      ensures Bare(s, i) && Abs() == old(Abs()).SetQueue(Resting(s), i, l.fifo, LiveOf(ids)) && places == ids
      ensures Queues() == old(Queues())[Resting(s) := old(Queues())[Resting(s)][i := l.fifo]]
      ensures inUse == old(inUse) - |old(shelves[Resting(s)].levels[i].fifo)| + |l.fifo|
    {
      hide Abs, Counted, QuotesBut, LevelBook.Queues, State.Indexed, Queues, Engine.Valid, BookedBut, LevelsOf, WordsOf;
      ghost var st := Abs();
      AbsIs();
      BareFacts(s, i);
      WorkSet(st, inUse, pendingStops, bestBid, bestAsk, s, i, l.fifo, LiveOf(ids));
      inUse := inUse - |shelves[Resting(s)].levels[i].fifo| + |l.fifo|;
      places := ids;
      WorkStore(s, i, l);
      AbsIs();
      assert Abs() == st.SetQueue(Resting(s), i, l.fifo, LiveOf(ids));
    }

    /** With the slab's book and the arrays' moved alike, the slab still backs them. */
    lemma StillBacked(m: map<Place, Queue>, book: map<Shelf, Ladder>, s: Shelf, i: nat, q: Queue)
      requires Agree(m, book, n) && i < n && s in book && i < |book[s]|
      requires slab.Valid() && slab.n == n && slab.Where() == places
      requires slab.Book() == m[Place(s, i) := q] && Queues() == book[s := book[s][i := q]]
      ensures Backed()
    {
      hide Agree, Slab.Valid, Slab.Where, Slab.Book, Queues;
      AgreeSet(m, book, n, Place(s, i), q);
    }

    /** Totals and FIFO when the head shrinks in place. */
    method LevelAmend(s: Side, i: nat, was: Order, o: Order)
      requires Bare(s, i) && Apart() && i < n && shelves[Resting(s)].levels[i].fifo != []
      requires was == shelves[Resting(s)].levels[i].fifo[0] && o.id == was.id
      modifies this`places, this`inUse, Levels()
      ensures Bare(s, i) && Abs() == Amend(old(Abs()), Resting(s), i, 0, o) && places == old(places)
      ensures Queues() ==
        old(Queues())[Resting(s) := old(Queues())[Resting(s)][i := old(shelves[Resting(s)].levels[i].fifo)[0 := o]]]
    {
      hide Engine.Valid, OpenOrders, PendingStops, Bare, State.Indexed, LiveOf, Abs, Queues;
      BareFacts(s, i);
      AbsIs();
      AmendIndexed(Abs(), Resting(s), i, 0, o);
      Rework(s, i, Revised(shelves[Resting(s)].levels[i], 0, was, o), places);
    }

    /** Totals and FIFO when the head moves, as `o`, behind the others. */
    method LevelRotate(s: Side, i: nat, was: Order, o: Order)
      requires Bare(s, i) && Apart() && i < n && shelves[Resting(s)].levels[i].fifo != []
      requires was == shelves[Resting(s)].levels[i].fifo[0] && o.id == was.id
      modifies this`places, this`inUse, Levels()
      ensures Bare(s, i) && Abs() == Requeue(old(Abs()), Resting(s), i, o) && places == old(places)
      ensures Queues() ==
        old(Queues())[Resting(s) := old(Queues())[Resting(s)][i := old(shelves[Resting(s)].levels[i].fifo)[1..] + [o]]]
    {
      hide Engine.Valid, OpenOrders, PendingStops, Bare, State.Indexed, LiveOf, Abs, Queues;
      BareFacts(s, i);
      AbsIs();
      RequeueIndexed(Abs(), Resting(s), i, o);
      Rework(s, i, Rotated(shelves[Resting(s)].levels[i], was, o), places);
    }

    /** Totals, FIFO and ids when the head leaves. */
    method LevelPop(s: Side, i: nat, was: Order)
      requires Bare(s, i) && Apart() && i < n && shelves[Resting(s)].levels[i].fifo != []
      requires was == shelves[Resting(s)].levels[i].fifo[0]
      modifies this`places, this`inUse, Levels()
      ensures Bare(s, i) && Abs() == Leave(old(Abs()), Resting(s), i, 0) && inUse < old(inUse)
      ensures was.id < |old(places)| && places == old(places)[was.id := None]
      ensures Queues() ==
        old(Queues())[Resting(s) := old(Queues())[Resting(s)][i := Without(old(shelves[Resting(s)].levels[i].fifo), 0)]]
    {
      hide Engine.Valid, OpenOrders, PendingStops, Bare, State.Indexed, LiveOf, Abs, Queues;
      BareFacts(s, i);
      AbsIs();
      LeaveIndexed(Abs(), Resting(s), i, 0);
      LeaveFacts(Abs(), Resting(s), i, 0);
      TableLeave(places, was.id);
      Rework(s, i, Unlinked(shelves[Resting(s)].levels[i], 0, was), places[was.id := None]);
    }

    /** The head shrinks in place. */
    method AmendHead(s: Side, i: nat, o: Order)
      requires Working(s, i) && shelves[Resting(s)].Queues()[i] != []
      requires var h := shelves[Resting(s)].Queues()[i][0]; h.(qty := o.qty, reserve := o.reserve) == o
      modifies this`places, this`inUse, Levels(), slab, slab.pool
      ensures Working(s, i) && Abs() == Amend(old(Abs()), Resting(s), i, 0, o)
    {
      hide Backed, Bare, LiveOf, Abs, Queues, Agree, Levels, Words, Slab.Valid, Slab.Where, Slab.Book, Slab.Queue,
        Slab.Vacant, Slab.First;
      WorkHead(s, i);
      ghost var m, book, q := slab.Book(), Queues(), shelves[Resting(s)].levels[i].fifo;
      BookHas(Resting(s), i);
      assert allocated(Levels()) && allocated(Words());
      var x := slab.First(Place(Resting(s), i));
      LevelAmend(s, i, slab.OrderAt(x), o);
      slab.Amend(x, 0, o);
      StillBacked(m, book, Resting(s), i, q[0 := o]);
    }

    /** The head moves, as `o`, behind the others. */
    method RotateHead(s: Side, i: nat, o: Order)
      requires Working(s, i) && shelves[Resting(s)].Queues()[i] != []
      requires var h := shelves[Resting(s)].Queues()[i][0]; h.(qty := o.qty, reserve := o.reserve) == o
      modifies this`places, this`inUse, Levels(), slab, slab.pool
      ensures Working(s, i) && Abs() == Requeue(old(Abs()), Resting(s), i, o)
    {
      hide Backed, Bare, LiveOf, Abs, Queues, Agree, Levels, Words, Slab.Valid, Slab.Where, Slab.Book, Slab.Queue,
        Slab.Vacant, Slab.First;
      WorkHead(s, i);
      ghost var m, book, q := slab.Book(), Queues(), shelves[Resting(s)].levels[i].fifo;
      BookHas(Resting(s), i);
      assert allocated(Levels()) && allocated(Words());
      LevelRotate(s, i, slab.OrderAt(slab.First(Place(Resting(s), i))), o);
      slab.Rotate(Place(Resting(s), i), o);
      StillBacked(m, book, Resting(s), i, q[1..] + [o]);
    }

    /** The head is unlinked and its id dies. */
    method PopHead(s: Side, i: nat)
      requires Working(s, i) && shelves[Resting(s)].Queues()[i] != []
      modifies this`places, this`inUse, Levels(), slab, slab.pool
      ensures Working(s, i) && Abs() == Leave(old(Abs()), Resting(s), i, 0) && inUse < old(inUse)
    {
      hide Backed, Bare, LiveOf, Abs, Queues, Agree, Levels, Words, Slab.Valid, Slab.Where, Slab.Book, Slab.Queue,
        Slab.Vacant, Slab.First;
      WorkHead(s, i);
      ghost var m, book, q := slab.Book(), Queues(), shelves[Resting(s)].levels[i].fifo;
      BookHas(Resting(s), i);
      assert allocated(Levels()) && allocated(Words());
      var x := slab.First(Place(Resting(s), i));
      LevelPop(s, i, slab.OrderAt(x));
      slab.Drop(x, 0);
      StillBacked(m, book, Resting(s), i, Without(q, 0));
    }

    lemma BookHas(s: Shelf, i: nat)
      requires Apart() && i < n
      ensures s in Queues() && Queues()[s] == shelves[s].Queues() && i < |Queues()[s]|
    {}

    // ---- telling the handler --------------------------------------------

    lemma Retold(st: State, t: State, used: int, pending: int)
      requires Counted(st, used, pending) && t == st.(last := t.last, tape := t.tape) && st.tape <= t.tape
      ensures Counted(t, used, pending)
      ensures forall s: Side :: t.Get(Resting(s)) == st.Get(Resting(s))
    {
      hide State.ListedAt, StopsInBand;
      TellFrame(st, t.last, t.tape[|st.tape|..], Resting(Buy));
      assert t.tape == st.tape + t.tape[|st.tape|..];
      StopsInBandSame(st, t);
    }

    method EmitAtWork(s: Side, i: nat, e: Event)
      requires Working(s, i)
      modifies this`tape
      ensures Working(s, i) && Abs() == old(Abs()).Emit(e)
    {
      hide Abs, Counted, BookedBut, Queues, Levels, Words, Backed;
      ghost var st := Abs();
      AbsIs();
      Retold(st, st.Emit(e), inUse, pendingStops);
      tape := tape + [e];
      AbsIs();
      assert Abs() == st.Emit(e);
    }

    method PrintAtWork(s: Side, i: nat, px: int, e: Event)
      requires Working(s, i)
      modifies this`tape, this`lastPx, this`hasLast
      ensures Working(s, i) && Abs() == old(Abs()).Print(px, e)
    {
      hide Abs, Counted, BookedBut, Queues, Levels, Words, Backed;
      ghost var st := Abs();
      AbsIs();
      Retold(st, st.Print(px, e), inUse, pendingStops);
      lastPx, hasLast := px, true;
      tape := tape + [e];
      AbsIs();
      assert Abs() == st.Print(px, e);
    }

    method Emit(e: Event)
      requires Valid()
      modifies this`tape
      ensures Valid() && Abs() == old(Abs()).Emit(e)
    {
      hide Abs, Counted, Booked, Queues, Levels, Words, Backed;
      ghost var st := Abs();
      AbsIs();
      Retold(st, st.Emit(e), inUse, pendingStops);
      tape := tape + [e];
      AbsIs();
      assert Abs() == st.Emit(e);
    }

    // ---- sweeping one level ---------------------------------------------

    method CancelHeadAt(s: Side, i: nat)
      requires Working(s, i) && shelves[Resting(s)].Queues()[i] != []
      modifies this`places, this`inUse, this`tape, Levels(), slab, slab.pool
      ensures Working(s, i) && Abs() == CancelHead(old(Abs()), s, i) && inUse < old(inUse)
    {
      hide Working, Abs, LiveOf, Backed, Slab.Valid, Slab.Queue, Slab.Vacant, Slab.First, Slab.Where, Slab.Book;
      WorkFacts(s, i);
      WorkHead(s, i);
      var id := slab.cells[slab.First(Place(Resting(s), i))].id;
      PopHead(s, i);
      EmitAtWork(s, i, Cancelled(id));
    }

    /** The head loses `f` of its displayed clip: it shrinks, shows its next clip behind
        the others, or is gone. */
    method ConsumeAt(s: Side, i: nat, f: nat, o: Order)
      requires Working(s, i) && i < shelves[Resting(s)].levels.Length && shelves[Resting(s)].levels[i].fifo != []
      requires o == shelves[Resting(s)].levels[i].fifo[0] && 0 < f <= o.qty
      modifies this`places, this`inUse, this`tape, Levels(), slab, slab.pool
      ensures i < |old(Abs()).Get(Resting(s))| && old(Abs()).Get(Resting(s))[i] != [] &&
        f <= old(Abs()).Get(Resting(s))[i][0].qty
      ensures Working(s, i) && Abs() == Consume(old(Abs()), s, i, f)
    {
      hide Working, Abs, LiveOf, LevelBook.Queues;
      WorkFacts(s, i);
      if f < o.qty {
        AmendHead(s, i, o.(qty := o.qty - f));
      } else if o.reserve > 0 {
        EmitAtWork(s, i, Rested(o.id, s, min + i, Clip(o)));
        WorkFacts(s, i);
        RotateHead(s, i, Reload(o));
      } else {
        PopHead(s, i);
      }
    }

    method FillAt(k: Taker, i: nat, f: nat, o: Order)
      requires Working(k.Against(), i) && i < shelves[k.Shelf()].levels.Length &&
        shelves[k.Shelf()].levels[i].fifo != []
      requires o == shelves[k.Shelf()].levels[i].fifo[0] && 0 < f <= o.qty
      modifies this`places, this`inUse, this`tape, this`lastPx, this`hasLast, Levels(), slab, slab.pool
      ensures i < |old(Abs()).Get(k.Shelf())| && old(Abs()).Get(k.Shelf())[i] != [] &&
        f <= old(Abs()).Get(k.Shelf())[i][0].qty
      ensures Working(k.Against(), i) && Abs() == Fill(old(Abs()), k, i, f)
    {
      hide Working, Abs, LiveOf, LevelBook.Queues, Consume;
      var s := k.Against();
      WorkFacts(s, i);
      PrintAtWork(s, i, min + i, Traded(k.id, o.id, min + i, f, k.side));
      WorkFacts(s, i);
      ConsumeAt(s, i, f, o);
    }

    lemma WorkIsBest(s: Side, i: nat)
      requires Working(s, i)
      ensures var l := Abs().Get(Resting(s));
        i < |l| && forall j :: 0 <= j < |l| && l[j] != [] ==> !Beats(s, j, i)
    {
      WorkFacts(s, i);
    }

    /** One encounter with the head `o`; `stop` when self-trade prevention ends the match. */
    method Meet(k: Taker, i: nat, qty: nat, o: Order) returns (left: nat, stop: bool)
      requires Working(k.Against(), i) && k.Reaches(i) && qty > 0
      requires i < shelves[k.Shelf()].levels.Length && shelves[k.Shelf()].levels[i].fifo != []
      requires o == shelves[k.Shelf()].levels[i].fifo[0]
      modifies this`places, this`inUse, this`tape, this`lastPx, this`hasLast, Levels(), slab, slab.pool
      ensures Working(k.Against(), i) && left <= qty && (left == qty ==> inUse <= old(inUse))
      ensures stop ==> left == qty && Match(old(Abs()), k, qty) == Sweep(Abs(), left, true)
      ensures !stop ==> Match(old(Abs()), k, qty) == Match(Abs(), k, left) && (left < qty || inUse < old(inUse))
    {
      hide Working, Abs, Match, Fill, CancelHead, LevelBook.Queues;
      var s := k.Against();
      WorkFacts(s, i);
      WorkIsBest(s, i);
      MatchAtBest(Abs(), k, qty, i);
      if k.owner != 0 && o.owner == k.owner {
        if k.stp != CancelTaker { CancelHeadAt(s, i); }
        return qty, k.stp != CancelMaker;
      }
      var f := Min(qty, o.qty);
      FillAt(k, i, f, o);
      return qty - f, false;
    }

    /** One encounter and a look at the next head; raises `stpHalt` when the match is over. */
    method MeetHead(k: Taker, i: nat, qty: nat, o: Order) returns (left: nat, next: Option<Order>)
      requires Working(k.Against(), i) && k.Reaches(i) && qty > 0 && !stpHalt && IsHead(k.Against(), i, Some(o))
      modifies this`places, this`inUse, this`tape, this`lastPx, this`hasLast, this`stpHalt, Levels(), slab, slab.pool
      ensures Working(k.Against(), i) && left <= qty && (left == qty ==> inUse <= old(inUse))
      ensures stpHalt ==> left == qty && Match(old(Abs()), k, qty) == Sweep(Abs(), left, true)
      ensures !stpHalt ==> Match(old(Abs()), k, qty) == Match(Abs(), k, left) && (left < qty || inUse < old(inUse))
      ensures !stpHalt ==> IsHead(k.Against(), i, next)
    {
      hide Working, Abs, Match, LevelBook.Queues, Engine.Valid, State.Indexed, Best;
      WorkFacts(k.Against(), i);
      var stop: bool;
      left, stop := Meet(k, i, qty, o);
      WorkFacts(k.Against(), i);
      if stop {
        RaiseHalt(k.Against(), i);
        return left, None;
      }
      next := Peek(k.Against(), i);
    }

    /** Fills level `i` first in, first out. Stops early, raising `stpHalt`, when
        self-trade prevention says the taker may not continue. */
    method SweepLevel(k: Taker, i: nat, qty: nat) returns (left: nat)
      requires Working(k.Against(), i) && k.Reaches(i) && !stpHalt
      modifies this`places, this`inUse, this`tape, this`lastPx, this`hasLast, this`stpHalt, Levels(), slab, slab.pool
      ensures Working(k.Against(), i)
      ensures stpHalt ==> left > 0 && Match(old(Abs()), k, qty) == Sweep(Abs(), left, true)
      ensures !stpHalt ==> Match(old(Abs()), k, qty) == Match(Abs(), k, left)
      ensures !stpHalt ==> left == 0 || !Occupied(k.Against(), i)
      ensures left < qty || (left == qty && inUse <= old(inUse))
      ensures qty > 0 && old(Occupied(k.Against(), i)) ==> stpHalt || left < qty || inUse < old(inUse)
    {
      hide Working, Abs, Match, LevelBook.Queues, Engine.Valid, State.Indexed, Best, IsHead, Occupied;
      var s := k.Against();
      left := qty;
      WorkFacts(s, i);
      var head := Peek(s, i);
      HeadOccupies(s, i, head);
      while head.Some? && left > 0
        invariant Working(s, i) && !stpHalt && IsHead(s, i, head)
        invariant Match(old(Abs()), k, qty) == Match(Abs(), k, left)
        invariant left <= qty && (left == qty ==> inUse <= old(inUse))
        invariant left < qty || inUse < old(inUse) || (head.Some? <==> old(Occupied(s, i)))
        decreases left, inUse
      {
        left, head := MeetHead(k, i, left, head.value);
        if stpHalt { return; }
      }
      HeadOccupies(s, i, head);
    }

    lemma HeadOccupies(s: Side, i: nat, o: Option<Order>)
      requires IsHead(s, i, o)
      ensures o.Some? <==> Occupied(s, i)
    {}

    ghost predicate Occupied(s: Side, i: nat)
      reads Levels()
    {
      Resting(s) in shelves && i < shelves[Resting(s)].levels.Length && shelves[Resting(s)].levels[i].fifo != []
    }

    ghost predicate IsHead(s: Side, i: nat, o: Option<Order>)
      reads Levels()
    {
      && Apart() && i < n
      && if shelves[Resting(s)].levels[i].fifo == [] then o.None? else o == Some(shelves[Resting(s)].levels[i].fifo[0])
    }

    /** The order at the head of the level being worked on, if there is one. */
    method Peek(s: Side, i: nat) returns (o: Option<Order>)
      requires Working(s, i) && i < shelves[Resting(s)].levels.Length
      ensures IsHead(s, i, o)
    {
      hide Working, Backed, Slab.Valid, Slab.Queue, Slab.Vacant, Slab.First, Slab.Where, Slab.Book;
      WorkHead(s, i);
      var p := Place(Resting(s), i);
      o := if slab.Vacant(p) then None else Some(slab.OrderAt(slab.First(p)));
    }

    method RaiseHalt(s: Side, i: nat)
      requires Working(s, i)
      modifies this`stpHalt
      ensures Working(s, i) && stpHalt && Abs() == old(Abs())
    {
      hide Abs, Counted, QuotesBut, BookedBut, LevelsOf, WordsOf, Core, Backed;
      CoreApart();
      stpHalt := true;
    }

    /** Lifts the taker through the opposite side, best level first, within its limit. */
    method MatchSide(k: Taker, qty: nat) returns (left: nat)
      requires Idle()
      modifies this, Repr()
      ensures Valid() && Match(old(Abs()), k, qty) == Sweep(Abs(), left, stpHalt)
    {
      hide Valid, Working, Abs, Match, LevelBook.Queues;
      var s := k.Against();
      left := qty;
      ValidFacts();
      while left > 0 && BestOf(s) >= 0 && k.Reaches(BestOf(s))
        invariant Valid() && !stpHalt
        invariant Match(old(Abs()), k, qty) == Match(Abs(), k, left)
        decreases left, inUse
      {
        StartWork(s);
        var i := BestOf(s);
        WorkFacts(s, i);
        left := SweepLevel(k, i, left);
        FinishWork(s, i);
        if stpHalt { return; }
      }
      ValidFacts();
      MatchDone(Abs(), k, left);
    }

    lemma ValidFacts()
      requires Valid()
      ensures Apart() && Engine.Valid(Abs()) && Abs().Indexed() && Abs().Shaped() && Abs().width == n &&
        Abs().min == min
      ensures bestBid == Abs().BestTick(Buy) && bestAsk == Abs().BestTick(Sell)
      ensures Abs().halted == halted && Abs().nextId == |places| && Abs().tape == tape && Abs().live == LiveOf(places)
      ensures Abs().last == if hasLast then Some(lastPx) else None
    {
      hide OpenOrders, PendingStops, State.ListedAt, StopsInBand, Best, Backed;
    }

    // ---- moves anywhere in the books ------------------------------------

    lemma SpaceFacts()
      requires Apart()
      ensures forall r: Shelf :: shelves[r].levels in Levels() && shelves[r].bits.words in Words()
    {}

    /** Stores a level and keeps its bit exact; `was` and `now` say whether it is empty. */
    method ShelfStore(s: Shelf, i: nat, l: Level, was: bool, now: bool)
      requires Apart() && Booked() && i < n && Tallied(l)
      requires was == (shelves[s].levels[i].fifo == []) && now == (l.fifo == [])
      modifies Levels(), Words()
      ensures Booked() && Queues() == old(Queues())[s := old(Queues())[s][i := l.fifo]]
    {
      hide LevelBook.ValidBut, LevelBook.Queues, LevelBook.Valid, Tallied, LevelsOf, WordsOf;
      AllBooked(s);
      SpaceFacts();
      StoreIn(shelves[s], i, l, was, now);
      forall r: Shelf ensures shelves[r].Valid() {}
    }

    /** Stores a level of one book and sets or clears its bit. */
    method StoreIn(book: LevelBook, i: nat, l: Level, was: bool, now: bool)
      requires book.Sized() && book.Valid() && i < book.n && Tallied(l)
      requires was == (book.levels[i].fifo == []) && now == (l.fifo == [])
      modifies book.levels, book.bits.words
      ensures book.Valid() && book.Queues() == old(book.Queues())[i := l.fifo]
    {
      hide LevelBook.ValidBut;
      book.Store(i, l);
      if was && !now {
        book.Mark(i);
      } else if !was && now {
        book.Unmark(i);
      }
    }

    /** Replaces level `i` of shelf `s` and the ids, leaving the best ticks alone; `pending`
        is the new stop count. */
    method Restock(s: Shelf, i: nat, l: Level, was: bool, now: bool, pending: nat, ghost ids: seq<Option<Place>>)
      requires Sound() && i < n && Tallied(l) && |ids| == |places| && Apart()
      requires was == (shelves[s].levels[i].fifo == []) && now == (l.fifo == [])
      requires pending == if s.stop then pendingStops - |shelves[s].levels[i].fifo| + |l.fifo| else pendingStops
      requires Engine.Valid(Abs().SetQueue(s, i, l.fifo, LiveOf(ids)))
      modifies this`inUse, this`pendingStops, this`places, Levels(), Words()
      ensures Core() && Booked() && Abs() == old(Abs()).SetQueue(s, i, l.fifo, LiveOf(ids)) && places == ids
      ensures Queues() == old(Queues())[s := old(Queues())[s][i := l.fifo]]
    {
      hide Abs, Counted, Engine.Valid, LevelBook.Queues, Queues, Booked, Quotes, LevelsOf, WordsOf;
      ghost var st := Abs();
      AbsIs();
      AbsGet(s);
      SetQueueKeeps(st, inUse, pendingStops, s, i, l.fifo, LiveOf(ids));
      inUse := inUse - |shelves[s].levels[i].fifo| + |l.fifo|;
      pendingStops := pending;
      places := ids;
      ShelfStore(s, i, l, was, now);
      AbsIs();
      assert Abs() == st.SetQueue(s, i, l.fifo, LiveOf(ids));
    }

    /** Tick `i` of side `s` has just become occupied: it may be the new best. */
    method QuoteNew(s: Side, i: nat)
      requires Core() && Booked() && i < n
      requires if s.Buy? then bestAsk == Abs().BestTick(Sell) && BestWith(Buy, bestBid, i) == Abs().BestTick(Buy)
               else bestBid == Abs().BestTick(Buy) && BestWith(Sell, bestAsk, i) == Abs().BestTick(Sell)
      modifies this`bestBid, this`bestAsk
      ensures Sound() && Abs() == old(Abs()) && Queues() == old(Queues())
    {
      hide Abs, Core, Booked, LevelsOf, WordsOf, State.BestTick;
      CoreApart();
      if s.Buy? {
        if bestBid < 0 || i > bestBid { bestBid := i; }
      } else {
        if bestAsk < 0 || i < bestAsk { bestAsk := i; }
      }
    }

    /** Tick `i` of side `s` has just emptied: if it was the best, hop to the next. */
    method QuoteNext(s: Side, i: nat)
      requires Core() && Booked() && i < n
      requires BestOf(s) != i ==> Quotes(Abs(), bestBid, bestAsk)
      requires if s.Buy? then bestAsk == Abs().BestTick(Sell) else bestBid == Abs().BestTick(Buy)
      requires BestOf(s) == i ==>
        forall j :: 0 <= j < |Abs().Get(Resting(s))| && Abs().Get(Resting(s))[j] != [] ==> Beats(s, i, j)
      modifies this`bestBid, this`bestAsk
      ensures Sound() && Abs() == old(Abs()) && Queues() == old(Queues())
    {
      hide Abs, Core, LevelBook.Valid, LevelBook.Queues;
      CoreApart();
      AbsGet(Resting(s));
      if BestOf(s) == i {
        var b := shelves[Resting(s)].NextBest(s, i);
        PutBest(s, b);
      }
    }

    /** Totals, bit, best tick, FIFO and ids when `o` joins a level. */
    method LevelLink(s: Shelf, i: nat, o: Order, vacant: bool)
      requires Sound() && Apart() && i < n && 0 < o.id < |places| && places[o.id].None?
      requires vacant == (shelves[s].levels[i].fifo == [])
      requires s.stop ==> o.market || Abs().InBand(o.limit)
      modifies this`inUse, this`pendingStops, this`places, this`bestBid, this`bestAsk, Levels(), Words()
      ensures Sound() && Abs() == Join(old(Abs()), s, i, o) && places == old(places)[o.id := Some(Place(s, i))]
      ensures Queues() == old(Queues())[s := old(Queues())[s][i := old(shelves[s].levels[i].fifo) + [o]]]
    {
      hide Sound, Queues, Abs, Core, Booked, Engine.Valid, LevelBook.Queues, LevelsOf, WordsOf, LiveOf, State.Indexed,
        State.BestTick, BestWith;
      ghost var st := Abs();
      SoundFacts(s, i);
      ghost var q := shelves[s].levels[i].fifo;
      JoinIndexed(st, s, i, o);
      LinkStops(st, s, i, o);
      TableJoin(places, o.id, Place(s, i));
      Restock(s, i, Pushed(shelves[s].levels[i], o), vacant, false, if s.stop then pendingStops + 1 else pendingStops,
              places[o.id := Some(Place(s, i))]);
      assert Abs() == Join(st, s, i, o);
      QuotesAfterSet(st, Abs(), s, i, q + [o]);
      if !s.stop && vacant { QuoteNew(s.side, i); } else { Resound(); }
    }

    /** Links a node at the tail of its level and enters it in the id table. */
    method Link(s: Shelf, i: nat, o: Order)
      requires Valid() && i < n && 0 < o.id < |places| && places[o.id].None? && Storable(Place(s, i), o)
      requires s.stop ==> o.market || Abs().InBand(o.limit)
      modifies this`inUse, this`pendingStops, this`places, this`bestBid, this`bestAsk, Repr()
      ensures Valid() && Abs() == Join(old(Abs()), s, i, o)
    {
      hide Valid, Sound, Backed, Agree, Queues, Abs, Levels, Words, State.Indexed, LiveOf, Slab.Valid, Slab.Where,
        Slab.Book,
        Slab.Queue, Slab.Vacant, Slab.First;
      ShelfHead(s, i);
      BookHas(s, i);
      ghost var m, book, q := slab.Book(), Queues(), shelves[s].levels[i].fifo;
      var vacant := slab.Vacant(Place(s, i));
      assert allocated(Levels()) && allocated(Words());
      slab.LookupFacts(o.id);
      slab.Push(Place(s, i), o);
      LevelLink(s, i, o, vacant);
      StillBacked(m, book, s, i, q + [o]);
      Revalid();
    }

    lemma Resound()
      requires Core() && Booked() && Quotes(Abs(), bestBid, bestAsk)
      ensures Sound()
    {}

    lemma Revalid()
      requires Sound() && Backed()
      ensures Valid()
    {}

    lemma SoundFacts(s: Shelf, i: nat)
      requires Sound() && i < n
      ensures Apart() && Sound() && Core() && Booked() && n == shelves[s].levels.Length && Engine.Valid(Abs()) &&
        Abs().Indexed() && Abs().width == n
      ensures Tallied(shelves[s].levels[i]) && Abs().Get(s) == shelves[s].Queues() && |Abs().Get(s)| == n
      ensures shelves[s].levels[i].fifo == Abs().Get(s)[i]
      ensures Quotes(Abs(), bestBid, bestAsk)
      ensures Abs().live == LiveOf(places) && Abs().nextId == |places|
    {
      hide OpenOrders, PendingStops, State.Indexed, StopsInBand, Quotes, Backed;
      AbsGet(s);
    }

    lemma ShelfFacts(s: Shelf, i: nat)
      requires Valid() && i < n
      ensures Apart() && Sound() && Core() && Booked() && n == shelves[s].levels.Length && Engine.Valid(Abs()) &&
        Abs().Indexed() && Abs().width == n
      ensures Tallied(shelves[s].levels[i]) && Abs().Get(s) == shelves[s].Queues() && |Abs().Get(s)| == n
      ensures shelves[s].levels[i].fifo == Abs().Get(s)[i]
      ensures Quotes(Abs(), bestBid, bestAsk)
      ensures Abs().live == LiveOf(places) && Abs().nextId == |places|
    {
      hide Sound, Backed;
      SoundFacts(s, i);
    }

    /** Totals, bit, best tick, FIFO and ids when `o`, at position `k`, leaves a level. */
    method LevelUnlink(s: Shelf, i: nat, ghost k: nat, o: Order, vacant: bool)
      requires Sound() && Apart() && i < n && k < |shelves[s].levels[i].fifo| && o == shelves[s].levels[i].fifo[k]
      requires vacant == (Without(shelves[s].levels[i].fifo, k) == [])
      modifies this`inUse, this`pendingStops, this`places, this`bestBid, this`bestAsk, Levels(), Words()
      ensures i < |old(Abs()).Get(s)| && k < |old(Abs()).Get(s)[i]|
      ensures Sound() && Abs() == Leave(old(Abs()), s, i, k) && o.id < |old(places)| &&
        places == old(places)[o.id := None]
      ensures Queues() == old(Queues())[s := old(Queues())[s][i := Without(old(shelves[s].levels[i].fifo), k)]]
    {
      hide Sound, Queues, Abs, Core, Booked, Engine.Valid, LevelBook.Queues, LevelsOf, WordsOf, LiveOf, State.Indexed,
        State.BestTick, BestWith;
      ghost var st := Abs();
      SoundFacts(s, i);
      ghost var q := shelves[s].levels[i].fifo;
      LeaveFacts(st, s, i, k);
      TableLeave(places, o.id);
      StopsCover(st, s, i);
      Restock(s, i, Unlinked(shelves[s].levels[i], k, o), false, vacant,
        if s.stop then pendingStops - 1 else pendingStops,
              places[o.id := None]);
      assert Abs() == Leave(st, s, i, k);
      QuotesAfterSet(st, Abs(), s, i, Without(q, k));
      if !s.stop && vacant { QuoteNext(s.side, i); } else { Resound(); }
    }

    /** Unlinks the node in slot `x`, `k` places behind the head of its level, and clears
        its id entry. */
    method Unlink(s: Shelf, i: nat, x: nat, ghost k: nat)
      requires Valid() && i < n && Apart() && slab.Valid() && SlotIs(s, i, k, x)
      modifies this`inUse, this`pendingStops, this`places, this`bestBid, this`bestAsk, Repr()
      ensures i < |old(Abs()).Get(s)| && k < |old(Abs()).Get(s)[i]|
      ensures Valid() && Abs() == Leave(old(Abs()), s, i, k)
    {
      hide Valid, Sound, Backed, Agree, Queues, Abs, Levels, Words, State.Indexed, LiveOf, Slab.Valid, Slab.Where,
        Slab.Book,
        Slab.Queue, Slab.Vacant, Slab.First;
      ShelfHead(s, i);
      BookHas(s, i);
      ghost var m, book, q := slab.Book(), Queues(), shelves[s].levels[i].fifo;
      var o := slab.OrderAt(x);
      assert allocated(Levels()) && allocated(Words());
      slab.Drop(x, k);
      BookedVacant(m, s, i, Without(q, k));
      LevelUnlink(s, i, k, o, slab.Vacant(Place(s, i)));
      StillBacked(m, book, s, i, Without(q, k));
      Revalid();
    }

    /** The stop counter covers every pending level. */
    lemma StopsCover(st: State, s: Shelf, i: nat)
      requires Sound() && st == Abs() && i < n && |st.Get(s)| == n
      ensures s.stop ==> |st.Get(s)[i]| <= pendingStops
    {
      hide Abs, Booked, Quotes, Engine.Valid, OpenOrders;
      SumOne(st.Get(s)[i]);
      SpanSplit(One, st.Get(s), 0, i, |st.Get(s)|);
      ShelfCases(s);
    }

    /** The head pointer after the slab's queue at a place became `q`. */
    lemma BookedVacant(m: map<Place, Queue>, s: Shelf, i: nat, q: Queue)
      requires slab.Valid() && slab.n == n && i < n && slab.Book() == m[Place(s, i) := q]
      ensures slab.Vacant(Place(s, i)) <==> q == []
    {
      hide Slab.Valid, Slab.Queue, Slab.Vacant, Slab.First;
      InPlaces(n, Place(s, i));
      slab.HeadFacts(Place(s, i));
    }

    /** Totals and FIFO when `was`, at position `k`, changes in place to `o`. */
    method LevelRevise(s: Side, i: nat, ghost k: nat, was: Order, o: Order)
      requires Sound() && Apart() && i < n && k < |shelves[Resting(s)].levels[i].fifo|
      requires was == shelves[Resting(s)].levels[i].fifo[k] && o.id == was.id
      modifies this`inUse, this`pendingStops, this`places, Levels(), Words()
      ensures i < |old(Abs()).Get(Resting(s))| && k < |old(Abs()).Get(Resting(s))[i]|
      ensures Sound() && Abs() == Amend(old(Abs()), Resting(s), i, k, o) && places == old(places)
      ensures Queues() ==
        old(Queues())[Resting(s) := old(Queues())[Resting(s)][i := old(shelves[Resting(s)].levels[i].fifo)[k := o]]]
    {
      hide Sound, Queues, Abs, Core, Booked, Engine.Valid, LevelBook.Queues, LevelsOf, WordsOf, LiveOf, State.Indexed,
        State.BestTick, BestWith;
      ghost var st := Abs();
      SoundFacts(Resting(s), i);
      ghost var q := shelves[Resting(s)].levels[i].fifo;
      AmendFacts(st, s, i, k, o);
      Restock(Resting(s), i, Revised(shelves[Resting(s)].levels[i], k, was, o), false, false, pendingStops, places);
      assert Abs() == Amend(st, Resting(s), i, k, o);
      QuotesAfterSet(st, Abs(), Resting(s), i, q[k := o]);
      Resound();
    }

    /** Changes a resting node in place; its level keeps its order. */
    method Revise(s: Side, i: nat, x: nat, ghost k: nat, o: Order)
      requires Valid() && i < n && Apart() && slab.Valid() && SlotIs(Resting(s), i, k, x)
      requires slab.OrderAt(x).(qty := o.qty, reserve := o.reserve) == o
      modifies this`inUse, this`pendingStops, this`places, Repr()
      ensures i < |old(Abs()).Get(Resting(s))| && k < |old(Abs()).Get(Resting(s))[i]|
      ensures Valid() && Abs() == Amend(old(Abs()), Resting(s), i, k, o)
    {
      hide Valid, Sound, Backed, Agree, Queues, Abs, Levels, Words, State.Indexed, LiveOf, Slab.Valid, Slab.Where,
        Slab.Book,
        Slab.Queue, Slab.Vacant, Slab.First;
      ShelfHead(Resting(s), i);
      BookHas(Resting(s), i);
      ghost var m, book, q := slab.Book(), Queues(), shelves[Resting(s)].levels[i].fifo;
      var was := slab.OrderAt(x);
      assert allocated(Levels()) && allocated(Words());
      slab.Amend(x, k, o);
      LevelRevise(s, i, k, was, o);
      StillBacked(m, book, Resting(s), i, q[k := o]);
      Revalid();
    }

    // ---- order entry ----------------------------------------------------

    /** Assigns the next id and announces the order. */
    method AcceptNew(side: Side, price: int, qty: nat) returns (id: nat)
      requires Idle()
      modifies this`places, this`tape, slab
      ensures Idle() && Abs() == Accept(old(Abs()), side, price, qty)
      ensures id == old(Abs()).nextId == |old(places)| && 0 < id < |places| && places[id].None? && id !in Abs().live
    {
      hide Abs, Counted, Booked, Queues, LevelsOf, WordsOf, Quotes, Agree, Slab.Valid, Slab.Where, Slab.Book;
      ghost var st := Abs();
      AbsIs();
      ValidFacts();
      WhereCounts();
      assert allocated(Levels()) && allocated(Words());
      id := slab.Register();
      Renumbered(st, Accept(st, side, price, qty), inUse, pendingStops);
      places := places + [None];
      tape := tape + [Accepted(id, side, price, qty)];
      AbsIs();
      DeadTail(old(places));
      assert Abs() == Accept(st, side, price, qty);
      QuotesSame(st, Abs(), bestBid, bestAsk);
    }

    lemma WhereCounts()
      requires Backed()
      ensures |slab.orders| == |places|
    {}

    /** Shows one clip when a peak is set and exceeded, else the whole quantity. */
    method RestOrder(id: nat, side: Side, tick: nat, qty: nat, t: Terms)
      requires Valid() && tick < n && qty > 0 && 0 < id < |places| && id !in Abs().live
      modifies this`inUse, this`pendingStops, this`places, this`bestBid, this`bestAsk, this`tape, Repr()
      ensures Valid() && Abs() == Rest(old(Abs()), id, side, tick, qty, t)
    {
      hide Valid, Abs, LiveOf;
      ValidFacts();
      TableNone(id);
      var o := Shape(id, qty, t);
      Link(Resting(side), tick, o);
      Emit(Rested(id, side, min + tick, o.qty));
    }

    lemma TableNone(id: nat)
      requires Valid() && id < |places| && id !in Abs().live
      ensures places[id].None?
    {
      hide Engine.Valid, OpenOrders, PendingStops, Backed;
    }

    method PlaceLimitOrder(id: nat, side: Side, tick: nat, qty: nat, tif: TimeInForce, t: Terms)
      requires Idle() && tick < n && qty > 0 && 0 < id < |places| && id !in Abs().live
      modifies this, Repr()
      ensures Idle() && Abs().Shaped() && Abs() == PlaceLimit(old(Abs()), id, side, tick, qty, tif, t)
    {
      hide Valid, Abs, Match, LiveOf, Rest, Engine.Valid, State.Indexed, Best;
      ghost var st := Abs();
      ValidFacts();
      if halted {
        RestOrder(id, side, tick, qty, t);
        ValidFacts();
        return;
      }
      var k := AsTaker(id, side, tick, t);
      MatchSteady(st, k, qty);
      var remaining := MatchSide(k, qty);
      ValidFacts();
      if stpHalt {
        LowerHalt();
        if remaining > 0 { Emit(Cancelled(id)); }
        ValidFacts();
        return;
      }
      if remaining > 0 {
        if tif == IOC || tif == FOK { Emit(Cancelled(id)); } else { RestOrder(id, side, tick, remaining, t); }
      }
      ValidFacts();
    }

    method LowerHalt()
      requires Valid()
      modifies this`stpHalt
      ensures Idle() && Abs() == old(Abs())
    {
      hide Abs, Counted, Quotes, Booked, LevelsOf, WordsOf, Core, Backed;
      CoreApart();
      stpHalt := false;
    }

    method WouldTake(side: Side, tick: int) returns (r: bool)
      requires Valid()
      ensures r == WouldCross(Abs(), side, tick)
    {
      hide Abs, Valid;
      ValidFacts();
      r := if side.Buy? then bestAsk >= 0 && bestAsk <= tick else bestBid >= 0 && bestBid >= tick;
    }

    /** The next occupied tick behind `i`: everything in between is empty. */
    method NextOccupied(s: Side, i: int) returns (b: int)
      requires Valid() && -1 <= i <= n
      ensures -1 <= b < n && (b >= 0 ==> Abs().Get(Resting(s))[b] != [] && Beats(s, i, b))
      ensures |Abs().Get(Resting(s))| == n
      ensures forall j :: 0 <= j < n && Beats(s, i, j) && (b < 0 || Beats(s, j, b)) ==> Abs().Get(Resting(s))[j] == []
    {
      hide Abs, Core, LevelBook.Valid, LevelBook.Queues;
      CoreApart();
      AbsGet(Resting(s));
      b := shelves[Resting(s)].Behind(s, i);
    }

    /** Displayed total plus hidden reserve of a level is what its orders can execute. */
    method LevelSize(s: Side, i: nat) returns (size: nat)
      requires Valid() && i < n
      ensures |Abs().Get(Resting(s))| == n && size == Sum(Size, Abs().Get(Resting(s))[i])
    {
      hide Valid, Abs;
      ShelfFacts(Resting(s), i);
      var lvl := shelves[Resting(s)].levels[i];
      SumSize(lvl.fifo);
      size := lvl.total + lvl.hidden;
    }

    /** Ask size at or below tick `limit`, abandoned once `want` is reached. */
    method FillableAsks(limit: nat, want: nat) returns (sum: nat)
      requires Valid() && limit < n
      ensures |Abs().Get(Resting(Sell))| == n &&
        (sum < want <==> Span(Size, Abs().Get(Resting(Sell)), 0, limit + 1) < want)
    {
      hide Valid, Abs, Engine.Valid, State.Indexed, LiveOf, Best, Span;
      ValidFacts();
      ghost var l := Abs().Get(Resting(Sell));
      ghost var done := 0;
      sum := 0;
      SpanNothing(Size, l, 0);
      var i := bestAsk;
      while 0 <= i <= limit && sum < want
        invariant -1 <= i < n && done <= limit + 1 && sum == Span(Size, l, 0, done)
        invariant i >= 0 ==> done <= i
        invariant forall j :: done <= j < (if i < 0 then n else i) ==> l[j] == []
        decreases if i < 0 then 0 else n - i
      {
        var size := LevelSize(Sell, i);
        sum := sum + size;
        SpanHop(l, 0, done, i);
        done := i + 1;
        i := NextOccupied(Sell, i);
      }
      SpanSplit(Size, l, 0, done, limit + 1);
      if sum < want { SpanEmpty(Size, l, done, limit + 1); }
    }

    /** Bid size at or above tick `limit`, abandoned once `want` is reached. */
    method FillableBids(limit: nat, want: nat) returns (sum: nat)
      requires Valid() && limit < n
      ensures |Abs().Get(Resting(Buy))| == n && (sum < want <==> Span(Size, Abs().Get(Resting(Buy)), limit, n) < want)
    {
      hide Valid, Abs, Engine.Valid, State.Indexed, LiveOf, Best, Span;
      ValidFacts();
      ghost var l := Abs().Get(Resting(Buy));
      ghost var done := n;
      sum := 0;
      SpanNothing(Size, l, n);
      var i := bestBid;
      while i >= 0 && i >= limit && sum < want
        invariant -1 <= i < done && limit <= done <= n && sum == Span(Size, l, done, n)
        invariant forall j :: i < j < done ==> l[j] == []
      {
        var size := LevelSize(Buy, i);
        sum := sum + size;
        SpanDrop(l, i, done, n);
        done := i;
        i := NextOccupied(Buy, i);
      }
      SpanSplit(Size, l, limit, done, n);
      if sum < want { SpanEmpty(Size, l, limit, done); }
    }

    /** Whether the other side holds `want` within the limit. */
    method Feasible(side: Side, price: int, want: nat) returns (ok: bool)
      requires Valid() && min <= price < min + n
      ensures Apart() && Abs().Shaped() && Abs().InBand(price) && ok == (Fillable(Abs(), side, price) >= want)
    {
      hide Valid, Abs, Engine.Valid, State.Indexed, LiveOf, Span;
      ValidFacts();
      var sum: nat;
      if side == Buy { sum := FillableAsks(price - min, want); } else { sum := FillableBids(price - min, want); }
      ok := sum >= want;
    }

    /** Whether an entry dies at once: the wrong kind for a halt, not fillable whole, or taking. */
    method Killed(side: Side, price: int, qty: nat, tif: TimeInForce) returns (dead: bool)
      requires Valid() && min <= price < min + n && qty > 0
      ensures Apart() && Abs().Shaped() && Abs().InBand(price)
      ensures dead == DiesOnEntry(Abs(), side, price, qty, tif)
    {
      hide Valid, Abs, LiveOf, Fillable, WouldCross;
      ValidFacts();
      if halted { return tif != GTC; }
      if tif == FOK {
        var ok := Feasible(side, price, qty);
        return !ok;
      }
      if tif == PostOnly {
        dead := WouldTake(side, price - min);
        return;
      }
      return false;
    }

    /** Shared tail of limit and iceberg entry: halt rules, feasibility, place. */
    method EnterOrder(side: Side, price: int, qty: nat, tif: TimeInForce, t: Terms) returns (id: nat)
      requires Idle() && Abs().InBand(price) && qty > 0
      modifies this, Repr()
      ensures old(Abs()).Shaped() && Idle() &&
        Result(Abs(), Assigned(id)) == Enter(old(Abs()), side, price, qty, tif, t)
    {
      hide Valid, Abs, LiveOf, PlaceLimit, Enter, DiesOnEntry;
      ghost var st := Abs();
      ValidFacts();
      EnterCases(st, side, price, qty, tif, t);
      id := AcceptNew(side, price, qty);
      ValidFacts();
      var dead := Killed(side, price, qty, tif);
      if dead { Emit(Cancelled(id)); } else { PlaceLimitOrder(id, side, price - min, qty, tif, t); }
    }

    method SubmitLimitOrder(side: Side, price: int, qty: nat, tif: TimeInForce, owner: nat, stp: StpPolicy)
      returns (id: nat)
      requires Idle()
      modifies this, Repr()
      ensures old(Abs()).Shaped() && Idle()
      ensures Result(Abs(), Assigned(id)) == DoSubmitLimit(old(Abs()), side, price, qty, tif, owner, stp)
    {
      hide Valid, Abs, Enter;
      ValidFacts();
      if !(min <= price < min + n) || qty == 0 { Emit(Rejected(0)); return 0; }
      id := EnterOrder(side, price, qty, tif, Terms(owner, stp, 0));
    }

    method SubmitIcebergOrder(side: Side, price: int, qty: nat, display: nat, tif: TimeInForce, owner: nat,
                              stp: StpPolicy)
      returns (id: nat)
      requires Idle()
      modifies this, Repr()
      ensures old(Abs()).Shaped() && Idle()
      ensures Result(Abs(), Assigned(id)) == DoSubmitIceberg(old(Abs()), side, price, qty, display, tif, owner, stp)
    {
      hide Valid, Abs, Enter;
      ValidFacts();
      if !(min <= price < min + n) || qty == 0 || display == 0 { Emit(Rejected(0)); return 0; }
      id := EnterOrder(side, price, qty, tif, Terms(owner, stp, display));
    }

    method SubmitMarketOrder(side: Side, qty: nat, owner: nat, stp: StpPolicy) returns (left: nat)
      requires Idle()
      modifies this, Repr()
      ensures Idle() && Result(Abs(), Unfilled(left)) == DoSubmitMarket(old(Abs()), side, qty, owner, stp)
    {
      hide Valid, Abs, Match;
      ValidFacts();
      if halted { Emit(Rejected(0)); return qty; }
      var id := AcceptNew(side, 0, qty);
      ValidFacts();
      left := MatchSide(AsTaker(id, side, if side.Buy? then n - 1 else 0, Terms(owner, stp, 0)), qty);
      LowerHalt();
    }

    // ---- stops ----------------------------------------------------------

    method ExecuteStopOrder(side: Side, o: Order)
      requires Idle() && (o.market || Abs().InBand(o.limit)) && 0 < o.id < |places| && o.id !in Abs().live
      modifies this, Repr()
      ensures Idle() && old(Abs()).Shaped() && Abs() == ExecuteStop(old(Abs()), side, o)
    {
      hide Valid, Abs, Match, LiveOf, PlaceLimit;
      ValidFacts();
      var t := Terms(o.owner, o.stp, 0);
      if o.market {
        var left := MatchSide(AsTaker(o.id, side, if side.Buy? then n - 1 else 0, t), o.qty);
        LowerHalt();
      } else {
        PlaceLimitOrder(o.id, side, o.limit - min, o.qty, GTC, t);
      }
    }

    method SubmitStopOrder(side: Side, trigger: int, limit: int, qty: nat, market: bool, owner: nat, stp: StpPolicy)
      returns (id: nat)
      requires Idle()
      modifies this, Repr()
      ensures old(Abs()).Shaped() && Idle()
      ensures Result(Abs(), Assigned(id)) == DoSubmitStop(old(Abs()), side, trigger, limit, qty, market, owner, stp)
    {
      hide Valid, Abs, LiveOf, ExecuteStop, Engine.Valid, Best, State.Indexed, Join, Accept;
      ValidFacts();
      if !(min <= trigger < min + n) || qty == 0 ||
        (!market && !(min <= limit < min + n))
      {
        Emit(Rejected(0));
        return 0;
      }
      id := AcceptNew(side, trigger, qty);
      ValidFacts();
      var o := Node(id, qty, owner, stp, 0, 0, market, if market then 0 else limit);
      if !halted && hasLast && (if side.Buy? then lastPx >= trigger else lastPx <= trigger) {
        ExecuteStopOrder(side, o);
      } else {
        Link(Pending(side), trigger - min, o);
      }
    }

    /** The place of the next armed stop, read off the stop bitmaps. */
    method NextTriggered() returns (p: Option<Place>)
      requires Valid()
      ensures p == NextStop(Abs())
    {
      hide Valid, Abs, Engine.Valid, State.Indexed, LevelBook.Queues;
      ValidFacts();
      if !hasLast { return None; }
      var b := StopExtreme(Sell, Buy);
      if b >= 0 && min + b <= lastPx { return Some(Place(Pending(Buy), b)); }
      var a := StopExtreme(Buy, Sell);
      if a >= 0 && min + a >= lastPx { return Some(Place(Pending(Sell), a)); }
      return None;
    }

    method StopExtreme(end: Side, s: Side) returns (b: int)
      requires Valid()
      ensures b == Best(end, Abs().Get(Pending(s)))
    {
      hide Abs, Core, LevelBook.Valid, LevelBook.Queues;
      CoreApart();
      AbsGet(Pending(s));
      b := shelves[Pending(s)].Extreme(end);
    }

    /** Fires the armed stop at `p`, and probes for the next. */
    method FireNext(p: Place) returns (q: Option<Place>)
      requires Idle() && Engine.Valid(Abs()) && !halted && NextStop(Abs()) == Some(p)
      modifies this, Repr()
      ensures Idle() && Engine.Valid(old(Abs())) && Engine.Valid(Abs()) && !halted && q == NextStop(Abs())
      ensures Pump(Abs()) == Pump(old(Abs())) && PendingStops(Abs()) < PendingStops(old(Abs()))
    {
      hide Valid, Abs, LiveOf, FireStop, NextStop, State.Indexed, StopsInBand, Engine.Valid, PendingStops;
      ghost var st := Abs();
      ValidFacts();
      FireStopFrame(st, p);
      FirePlace(p, st);
      ValidFacts();
      q := NextTriggered();
    }

    /** Fires every armed stop, cascades included; nothing fires during a halt. */
    method PumpStops()
      requires Idle()
      modifies this, Repr()
      ensures Engine.Valid(old(Abs())) && Idle() && Abs() == Pump(old(Abs()))
    {
      hide Idle, Abs, NextStop, Engine.Valid, PendingStops, FireStop;
      IdleFacts();
      if halted { return; }
      var p := NextTriggered();
      while p.Some?
        invariant Idle() && Engine.Valid(Abs()) && !halted && p == NextStop(Abs())
        invariant Pump(old(Abs())) == Pump(Abs())
        decreases PendingStops(Abs())
      {
        p := FireNext(p.value);
      }
      IdleFacts();
    }

    lemma IdleFacts()
      requires Idle()
      ensures Valid() && Engine.Valid(Abs()) && Abs().halted == halted && !stpHalt
    {
      hide Valid, Abs;
      ValidFacts();
    }

    method FirePlace(p: Place, ghost st: State)
      requires Idle() && p.shelf.stop && p.tick < n && st == Abs() && Engine.Valid(st) && st.width == n &&
        st.Get(p.shelf)[p.tick] != []
      requires var o := st.Get(p.shelf)[p.tick][0]; o.market || st.InBand(o.limit)
      modifies this, Repr()
      ensures Idle() && Abs() == FireStop(st, p)
    {
      hide Valid, Abs, LiveOf, ExecuteStop, LevelBook.Queues, State.ListedAt, StopsInBand, Backed, Agree,
        Slab.Valid, Slab.Queue, Slab.Vacant, Slab.First, Slab.Where, Slab.Book;
      ShelfFacts(p.shelf, p.tick);
      ShelfHead(p.shelf, p.tick);
      FireStopFrame(st, p);
      var x := slab.First(p);
      var o := slab.OrderAt(x);
      LeaveIndexed(st, p.shelf, p.tick, 0);
      Unlink(p.shelf, p.tick, x, 0);
      ValidFacts();
      ExecuteStopOrder(p.shelf.side, o);
    }

    // ---- cancel, reduce, modify -----------------------------------------

    /** The slot behind an id, or NIL. */
    method Lookup(id: nat) returns (x: int)
      requires Valid()
      ensures x != NIL <==> id in Abs().live
      ensures x == slab.Lookup(id) &&
        (x != NIL ==> 0 <= x < |slab.cells| && slab.cells[x].At() == Abs().live[id] && slab.cells[x].tick < n)
    {
      hide Valid, Abs, Slab.Valid, Slab.Where, Slab.Lookup;
      ValidFacts();
      SlabFacts();
      slab.LookupFacts(id);
      x := slab.Lookup(id);
    }

    lemma SlabFacts()
      requires Valid()
      ensures Backed() && slab.Valid() && slab.n == n && slab.Where() == places
    {
      hide Sound, Agree, Slab.Valid, Slab.Where;
    }

    /** The order in the slot behind a live id, and its position in its level. */
    method NodeOf(id: nat, x: nat) returns (o: Order, ghost k: nat)
      requires Valid() && id in Abs().live && x < |slab.cells| && x == slab.Lookup(id)
      ensures Abs().Indexed() && k == Seat(Abs(), id) && o == OrderOf(Abs(), id) && Abs().live[id].tick < n
      ensures var p := Abs().live[id]; Apart() && slab.Valid() && SlotIs(p.shelf, p.tick, k, x) && o == slab.OrderAt(x)
    {
      hide Valid, Abs, LevelBook.Queues, Slab.Valid, Slab.Where, Slab.Queue, Slab.Book, Slab.Lookup, Slab.Vacant,
        Slab.First, Backed, Agree;
      ValidFacts();
      SlabFacts();
      slab.LookupFacts(id);
      slab.TableIsExact(id);
      ghost var p := slab.cells[x].At();
      ShelfFacts(p.shelf, p.tick);
      ShelfHead(p.shelf, p.tick);
      slab.ChainFacts(p);
      k :| 0 <= k < |slab.chains[p]| && slab.chains[p][k] == x;
      slab.SlotFacts(p, k);
      Locate(Abs(), p.shelf, p.tick, k);
      o := slab.OrderAt(x);
    }

    method RemoveLive(id: nat, x: nat)
      requires Idle() && id in Abs().live && x < |slab.cells| && x == slab.Lookup(id)
      modifies this`inUse, this`pendingStops, this`places, this`bestBid, this`bestAsk, Repr()
      ensures Idle() && old(Abs()).Indexed() && Abs() == Remove(old(Abs()), id)
    {
      hide Valid, Abs, State.Indexed, SlotIs, Slab.Valid, Slab.Lookup;
      ghost var p := Abs().live[id];
      var o, k := NodeOf(id, x);
      SlotPlace(p.shelf, p.tick, k, x);
      Unlink(Shelf(slab.cells[x].stop, slab.cells[x].side), slab.cells[x].tick, x, k);
    }

    lemma SlotPlace(s: Shelf, i: nat, k: nat, x: nat)
      requires Apart() && slab.Valid() && i < n && SlotIs(s, i, k, x)
      ensures x < |slab.cells| && slab.cells[x].At() == Place(s, i)
    {}

    method CancelOrder(id: nat) returns (ok: bool)
      requires Idle()
      modifies this, Repr()
      ensures Idle() && old(Abs()).Indexed() && Result(Abs(), Answer(ok)) == DoCancel(old(Abs()), id)
    {
      hide Valid, Abs, Remove, Slab.Lookup;
      ValidFacts();
      var x := Lookup(id);
      if x == NIL { return false; }
      RemoveLive(id, x);
      Emit(Cancelled(id));
      ok := true;
    }

    method ReduceOrder(id: nat, delta: nat) returns (ok: bool)
      requires Idle()
      modifies this, Repr()
      ensures Idle() && old(Abs()).Indexed() && Result(Abs(), Answer(ok)) == DoReduce(old(Abs()), id, delta)
    {
      hide Valid, Abs, Remove, LiveOf, State.Indexed, Engine.Valid, Amend, Shave, OrderOf, Seat, SlotIs, Slab.Valid,
        Slab.Lookup;
      ValidFacts();
      var x := Lookup(id);
      if x == NIL || slab.cells[x].stop { return false; }
      var o, k := NodeOf(id, x);
      ok := true;
      if delta >= o.qty + o.reserve {
        RemoveLive(id, x);
      } else {
        ShaveSizes(o, delta);
        Revise(slab.cells[x].side, slab.cells[x].tick, x, k, Shave(o, delta));
      }
    }

    method ReplaceOrder(id: nat, x: nat, o: Order, price: int, qty: nat)
      requires Idle() && Abs().Indexed() && id in Abs().live && x < |slab.cells| && x == slab.Lookup(id)
      requires slab.cells[x].At() == Abs().live[id] && o == OrderOf(Abs(), id)
      requires Abs().InBand(price) && qty > 0
      modifies this, Repr()
      ensures Idle() && old(Abs()).Indexed() && Abs() == CancelReplace(old(Abs()), id, price, qty)
    {
      hide Valid, Abs, Remove, PlaceLimit, LiveOf, Engine.Valid, Best, State.ListedAt, Slab.Lookup;
      ghost var st := Abs();
      ValidFacts();
      RemoveValid(st, id);
      var side := slab.cells[x].side;
      RemoveLive(id, x);
      Emit(Cancelled(id));
      Emit(Accepted(id, side, price, qty));
      ValidFacts();
      PlaceLimitOrder(id, side, price - min, qty, GTC, Terms(o.owner, o.stp, o.peak));
    }

    method ModifyOrder(id: nat, price: int, qty: nat) returns (ok: bool)
      requires Idle()
      modifies this, Repr()
      ensures Idle() && old(Abs()).Indexed() && Result(Abs(), Answer(ok)) == DoModify(old(Abs()), id, price, qty)
    {
      hide Valid, Abs, DoReduce, DoCancel, CancelReplace, LiveOf, Engine.Valid, Best, State.ListedAt, SlotIs,
        Slab.Valid, Slab.Lookup;
      ValidFacts();
      var x := Lookup(id);
      if x == NIL || (slab.cells[x].stop && qty != 0) { return false; }
      if qty == 0 { ok := CancelOrder(id); return; }
      if !(min <= price < min + n) { return false; }
      var o, k := NodeOf(id, x);
      if price - min == slab.cells[x].tick && qty <= o.qty + o.reserve {
        ok := ReduceOrder(id, o.qty + o.reserve - qty);
        return;
      }
      ReplaceOrder(id, x, o, price, qty);
      ok := true;
    }

    // ---- auction --------------------------------------------------------

    /** Executes `f` of the head of tick `i`, displayed clip first, then reserve. */
    method CrossFillAt(s: Side, i: nat, f: nat, price: int)
      requires Working(s, i) && shelves[Resting(s)].Queues()[i] != []
      requires 0 < f <= Size(shelves[Resting(s)].Queues()[i][0])
      modifies this`places, this`inUse, this`tape, Levels(), slab, slab.pool
      ensures Working(s, i) && Abs() == CrossFill(old(Abs()), s, i, f, price)
    {
      hide Working, Abs, LiveOf, LevelBook.Queues, Engine.Valid, State.Indexed;
      WorkFacts(s, i);
      var head := Peek(s, i);
      var o := head.value;
      if f < o.qty {
        AmendHead(s, i, o.(qty := o.qty - f));
        return;
      }
      var left := o.reserve - (f - o.qty);
      if left > 0 {
        var o' := Reload(o.(reserve := left));
        EmitAtWork(s, i, Rested(o.id, s, price, o'.qty));
        WorkFacts(s, i);
        RotateHead(s, i, o');
      } else {
        PopHead(s, i);
      }
    }

    /** The order at the head of an occupied level. */
    method HeadOrder(s: Side, i: nat) returns (o: Order)
      requires Valid() && i < n && |Abs().Get(Resting(s))| == n && Abs().Get(Resting(s))[i] != []
      ensures o == Abs().Get(Resting(s))[i][0]
    {
      hide Valid, Abs, Backed, Slab.Valid, Slab.Queue, Slab.Vacant, Slab.First, Slab.Where, Slab.Book;
      ShelfFacts(Resting(s), i);
      ShelfHead(Resting(s), i);
      o := slab.OrderAt(slab.First(Place(Resting(s), i)));
    }

    /** One print between the two best heads. */
    method CrossOnce(p: nat) returns (f: nat)
      requires Valid() && Abs().Shaped() && Overlaps(Abs())
      modifies this, Repr()
      ensures Valid() && Abs() == CrossStep(old(Abs()), p) && f == CrossQty(old(Abs())) && stpHalt == old(stpHalt)
    {
      hide Valid, Working, Abs, CrossFill, LevelBook.Queues, Engine.Valid, State.Indexed, Best;
      ghost var st := Abs();
      ValidFacts();
      var b, a := bestBid, bestAsk;
      var bid := HeadOrder(Buy, b);
      var ask := HeadOrder(Sell, a);
      f := Min(Size(bid), Size(ask));
      CrossBuyHalf(b, f, p, Traded(bid.id, ask.id, min + p, f, Buy));
      CrossSellHalf(st, a, f, p);
    }

    method CrossBuyHalf(b: nat, f: nat, p: nat, trade: Event)
      requires Valid() && b == bestBid && Abs().Shaped() && b < n && |Abs().Get(Resting(Buy))| == n
      requires Abs().Get(Resting(Buy))[b] != [] && 0 < f <= Size(Abs().Get(Resting(Buy))[b][0])
      modifies this, Repr()
      ensures Valid() && Abs() == CrossFill(old(Abs()).Print(min + p, trade), Buy, b, f, min + p) &&
        stpHalt == old(stpHalt)
    {
      hide Valid, Working, Abs, CrossFill, LevelBook.Queues, Engine.Valid, State.Indexed, Best;
      StartWork(Buy);
      WorkFacts(Buy, b);
      PrintAtWork(Buy, b, min + p, trade);
      WorkFacts(Buy, b);
      CrossFillAt(Buy, b, f, min + p);
      FinishWork(Buy, b);
    }

    method CrossSellHalf(ghost st: State, a: nat, f: nat, p: nat)
      requires Valid() && st.Shaped() && Overlaps(st) && a == st.BestTick(Sell) && f == CrossQty(st)
      requires var b := st.BestTick(Buy);
        var trade := Traded(Bids(st)[b][0].id, Asks(st)[a][0].id, st.min + p, f, Buy);
        Abs() == CrossFill(st.Print(st.min + p, trade), Buy, b, f, st.min + p) && st.min == min
      modifies this, Repr()
      ensures Valid() && Abs() == CrossStep(st, p) && stpHalt == old(stpHalt)
    {
      hide Valid, Working, Abs, CrossFill, LevelBook.Queues, Engine.Valid, State.Indexed, Best, LiveOf;
      ValidFacts();
      var b := st.BestTick(Buy);
      CrossFillShape(st.Print(st.min + p, Traded(Bids(st)[b][0].id, Asks(st)[a][0].id, st.min + p, f, Buy)), Buy, b,
        f, st.min + p);
      assert Asks(Abs()) == Asks(st);
      StartWork(Sell);
      WorkFacts(Sell, a);
      CrossFillAt(Sell, a, f, min + p);
      FinishWork(Sell, a);
    }

    /** Cumulative ask size over the overlap `lo..hi`. */
    method SupplyCurve(lo: nat, hi: nat) returns (supply: array<nat>)
      requires Valid() && lo <= hi < n && Abs().BestTick(Sell) == lo
      ensures fresh(supply) && supply.Length == hi - lo + 1 && |Asks(Abs())| == n
      ensures forall k :: 0 <= k < supply.Length ==> supply[k] == Supply(Abs(), lo + k)
    {
      hide Valid, Abs, Engine.Valid, State.Indexed;
      ValidFacts();
      ghost var st := Abs();
      assert allocated(Repr());
      supply := new nat[hi - lo + 1];
      var acc := 0;
      SpanEmpty(Size, Asks(st), 0, lo);
      for k := 0 to supply.Length
        invariant Valid() && Abs() == st && acc == Span(Size, Asks(st), 0, lo + k)
        invariant forall j :: 0 <= j < k ==> supply[j] == Supply(st, lo + j)
      {
        var size := LevelSize(Sell, lo + k);
        SpanSplit(Size, Asks(st), 0, lo + k, lo + k + 1);
        acc := acc + size;
        supply[k] := acc;
      }
    }

    /** Cumulative bid size over the overlap, from the top down. */
    method DemandCurve(lo: nat, hi: nat) returns (demand: array<nat>)
      requires Valid() && lo <= hi < n && Abs().BestTick(Buy) == hi
      ensures fresh(demand) && demand.Length == hi - lo + 1 && |Bids(Abs())| == n
      ensures forall k :: 0 <= k < demand.Length ==> demand[k] == Demand(Abs(), lo + k)
    {
      hide Valid, Abs, Engine.Valid, State.Indexed;
      ValidFacts();
      ghost var st := Abs();
      assert allocated(Repr());
      demand := new nat[hi - lo + 1];
      var acc := 0;
      SpanEmpty(Size, Bids(st), hi + 1, n);
      for k := demand.Length downto 0
        invariant Valid() && Abs() == st && acc == Span(Size, Bids(st), lo + k, n)
        invariant forall j :: k <= j < demand.Length ==> demand[j] == Demand(st, lo + j)
      {
        var size := LevelSize(Buy, lo + k);
        acc := acc + size;
        demand[k] := acc;
      }
    }

    /** Picks the clearing tick: most volume, least imbalance, nearest the last trade, lowest. */
    method PickClearing(lo: nat, hi: nat) returns (best: Pick)
      requires Valid() && lo <= hi < n && Abs().BestTick(Sell) == lo && Abs().BestTick(Buy) == hi
      ensures |Asks(Abs())| == |Bids(Abs())| == n && best == Scan(Abs(), lo, hi + 1)
    {
      hide Valid, Abs, Engine.Valid, State.Indexed, Supply, Demand;
      ValidFacts();
      ghost var st := Abs();
      var supply := SupplyCurve(lo, hi);
      var demand := DemandCurve(lo, hi);
      best := Pick(lo, 0, 0);
      for k := 0 to hi - lo + 1
        invariant Valid() && Abs() == st && best == Scan(st, lo, lo + k) && best.tick < n
        invariant forall j :: 0 <= j < supply.Length ==>
          supply[j] == Supply(st, lo + j) && demand[j] == Demand(st, lo + j)
      {
        var ex := if demand[k] < supply[k] then demand[k] else supply[k];
        var imb := if demand[k] > supply[k] then demand[k] - supply[k] else supply[k] - demand[k];
        var better := ex > best.exec;
        if !better && ex == best.exec && ex > 0 {
          if imb != best.imb {
            better := imb < best.imb;
          } else if hasLast {
            better := Types.Abs(min + lo + k - lastPx) < Types.Abs(min + best.tick - lastPx);
          }
        }
        if better { best := Pick(lo + k, ex, imb); }
      }
    }

    /** Crosses the overlapped book at one price; returns the executed quantity. */
    method UncrossOrders() returns (crossed: nat)
      requires Idle()
      modifies this, Repr()
      ensures Idle() && old(Abs()).Shaped() && Cross(Abs(), crossed) == Uncross(old(Abs()))
    {
      hide Valid, Abs, Engine.Valid, State.Indexed, Best, CrossStep, Scan;
      ghost var st := Abs();
      ValidFacts();
      if bestBid < 0 || bestAsk < 0 || bestBid < bestAsk { return 0; }
      ClearingExecutes(st);
      var best := PickClearing(bestAsk, bestBid);
      // An overlap always executes something, so the zero-volume exit is dead.
      assert best.exec > 0;
      crossed := CrossAll(best.tick);
    }

    /** The fill loop at tick `p`. */
    method CrossAll(p: nat) returns (crossed: nat)
      requires Idle() && p < n
      modifies this, Repr()
      ensures Idle() && old(Abs()).Shaped() && Cross(Abs(), crossed) == CrossLoop(old(Abs()), p, 0)
    {
      hide Valid, Abs, Engine.Valid, State.Indexed, Best, CrossStep;
      ghost var st := Abs();
      ValidFacts();
      crossed := 0;
      while bestBid >= p && bestAsk >= 0 && bestAsk <= p
        invariant Idle() && Abs().Shaped()
        invariant bestBid == Abs().BestTick(Buy) && bestAsk == Abs().BestTick(Sell)
        invariant CrossLoop(Abs(), p, crossed) == CrossLoop(st, p, 0)
        decreases Count(Bids(Abs())) + Count(Asks(Abs()))
      {
        CrossStepShape(Abs(), p);
        var f := CrossOnce(p);
        crossed := crossed + f;
        ValidFacts();
      }
    }

    // ---- the public surface ---------------------------------------------

    method SetHalted(h: bool)
      requires Idle()
      modifies this`halted
      ensures Idle() && Abs() == old(Abs()).(halted := h)
    {
      hide Abs, Counted, Booked, Queues, LevelsOf, WordsOf, Quotes, Backed;
      ghost var st := Abs();
      AbsIs();
      CoreApart();
      HaltCounted(st, h, inUse, pendingStops);
      halted := h;
      AbsIs();
      QuotesSame(st, Abs(), bestBid, bestAsk);
    }

    /** One public call: the operation, then the stop pump. */
    method Apply(op: Op) returns (reply: Reply)
      requires Idle()
      modifies this, Repr()
      ensures Engine.Valid(old(Abs())) && Idle()
      ensures Result(Abs(), reply) == Step(old(Abs()), op)
    {
      hide Valid, Abs, Do, Pump, Engine.Valid, State.Indexed;
      ValidFacts();
      reply := Perform(op);
      PumpStops();
    }

    method Perform(op: Op) returns (reply: Reply)
      requires Idle()
      modifies this, Repr()
      ensures old(Abs()).Indexed() && Idle() && Result(Abs(), reply) == Do(old(Abs()), op)
    {
      hide Valid, Abs, Engine.Valid, State.Indexed, DoSubmitLimit, DoSubmitMarket, DoSubmitIceberg, DoSubmitStop,
           DoCancel, DoReduce, DoModify, Uncross;
      ValidFacts();
      match op {
        case SubmitLimit(side, price, qty, tif, owner, stp) =>
          var id := SubmitLimitOrder(side, price, qty, tif, owner, stp);
          reply := Assigned(id);
        case SubmitMarket(side, qty, owner, stp) =>
          var left := SubmitMarketOrder(side, qty, owner, stp);
          reply := Unfilled(left);
        case SubmitIceberg(side, price, qty, display, tif, owner, stp) =>
          var id := SubmitIcebergOrder(side, price, qty, display, tif, owner, stp);
          reply := Assigned(id);
        case SubmitStop(side, trigger, qty, owner, stp) =>
          var id := SubmitStopOrder(side, trigger, 0, qty, true, owner, stp);
          reply := Assigned(id);
        case SubmitStopLimit(side, trigger, limit, qty, owner, stp) =>
          var id := SubmitStopOrder(side, trigger, limit, qty, false, owner, stp);
          reply := Assigned(id);
        case Cancel(id) =>
          var ok := CancelOrder(id);
          reply := Answer(ok);
        case Reduce(id, delta) =>
          var ok := ReduceOrder(id, delta);
          reply := Answer(ok);
        case Modify(id, price, qty) =>
          var ok := ModifyOrder(id, price, qty);
          reply := Answer(ok);
        case Halt =>
          SetHalted(true);
          reply := Silent;
        case Resume =>
          SetHalted(false);
          reply := Silent;
        case UncrossBook =>
          var crossed := UncrossOrders();
          reply := Crossed(crossed);
      }
    }

    /** Slots handed out by the pool. */
    function OpenCount(): int
      reads slab, slab.pool
    {
      slab.pool.capacity - |slab.pool.free|
    }

    /** The pool holds exactly the resting orders and the pending stops. */
    lemma OpenCountIsExact()
      requires Valid()
      ensures OpenCount() == OpenOrders(Abs()) && pendingStops == PendingStops(Abs())
      ensures OpenCount() == |Abs().live|
    {
      hide Abs, Booked, Quotes, OpenOrders, PendingStops, Agree, Slab.Where, Engine.Valid, Queues;
      ValidFacts();
      slab.UsedIsLive();
      assert (set id | 0 <= id < |slab.Where()| && slab.Where()[id].Some?) == Abs().live.Keys;
      OpenIsLive(Abs());
    }
  }
}
