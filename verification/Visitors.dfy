/** The engine's walks over the book in priority order and the pending stops in trigger order. */
module Visitors {
  import opened Types
  import opened Ladders
  import opened Book
  import opened LevelBooks
  import opened Slabs
  import opened FastEngine
  import opened Walks

  // ---- the engine's visitors ------------------------------------------

  lemma EngineFacts(e: MatchingEngine)
    requires e.Idle()
    ensures e.Valid() && Engine.Valid(e.Abs()) && e.Abs().tape == e.tape && e.Levels() <= e.Repr()
  {
    hide MatchingEngine.Valid, MatchingEngine.Abs;
    e.ValidFacts();
  }

  /** One level of the walk, and the hop behind it. */
  method VisitLevel(e: MatchingEngine, s: Side, i: nat) returns (spots: seq<Spot>, b: int)
    requires e.Valid() && i < e.n
    ensures |e.Abs().Get(Resting(s))| == e.n && -1 <= b < e.n
    ensures b >= 0 ==> Beats(s, i, b)
    ensures WalkFrom(s, e.Abs().Get(Resting(s)), i) == spots + WalkFrom(s, e.Abs().Get(Resting(s)), b)
  {
    hide MatchingEngine.Valid, MatchingEngine.Abs, Engine.Valid, State.Indexed, WalkFrom, Tallied, LiveOf,
      MatchingEngine.Core, MatchingEngine.Booked, Quotes, LevelBook.Queues, Spots, MatchingEngine.Backed, Agree,
        Slab.Valid,
      Slab.Queue, Slab.Vacant, Slab.First, Slab.Where, Slab.Book, MatchingEngine.SlotIs;
    e.ShelfFacts(Resting(s), i);
    e.ShelfHead(Resting(s), i);
    b := e.NextOccupied(s, i);
    WalkHops(s, e.Abs().Get(Resting(s)), i, b);
    var q := e.slab.List(Place(Resting(s), i));
    spots := Spots(q, i);
  }

  /** The resting orders of one side, best price first and in queue order, by bitmap hops. */
  method VisitOrders(e: MatchingEngine, s: Side) returns (seen: seq<Spot>)
    requires e.Valid()
    ensures seen == Walk(s, e.Abs().Get(Resting(s)))
  {
    hide MatchingEngine.Valid, MatchingEngine.Abs, Engine.Valid, State.Indexed, Best, Walk, WalkFrom, LiveOf;
    e.ValidFacts();
    ghost var l := e.Abs().Get(Resting(s));
    var i := if s.Buy? then e.bestBid else e.bestAsk;
    seen := [];
    WalkStarts(s, l);
    WalkEnds(s, l);
    while i >= 0
      invariant -1 <= i < |l| == e.n
      invariant seen + WalkFrom(s, l, i) == Walk(s, l)
      decreases if i < 0 then 0 else if s.Buy? then i + 1 else e.n - i
    {
      var spots, b := VisitLevel(e, s, i);
      seen, i := seen + spots, b;
    }
  }

  /** One level as a consumer sees it, and the hop behind it. */
  method ViewLevel(e: MatchingEngine, s: Side, i: nat) returns (v: LevelView, b: int)
    requires e.Valid() && i < e.n
    ensures var l := e.Abs().Get(Resting(s));
      && |l| == e.n && -1 <= b < e.n && (b >= 0 ==> Beats(s, i, b) && l[b] != [])
      && (forall j :: 0 <= j < |l| && Beats(s, i, j) && (b < 0 || Beats(s, j, b)) ==> l[j] == [])
      && v == LevelView(e.min + i, Sum(Shown, l[i]), |l[i]|)
  {
    hide MatchingEngine.Valid, MatchingEngine.Abs, Engine.Valid, State.Indexed, LiveOf, MatchingEngine.Core,
      MatchingEngine.Booked, Quotes, LevelBook.Queues, MatchingEngine.Backed, Agree, Slab.Valid;
    e.ShelfFacts(Resting(s), i);
    var lvl := e.shelves[Resting(s)].levels[i];
    v := LevelView(e.min + i, lvl.total, lvl.count);
    b := e.NextOccupied(s, i);
  }

  /** The best `max` occupied levels of one side, best first, by bitmap hops. */
  method VisitLevels(e: MatchingEngine, s: Side, max: nat) returns (views: seq<LevelView>)
    requires e.Valid()
    ensures IsTop(s, e.Abs().Get(Resting(s)), e.min, max, views)
  {
    hide MatchingEngine.Valid, MatchingEngine.Abs, Engine.Valid, State.Indexed, Best, TopSoFar, IsTop, LiveOf;
    e.ValidFacts();
    ghost var l := e.Abs().Get(Resting(s));
    var i := if s.Buy? then e.bestBid else e.bestAsk;
    views := [];
    TopStarts(s, l, e.min);
    while i >= 0 && |views| < max
      invariant -1 <= i < |l| == e.n && |views| <= max && TopSoFar(s, l, e.min, views, i)
      decreases max - |views|
    {
      var v, b := ViewLevel(e, s, i);
      TopHops(s, l, e.min, views, i, b, v);
      views, i := views + [v], b;
    }
    TopEnds(s, l, e.min, max, views, i);
  }

  /** A pending-stop level and the hop behind it. */
  method VisitStopLevel(e: MatchingEngine, s: Side, i: nat) returns (spots: seq<Spot>, b: int)
    requires e.Valid() && i < e.n
    ensures |e.Abs().Get(Pending(s))| == e.n && -1 <= b < e.n
    ensures b >= 0 ==> Beats(s.Opposite(), i, b)
    ensures WalkFrom(s.Opposite(), e.Abs().Get(Pending(s)), i) == spots +
      WalkFrom(s.Opposite(), e.Abs().Get(Pending(s)), b)
  {
    hide MatchingEngine.Valid, MatchingEngine.Abs, Engine.Valid, State.Indexed, WalkFrom, Tallied, LiveOf,
      MatchingEngine.Core, Quotes, LevelBook.Queues, LevelBook.Valid, Spots, MatchingEngine.Backed, Agree, Slab.Valid,
      Slab.Queue, Slab.Vacant, Slab.First, Slab.Where, Slab.Book, MatchingEngine.SlotIs;
    e.ShelfFacts(Pending(s), i);
    e.ShelfHead(Pending(s), i);
    b := e.shelves[Pending(s)].Behind(s.Opposite(), i);
    WalkHops(s.Opposite(), e.Abs().Get(Pending(s)), i, b);
    var q := e.slab.List(Place(Pending(s), i));
    spots := Spots(q, i);
  }

  /** The pending stops of one side in trigger order: buys from the lowest, sells from the highest. */
  method VisitStops(e: MatchingEngine, s: Side) returns (seen: seq<Spot>)
    requires e.Valid()
    ensures seen == Walk(s.Opposite(), e.Abs().Get(Pending(s)))
  {
    hide MatchingEngine.Valid, MatchingEngine.Abs, Engine.Valid, State.Indexed, Best, Walk, WalkFrom, LiveOf;
    e.ValidFacts();
    ghost var l := e.Abs().Get(Pending(s));
    var i := e.StopExtreme(s.Opposite(), s);
    seen := [];
    WalkStarts(s.Opposite(), l);
    WalkEnds(s.Opposite(), l);
    while i >= 0
      invariant -1 <= i < |l| == e.n
      invariant seen + WalkFrom(s.Opposite(), l, i) == Walk(s.Opposite(), l)
      decreases if i < 0 then 0 else if s.Sell? then i + 1 else e.n - i
    {
      var spots, b := VisitStopLevel(e, s, i);
      seen, i := seen + spots, b;
    }
  }
}
