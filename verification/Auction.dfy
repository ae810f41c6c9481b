/** The call-auction uncross: choice of the clearing tick and the crossing loop. */
module Auction {
  import opened Types
  import opened Ladders
  import opened Book
  import opened Matching
  import opened SweepLaws

  // ---- supply and demand ----------------------------------------------

  function Bids(st: State): Ladder { st.Get(Resting(Buy)) }
  function Asks(st: State): Ladder { st.Get(Resting(Sell)) }

  /** Size bid at tick `p` or higher, hidden reserve included. */
  function Demand(st: State, p: nat): nat
    requires p <= |Bids(st)|
  {
    Span(Size, Bids(st), p, |Bids(st)|)
  }

  /** Size offered at tick `p` or lower. */
  function Supply(st: State, p: nat): nat
    requires p < |Asks(st)|
  {
    Span(Size, Asks(st), 0, p + 1)
  }

  function Executes(st: State, p: nat): nat
    requires p < |Bids(st)| == |Asks(st)|
  {
    Min(Demand(st, p), Supply(st, p))
  }

  function Imbalance(st: State, p: nat): nat
    requires p < |Bids(st)| == |Asks(st)|
  {
    Abs(Demand(st, p) - Supply(st, p))
  }

  /** Distance to the last trade; no last trade makes all ticks equally near. */
  function Distance(st: State, p: nat): nat {
    match st.last
    case None => 0
    case Some(px) => Abs(st.min + p - px)
  }

  /** Tick `p` clears at least as well as `q`: most volume, then least imbalance,
      then nearest the last trade, then lowest. */
  predicate ClearsAsWell(st: State, p: nat, q: nat)
    requires p < |Bids(st)| == |Asks(st)| && q < |Bids(st)|
  {
    || Executes(st, p) > Executes(st, q)
    || (Executes(st, p) == Executes(st, q) &&
        (|| Imbalance(st, p) < Imbalance(st, q)
         || (Imbalance(st, p) == Imbalance(st, q) &&
             (|| Distance(st, p) < Distance(st, q)
              || (Distance(st, p) == Distance(st, q) && p <= q)))))
  }

  predicate Overlaps(st: State) {
    st.BestTick(Buy) >= 0 && st.BestTick(Sell) >= 0 && st.BestTick(Buy) >= st.BestTick(Sell)
  }

  // ---- the scan over the overlap --------------------------------------

  /** The best candidate so far, as the scan keeps it. */
  datatype Pick = Pick(tick: nat, exec: nat, imb: nat)

  function Improve(st: State, c: Pick, p: nat): Pick
    requires p < |Bids(st)| == |Asks(st)|
  {
    var ex, imb := Executes(st, p), Imbalance(st, p);
    var better :=
      || ex > c.exec
      || (ex == c.exec && ex > 0 &&
          if imb != c.imb then imb < c.imb
          else st.last.Some? && Distance(st, p) < Distance(st, c.tick));
    if better then Pick(p, ex, imb) else c
  }

  function Scan(st: State, lo: nat, hi: nat): Pick
    requires lo <= hi <= |Bids(st)| == |Asks(st)|
    decreases hi - lo
  {
    if lo == hi then Pick(lo, 0, 0) else Improve(st, Scan(st, lo, hi - 1), hi - 1)
  }

  lemma {:induction false} ScanPicksBest(st: State, lo: nat, hi: nat, q: nat)
    requires lo <= hi <= |Bids(st)| == |Asks(st)|
    ensures var c := Scan(st, lo, hi);
      && (c.exec > 0 ==> lo <= c.tick < hi && c.exec == Executes(st, c.tick) && c.imb == Imbalance(st, c.tick))
      && (lo <= q < hi && Executes(st, q) > 0 ==> c.exec > 0 && ClearsAsWell(st, c.tick, q))
    decreases hi - lo
  {
    if lo < hi {
      ScanPicksBest(st, lo, hi - 1, q);
    }
  }

  /** The clearing tick of an overlapping book. */
  function ClearingTick(st: State): (p: nat)
    requires st.Shaped() && Overlaps(st)
    ensures st.BestTick(Sell) <= p <= st.BestTick(Buy)
  {
    ClearingExecutes(st);
    Scan(st, st.BestTick(Sell), st.BestTick(Buy) + 1).tick
  }

  lemma ExecutesInside(st: State, p: nat)
    requires st.Shaped() && p < st.width
    ensures Executes(st, p) > 0 ==> Overlaps(st) && st.BestTick(Sell) <= p <= st.BestTick(Buy)
    ensures Overlaps(st) && st.BestTick(Sell) <= p <= st.BestTick(Buy) ==> Executes(st, p) > 0
  {
    var b, a := st.BestTick(Buy), st.BestTick(Sell);
    if b < p { SpanEmpty(Size, Bids(st), p, st.width); } else { SpanOccupied(Size, Bids(st), b, p, st.width); }
    if a < 0 || p < a { SpanEmpty(Size, Asks(st), 0, p + 1); } else { SpanOccupied(Size, Asks(st), a, 0, p + 1); }
  }

  lemma ClearingExecutes(st: State)
    requires st.Shaped() && Overlaps(st)
    ensures var lo, hi := st.BestTick(Sell), st.BestTick(Buy) + 1;
            Scan(st, lo, hi).exec > 0 && lo <= Scan(st, lo, hi).tick < hi
  {
    ExecutesInside(st, st.BestTick(Sell));
    ScanPicksBest(st, st.BestTick(Sell), st.BestTick(Buy) + 1, st.BestTick(Sell));
  }

  /** The clearing tick is lexicographically best over the whole band, not just the overlap. */
  lemma ClearingIsOptimal(st: State, q: nat)
    requires st.Shaped() && Overlaps(st) && q < st.width
    ensures ClearsAsWell(st, ClearingTick(st), q)
    ensures Executes(st, ClearingTick(st)) > 0
  {
    var p := ClearingTick(st);
    ClearingExecutes(st);
    ScanPicksBest(st, st.BestTick(Sell), st.BestTick(Buy) + 1, q);
    ExecutesInside(st, p);
    ExecutesInside(st, q);
  }

  // ---- crossing -------------------------------------------------------

  /** A queue whose head has executed `f`, displayed clip first, then reserve. */
  function AfterCross(q: Queue, f: nat): Queue
    requires q != [] && 0 < f <= Size(q[0])
  {
    var o := q[0];
    if f < o.qty then q[0 := o.(qty := o.qty - f)]
    else
      var left := o.reserve - (f - o.qty);
      if left > 0 then q[1..] + [Reload(o.(reserve := left))] else Without(q, 0)
  }

  /** Executes `f` of the head of tick `i`. A part-consumed iceberg shows a fresh
      clip behind its level, announced at `price`: the clearing price, whatever
      the order's own limit is. */
  function CrossFill(st: State, s: Side, i: nat, f: nat, price: int): State
    requires i < |st.Get(Resting(s))| && st.Get(Resting(s))[i] != []
    requires 0 < f <= Size(st.Get(Resting(s))[i][0])
  {
    var o := st.Get(Resting(s))[i][0];
    if f < o.qty then Amend(st, Resting(s), i, 0, o.(qty := o.qty - f))
    else
      var left := o.reserve - (f - o.qty);
      if left > 0 then
        var o' := Reload(o.(reserve := left));
        Requeue(st.Emit(Rested(o.id, s, price, o'.qty)), Resting(s), i, o')
      else Leave(st, Resting(s), i, 0)
  }

  /** A maker's fill is an auction fill at the maker's own price. */
  lemma FillIsCrossFill(st: State, k: Taker, i: nat, f: nat)
    requires i < |st.Get(k.Shelf())| && st.Get(k.Shelf())[i] != [] && 0 < f <= st.Get(k.Shelf())[i][0].qty
    ensures var s0 := st.Print(st.min + i, Traded(k.id, st.Get(k.Shelf())[i][0].id, st.min + i, f, k.side));
      s0.Get(k.Shelf()) == st.Get(k.Shelf()) && Fill(st, k, i, f) == CrossFill(s0, k.Against(), i, f, st.min + i)
  {}

  /** One print between the two best heads. */
  function CrossStep(st: State, p: nat): State
    requires st.Shaped() && Overlaps(st)
  {
    var b, a := st.BestTick(Buy), st.BestTick(Sell);
    var f := CrossQty(st);
    var trade := Traded(Bids(st)[b][0].id, Asks(st)[a][0].id, st.min + p, f, Buy);
    var st1 := CrossFill(st.Print(st.min + p, trade), Buy, b, f, st.min + p);
    CrossFill(st1, Sell, a, f, st.min + p)
  }

  function CrossQty(st: State): (f: nat)
    requires st.Shaped() && Overlaps(st)
    ensures f > 0
  {
    Min(Size(Bids(st)[st.BestTick(Buy)][0]), Size(Asks(st)[st.BestTick(Sell)][0]))
  }

  /** Both sides still have an order through tick `p`. */
  predicate Crossable(st: State, p: nat) {
    st.BestTick(Buy) >= p && 0 <= st.BestTick(Sell) <= p
  }

  lemma CrossFillShape(st: State, s: Side, i: nat, f: nat, price: int)
    requires i < |st.Get(Resting(s))| && st.Get(Resting(s))[i] != []
    requires 0 < f <= Size(st.Get(Resting(s))[i][0])
    ensures var t := CrossFill(st, s, i, f, price);
            var q := st.Get(Resting(s))[i];
      && t.book == st.book[Resting(s) := st.Get(Resting(s))[i := AfterCross(q, f)]]
      && t.width == st.width && t.min == st.min
      && |AfterCross(q, f)| == |q| - (if f == Size(q[0]) then 1 else 0)
  {}

  lemma CrossStepShape(st: State, p: nat)
    requires st.Shaped() && Overlaps(st)
    ensures var t := CrossStep(st, p);
            var b, a, f := st.BestTick(Buy), st.BestTick(Sell), CrossQty(st);
            && t.Shaped() && t.width == st.width && t.min == st.min
            && Bids(t) == Bids(st)[b := AfterCross(Bids(st)[b], f)]
            && Asks(t) == Asks(st)[a := AfterCross(Asks(st)[a], f)]
            && Count(Bids(t)) + Count(Asks(t)) < Count(Bids(st)) + Count(Asks(st))
  {
    hide CrossFill, AfterCross;
    var b, a, f := st.BestTick(Buy), st.BestTick(Sell), CrossQty(st);
    var trade := Traded(Bids(st)[b][0].id, Asks(st)[a][0].id, st.min + p, f, Buy);
    var st0 := st.Print(st.min + p, trade);
    CrossFillShape(st0, Buy, b, f, st.min + p);
    CrossFillShape(CrossFill(st0, Buy, b, f, st.min + p), Sell, a, f, st.min + p);
    CountUpdate(Bids(st), b, AfterCross(Bids(st)[b], f));
    CountUpdate(Asks(st), a, AfterCross(Asks(st)[a], f));
  }

  datatype Cross = Cross(st: State, crossed: nat)

  function CrossLoop(st: State, p: nat, crossed: nat): Cross
    requires st.Shaped()
    decreases Count(Bids(st)) + Count(Asks(st))
  {
    if !Crossable(st, p) then Cross(st, crossed)
    else
      CrossStepShape(st, p);
      CrossLoop(CrossStep(st, p), p, crossed + CrossQty(st))
  }

  /** Crosses the overlap at one price; the quantity is 0 when nothing overlaps. */
  function Uncross(st: State): Cross
    requires st.Shaped()
  {
    if !Overlaps(st) then Cross(st, 0) else CrossLoop(st, ClearingTick(st), 0)
  }

  // ---- frame ----------------------------------------------------------

  /** Crossing leaves the stop shelves alone, keeps places, and appends to the tape. */
  ghost predicate OnlyBook(a: State, b: State) {
    && b.Get(Pending(Buy)) == a.Get(Pending(Buy)) && b.Get(Pending(Sell)) == a.Get(Pending(Sell))
    && b.width == a.width && b.min == a.min && b.halted == a.halted && b.nextId == a.nextId
    && a.tape <= b.tape
    && (forall id :: id in b.live ==> id in a.live && b.live[id] == a.live[id])
    && (forall s: Side, i :: 0 <= i < |a.Get(Resting(s))| == |b.Get(Resting(s))| && b.Get(Resting(s))[i] != []
          ==> a.Get(Resting(s))[i] != [])
  }

  lemma CrossFillFrame(st: State, s: Side, i: nat, f: nat, price: int)
    requires st.Indexed() && i < st.width && st.Get(Resting(s))[i] != []
    requires 0 < f <= Size(st.Get(Resting(s))[i][0])
    ensures CrossFill(st, s, i, f, price).Indexed()
    ensures OnlyShelf(st, CrossFill(st, s, i, f, price), Resting(s))
    ensures CrossFill(st, s, i, f, price).width == st.width
  {
    hide OnlyShelf, State.ListedAt;
    var o := st.Get(Resting(s))[i][0];
    if f < o.qty {
      AmendFrame(st, Resting(s), i, 0, o.(qty := o.qty - f));
    } else if o.reserve - (f - o.qty) > 0 {
      var o' := Reload(o.(reserve := o.reserve - (f - o.qty)));
      var clip := Rested(o.id, s, price, o'.qty);
      TellFrame(st, st.last, [clip], Resting(s));
      RequeueFrame(st.Emit(clip), Resting(s), i, o');
      OnlyShelfTrans(st, st.Emit(clip), CrossFill(st, s, i, f, price), Resting(s));
    } else {
      LeaveFrame(st, Resting(s), i, 0);
    }
  }

  lemma CrossStepFrame(st: State, p: nat)
    requires st.Indexed() && Overlaps(st)
    ensures CrossStep(st, p).Indexed() && OnlyBook(st, CrossStep(st, p))
  {
    hide State.ListedAt, CrossFill;
    var b, a, f := st.BestTick(Buy), st.BestTick(Sell), CrossQty(st);
    var trade := Traded(Bids(st)[b][0].id, Asks(st)[a][0].id, st.min + p, f, Buy);
    var st0 := st.Print(st.min + p, trade);
    TellFrame(st, Some(st.min + p), [trade], Resting(Buy));
    CrossFillFrame(st0, Buy, b, f, st.min + p);
    var st1 := CrossFill(st0, Buy, b, f, st.min + p);
    CrossFillFrame(st1, Sell, a, f, st.min + p);
  }

  lemma {:induction false} CrossLoopFrame(st: State, p: nat, crossed: nat)
    requires st.Indexed()
    ensures CrossLoop(st, p, crossed).st.Indexed() && OnlyBook(st, CrossLoop(st, p, crossed).st)
    ensures crossed <= CrossLoop(st, p, crossed).crossed
    decreases Count(Bids(st)) + Count(Asks(st))
  {
    hide State.ListedAt, CrossStep;
    if Crossable(st, p) {
      CrossStepShape(st, p);
      CrossStepFrame(st, p);
      CrossLoopFrame(CrossStep(st, p), p, crossed + CrossQty(st));
    }
  }

  // ---- volumes --------------------------------------------------------

  lemma AfterCrossSize(q: Queue, f: nat)
    requires q != [] && 0 < f <= Size(q[0])
    ensures Sum(Size, AfterCross(q, f)) == Sum(Size, q) - f
  {
    var o := q[0];
    if f < o.qty {
      SumReplace(Size, q, 0, o.(qty := o.qty - f));
    } else if o.reserve - (f - o.qty) > 0 {
      SumJoin(Size, q[1..], Reload(o.(reserve := o.reserve - (f - o.qty))));
    } else {
      SumWithout(Size, q, 0);
    }
  }

  /** One print takes its quantity off demand up to the best bid and off supply from the best ask. */
  lemma CrossStepVolumes(st: State, p: nat, q: nat)
    requires st.Shaped() && Overlaps(st) && q < st.width
    ensures CrossStep(st, p).Shaped() && CrossStep(st, p).width == st.width
    ensures Demand(CrossStep(st, p), q) == Demand(st, q) - (if q <= st.BestTick(Buy) then CrossQty(st) else 0)
    ensures Supply(CrossStep(st, p), q) == Supply(st, q) - (if st.BestTick(Sell) <= q then CrossQty(st) else 0)
  {
    CrossStepShape(st, p);
    hide CrossStep;
    var b, a, f := st.BestTick(Buy), st.BestTick(Sell), CrossQty(st);
    AfterCrossSize(Bids(st)[b], f);
    AfterCrossSize(Asks(st)[a], f);
    SpanUpdate(Size, Bids(st), b, AfterCross(Bids(st)[b], f), q, st.width);
    SpanUpdate(Size, Asks(st), a, AfterCross(Asks(st)[a], f), 0, q + 1);
  }

  lemma DemandPositive(st: State, q: nat)
    requires st.Shaped() && q < st.width
    ensures Demand(st, q) > 0 <==> st.BestTick(Buy) >= q
  {
    var b := st.BestTick(Buy);
    if b >= q { SpanOccupied(Size, Bids(st), b, q, st.width); } else { SpanEmpty(Size, Bids(st), q, st.width); }
  }

  lemma SupplyPositive(st: State, q: nat)
    requires st.Shaped() && q < st.width
    ensures Supply(st, q) > 0 <==> 0 <= st.BestTick(Sell) <= q
  {
    var a := st.BestTick(Sell);
    if 0 <= a <= q { SpanOccupied(Size, Asks(st), a, 0, q + 1); } else { SpanEmpty(Size, Asks(st), 0, q + 1); }
  }

  /** Crossing at `p` takes the same quantity off both curves at `p`; at any other
      tick it does so too as long as something is left there. */
  lemma {:induction false} CrossLoopVolumes(st: State, p: nat, crossed: nat, q: nat)
    requires st.Indexed() && p < st.width && q < st.width
    ensures var r := CrossLoop(st, p, crossed);
      && r.st.Indexed() && r.st.width == st.width && crossed <= r.crossed
      && !Crossable(r.st, p)
      && (q <= p || Demand(r.st, q) > 0 ==> Demand(r.st, q) == Demand(st, q) - (r.crossed - crossed))
      && (q >= p || Supply(r.st, q) > 0 ==> Supply(r.st, q) == Supply(st, q) - (r.crossed - crossed))
    decreases Count(Bids(st)) + Count(Asks(st))
  {
    hide State.ListedAt, CrossStep, Demand, Supply;
    CrossLoopFrame(st, p, crossed);
    if Crossable(st, p) {
      CrossStepShape(st, p);
      CrossStepFrame(st, p);
      CrossStepVolumes(st, p, q);
      CrossLoopVolumes(CrossStep(st, p), p, crossed + CrossQty(st), q);
      DemandPositive(st, q);
      SupplyPositive(st, q);
    }
  }

  // ---- main results ---------------------------------------------------

  /** Uncrossing executes the maximum over all band prices of min(demand, supply). */
  lemma UncrossExecutesMaximum(st: State, q: nat)
    requires st.Indexed() && q < st.width
    ensures Executes(st, q) <= Uncross(st).crossed
    ensures Overlaps(st) ==> Uncross(st).crossed == Executes(st, ClearingTick(st)) > 0
    ensures !Overlaps(st) ==> Uncross(st) == Cross(st, 0)
  {
    if Overlaps(st) {
      var p := ClearingTick(st);
      ClearingIsOptimal(st, q);
      CrossLoopVolumes(st, p, 0, p);
      DemandPositive(Uncross(st).st, p);
      SupplyPositive(Uncross(st).st, p);
    } else {
      ExecutesInside(st, q);
    }
  }

  /** Uncrossing leaves the book neither locked nor crossed: a leftover overlap
      would have cleared more volume at the leftover ask. */
  lemma UncrossUncrosses(st: State)
    requires st.Indexed()
    ensures Uncross(st).st.Indexed() && OnlyBook(st, Uncross(st).st)
    ensures Uncross(st).st.Uncrossed()
  {
    if Overlaps(st) {
      var p := ClearingTick(st);
      var t := Uncross(st).st;
      CrossLoopFrame(st, p, 0);
      if !t.Uncrossed() {
        var b, a := t.BestTick(Buy), t.BestTick(Sell);
        CrossLoopVolumes(st, p, 0, p);
        var q := if a > p then a else b;
        CrossLoopVolumes(st, p, 0, q);
        DemandPositive(t, q);
        SupplyPositive(t, q);
        UncrossExecutesMaximum(st, q);
        assert false;
      }
    }
  }

  // ---- prints ---------------------------------------------------------

  /** Every auction print is at the clearing price, between a buy limited at or
      above it and a sell limited at or below it; shown clips carry that price. */
  ghost predicate AuctionPrint(st: State, p: nat, e: Event) {
    && (e.Traded? ==>
         && e.price == st.min + p && e.takerSide == Buy && e.qty > 0
         && e.taker in st.live && st.live[e.taker].shelf == Resting(Buy) && st.live[e.taker].tick >= p
         && e.maker in st.live && st.live[e.maker].shelf == Resting(Sell) && st.live[e.maker].tick <= p)
    && (e.Rested? ==> e.price == st.min + p)
    && (e.Traded? || e.Rested?)
  }

  predicate Clips(news: seq<Event>, price: int) {
    forall e :: e in news ==> e.Rested? && e.price == price
  }

  lemma CrossFillNews(st: State, s: Side, i: nat, f: nat, price: int) returns (clips: seq<Event>)
    requires i < |st.Get(Resting(s))| && st.Get(Resting(s))[i] != []
    requires 0 < f <= Size(st.Get(Resting(s))[i][0])
    ensures CrossFill(st, s, i, f, price).tape == st.tape + clips && Clips(clips, price)
  {
    clips := CrossFill(st, s, i, f, price).tape[|st.tape|..];
  }

  function CrossTrade(st: State, p: nat): Event
    requires st.Shaped() && Overlaps(st)
  {
    Traded(Bids(st)[st.BestTick(Buy)][0].id, Asks(st)[st.BestTick(Sell)][0].id, st.min + p, CrossQty(st), Buy)
  }

  lemma CrossStepNews(st: State, p: nat) returns (clips: seq<Event>)
    requires st.Shaped() && Overlaps(st)
    ensures CrossStep(st, p).tape == st.tape + [CrossTrade(st, p)] + clips && Clips(clips, st.min + p)
  {
    hide CrossFill;
    var b, a, f := st.BestTick(Buy), st.BestTick(Sell), CrossQty(st);
    var st0 := st.Print(st.min + p, CrossTrade(st, p));
    CrossFillShape(st0, Buy, b, f, st.min + p);
    var c1 := CrossFillNews(st0, Buy, b, f, st.min + p);
    var c2 := CrossFillNews(CrossFill(st0, Buy, b, f, st.min + p), Sell, a, f, st.min + p);
    clips := c1 + c2;
  }

  lemma CrossTradeIsFair(st: State, p: nat)
    requires st.Indexed() && Crossable(st, p)
    ensures AuctionPrint(st, p, CrossTrade(st, p))
  {
    var b, a := st.BestTick(Buy), st.BestTick(Sell);
    assert st.ListedAt(Place(Resting(Buy), b)) && st.ListedAt(Place(Resting(Sell), a));
    IdAt(Bids(st)[b], 0);
    IdAt(Asks(st)[a], 0);
  }

  lemma {:induction false} ClipsTradeNothing(tape: seq<Event>, clips: seq<Event>, price: int)
    requires Clips(clips, price)
    ensures TradedQty(tape + clips) == TradedQty(tape)
  {
    if clips == [] {
      assert tape + clips == tape;
    } else {
      var n := |clips| - 1;
      assert tape + clips == (tape + clips[..n]) + [clips[n]];
      ClipsTradeNothing(tape, clips[..n], price);
      TradedQtyPush(tape + clips[..n], clips[n]);
    }
  }

  lemma {:induction false} CrossLoopPrints(st: State, p: nat, crossed: nat, n: nat)
    requires st.Indexed()
    requires |st.tape| <= n < |CrossLoop(st, p, crossed).st.tape|
    ensures AuctionPrint(st, p, CrossLoop(st, p, crossed).st.tape[n])
    decreases Count(Bids(st)) + Count(Asks(st))
  {
    hide State.ListedAt, CrossStep;
    if Crossable(st, p) {
      CrossStepShape(st, p);
      CrossStepFrame(st, p);
      var t := CrossStep(st, p);
      CrossLoopFrame(t, p, crossed + CrossQty(st));
      if n < |t.tape| {
        var clips := CrossStepNews(st, p);
        CrossTradeIsFair(st, p);
        assert CrossLoop(st, p, crossed).st.tape[n] == t.tape[n];
        assert n > |st.tape| ==> t.tape[n] == clips[n - |st.tape| - 1];
      } else {
        CrossLoopPrints(t, p, crossed + CrossQty(st), n);
      }
    }
  }

  lemma CrossStepTraded(st: State, p: nat)
    requires st.Shaped() && Overlaps(st)
    ensures TradedQty(CrossStep(st, p).tape) == TradedQty(st.tape) + CrossQty(st)
  {
    hide CrossStep;
    var clips := CrossStepNews(st, p);
    TradedQtyPush(st.tape, CrossTrade(st, p));
    ClipsTradeNothing(st.tape + [CrossTrade(st, p)], clips, st.min + p);
  }

  lemma {:induction false} CrossLoopTraded(st: State, p: nat, crossed: nat)
    requires st.Indexed()
    ensures var r := CrossLoop(st, p, crossed);
      crossed <= r.crossed && TradedQty(r.st.tape) == TradedQty(st.tape) + r.crossed - crossed
    decreases Count(Bids(st)) + Count(Asks(st))
  {
    hide State.ListedAt, CrossStep, TradedQty, OnlyBook;
    if Crossable(st, p) {
      CrossStepShape(st, p);
      CrossStepFrame(st, p);
      CrossLoopTraded(CrossStep(st, p), p, crossed + CrossQty(st));
      CrossStepTraded(st, p);
    }
  }

  /** The returned quantity is what was printed, all of it at the clearing price. */
  lemma UncrossPrints(st: State, n: nat)
    requires st.Indexed()
    requires |st.tape| <= n < |Uncross(st).st.tape|
    ensures Overlaps(st) && AuctionPrint(st, ClearingTick(st), Uncross(st).st.tape[n])
    ensures TradedQty(Uncross(st).st.tape) == TradedQty(st.tape) + Uncross(st).crossed
  {
    CrossLoopPrints(st, ClearingTick(st), 0, n);
    CrossLoopTraded(st, ClearingTick(st), 0);
  }
}
