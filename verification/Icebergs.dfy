/** What an iceberg shows as its clips are used up, and what every order shows over whole runs. */
module Icebergs {
  import opened Types
  import opened Ladders
  import opened Book
  import opened Matching
  import opened Auction
  import opened Engine
  import opened Safety

  // ---- the next clip --------------------------------------------------

  /** What is left of an order that loses `f`: the rest of its clip; with the clip used up,
      a clip of its peak or of all that is left, whichever is less, and the rest hidden. */
  function Unveiled(o: Order, f: nat): Order
    requires 0 < f < o.qty + o.reserve
  {
    if f < o.qty then o.(qty := o.qty - f)
    else
      var left := o.qty + o.reserve - f;
      var shown := if o.peak < left then o.peak else left;
      o.(qty := shown, reserve := left - shown)
  }

  /** The queue after its head loses `f`: a clip that lasts keeps its place, a fresh one
      goes last, and an order with nothing left goes. */
  function HeadLess(q: Queue, f: nat): Queue
    requires q != [] && 0 < f <= q[0].qty + q[0].reserve
  {
    if f == q[0].qty + q[0].reserve then q[1..]
    else if f < q[0].qty then [Unveiled(q[0], f)] + q[1..]
    else q[1..] + [Unveiled(q[0], f)]
  }

  /** A fresh clip is announced, with what it shows. */
  function Announced(o: Order, f: nat, side: Side, price: int): seq<Event>
    requires 0 < f <= o.qty + o.reserve
  {
    if o.qty <= f < o.qty + o.reserve then [Rested(o.id, side, price, Unveiled(o, f).qty)] else []
  }

  lemma ConsumeServes(st: State, s: Side, b: nat, f: nat, price: int)
    requires b < |st.Get(Resting(s))| && st.Get(Resting(s))[b] != []
    requires 0 < f <= Size(st.Get(Resting(s))[b][0])
    ensures var q, t := st.Get(Resting(s))[b], CrossFill(st, s, b, f, price);
      && t.book == st.book[Resting(s) := st.Get(Resting(s))[b := HeadLess(q, f)]]
      && t.tape == st.tape + Announced(q[0], f, s, price)
  {
    var q := st.Get(Resting(s))[b];
    assert Without(q, 0) == q[1..];
    if f < q[0].qty { assert q[0 := Unveiled(q[0], f)] == [Unveiled(q[0], f)] + q[1..]; }
  }

  /** One encounter of a sweep with a maker of another owner: the print at the maker's
      price for what both have, then the maker's next clip, announced at its own price. */
  lemma SweepUnveils(st: State, k: Taker, qty: nat, b: nat)
    requires qty > 0 && b == st.BestTick(k.side.Opposite()) && k.Reaches(b)
    requires var o := st.Get(Resting(k.side.Opposite()))[b][0]; k.owner == 0 || o.owner != k.owner
    ensures var s := k.side.Opposite(); var l := st.Get(Resting(s)); var o := l[b][0];
      var f := if qty < o.qty then qty else o.qty; var t := TakeTurn(st, k, qty).st;
      && t.book == st.book[Resting(s) := l[b := HeadLess(l[b], f)]]
      && t.tape == st.tape + [Traded(k.id, o.id, st.min + b, f, k.side)] + Announced(o, f, s, st.min + b)
      && t.last == Some(st.min + b) && Match(st, k, qty) == Match(t, k, qty - f)
  {
    var o := st.Get(k.Shelf())[b][0];
    var f := Min(qty, o.qty);
    var s0 := st.Print(st.min + b, Traded(k.id, o.id, st.min + b, f, k.side));
    FillIsCrossFill(st, k, b, f);
    ConsumeServes(s0, k.Against(), b, f, st.min + b);
  }

  /** One print of an auction: both heads lose it, displayed clip first and then reserve,
      and a fresh clip of either is announced at the clearing price. */
  lemma AuctionUnveils(st: State, p: nat)
    requires st.Shaped() && Overlaps(st)
    ensures var bids, asks, t := st.Get(Resting(Buy)), st.Get(Resting(Sell)), CrossStep(st, p);
      var b, a := st.BestTick(Buy), st.BestTick(Sell); var bid, ask := bids[b][0], asks[a][0];
      var f := if Size(bid) < Size(ask) then Size(bid) else Size(ask);
      && t.Get(Resting(Buy)) == bids[b := HeadLess(bids[b], f)]
      && t.Get(Resting(Sell)) == asks[a := HeadLess(asks[a], f)]
      && t.tape == st.tape + [Traded(bid.id, ask.id, st.min + p, f, Buy)] +
        Announced(bid, f, Buy, st.min + p) + Announced(ask, f, Sell, st.min + p)
      && t.last == Some(st.min + p)
  {
    hide CrossFill;
    var b, a, f := st.BestTick(Buy), st.BestTick(Sell), CrossQty(st);
    var s0 := st.Print(st.min + p, CrossTrade(st, p));
    ConsumeServes(s0, Buy, b, f, st.min + p);
    ConsumeServes(CrossFill(s0, Buy, b, f, st.min + p), Sell, a, f, st.min + p);
    CrossFillLast(s0, Buy, b, f, st.min + p);
    CrossFillLast(CrossFill(s0, Buy, b, f, st.min + p), Sell, a, f, st.min + p);
  }

  lemma CrossFillLast(st: State, s: Side, b: nat, f: nat, price: int)
    requires b < |st.Get(Resting(s))| && st.Get(Resting(s))[b] != []
    requires 0 < f <= Size(st.Get(Resting(s))[b][0])
    ensures CrossFill(st, s, b, f, price).last == st.last
  {}

  // ---- over whole runs ------------------------------------------------

  /** A resting order shows no more than its peak, if it has one; a pending stop hides
      nothing. With `bare` asked for, no order has an owner or a peak. */
  predicate Proper(s: Shelf, o: Order, bare: bool) {
    && (if s.stop then o.reserve == 0 && o.peak == 0
      else (o.peak != 0 ==> o.qty <= o.peak) && !o.market && o.limit == 0)
    && (bare ==> o.owner == 0 && o.peak == 0)
  }

  predicate ProperTerms(t: Terms, bare: bool) { bare ==> t.owner == 0 && t.peak == 0 }

  /** The call submits an order of no owner that hides nothing, or submits none. */
  predicate BareOp(op: Op) {
    match op
    case SubmitLimit(_, _, _, _, owner, _) => owner == 0
    case SubmitMarket(_, _, owner, _) => owner == 0
    case SubmitIceberg(_, _, _, _, _, _, _) => false
    case SubmitStop(_, _, _, owner, _) => owner == 0
    case SubmitStopLimit(_, _, _, _, owner, _) => owner == 0
    case _ => true
  }

  predicate ProperQueue(s: Shelf, q: Queue, bare: bool) { forall k :: 0 <= k < |q| ==> Proper(s, q[k], bare) }

  ghost predicate AllProper(st: State, bare: bool) {
    st.Shaped() && forall s: Shelf, i :: 0 <= i < st.width ==> ProperQueue(s, st.Get(s)[i], bare)
  }

  lemma ProperAt(st: State, s: Shelf, i: nat, bare: bool)
    requires AllProper(st, bare) && i < st.width
    ensures |st.Get(s)| == st.width && ProperQueue(s, st.Get(s)[i], bare)
  {}

  lemma SetProper(st: State, s: Shelf, i: nat, q: Queue, where: map<nat, Place>, bare: bool)
    requires AllProper(st, bare) && i < st.width && ProperQueue(s, q, bare)
    ensures AllProper(st.SetQueue(s, i, q, where), bare) && st.SetQueue(s, i, q, where).width == st.width
  {
    var t := st.SetQueue(s, i, q, where);
    forall r: Shelf, j | 0 <= j < t.width ensures ProperQueue(r, t.Get(r)[j], bare) {
      if Place(r, j) != Place(s, i) { assert t.Get(r)[j] == st.Get(r)[j]; }
    }
  }

  /** Only the four ladders matter. */
  lemma SameProper(st: State, t: State, bare: bool)
    requires AllProper(st, bare) && t.book == st.book && t.width == st.width
    ensures AllProper(t, bare)
  {
    forall r: Shelf, j | 0 <= j < t.width ensures ProperQueue(r, t.Get(r)[j], bare) { assert t.Get(r) == st.Get(r); }
  }

  lemma LeaveProper(st: State, s: Shelf, i: nat, k: nat, bare: bool)
    requires AllProper(st, bare) && i < st.width && k < |st.Get(s)[i]|
    ensures AllProper(Leave(st, s, i, k), bare) && Leave(st, s, i, k).width == st.width
  {
    ProperAt(st, s, i, bare);
    var q := st.Get(s)[i];
    SetProper(st, s, i, Without(q, k), st.live - {q[k].id}, bare);
  }

  lemma JoinProper(st: State, s: Shelf, i: nat, o: Order, bare: bool)
    requires AllProper(st, bare) && i < st.width && Proper(s, o, bare)
    ensures |st.Get(s)| == st.width && AllProper(Join(st, s, i, o), bare) && Join(st, s, i, o).width == st.width
  {
    ProperAt(st, s, i, bare);
    SetProper(st, s, i, st.Get(s)[i] + [o], st.live[o.id := Place(s, i)], bare);
  }

  lemma CrossFillProper(st: State, s: Side, i: nat, f: nat, price: int, bare: bool)
    requires AllProper(st, bare) && i < st.width && st.Get(Resting(s))[i] != []
    requires 0 < f <= Size(st.Get(Resting(s))[i][0])
    ensures AllProper(CrossFill(st, s, i, f, price), bare) && CrossFill(st, s, i, f, price).width == st.width
  {
    hide CrossFill;
    ProperAt(st, Resting(s), i, bare);
    ConsumeServes(st, s, i, f, price);
    var q := st.Get(Resting(s))[i];
    SetProper(st, Resting(s), i, HeadLess(q, f), st.live, bare);
    CrossFillShape(st, s, i, f, price);
    SameProper(st.SetQueue(Resting(s), i, HeadLess(q, f), st.live), CrossFill(st, s, i, f, price), bare);
  }

  lemma TurnProper(st: State, k: Taker, qty: nat, bare: bool)
    requires AllProper(st, bare)
    ensures AllProper(TakeTurn(st, k, qty).st, bare) && TakeTurn(st, k, qty).st.width == st.width
  {
    hide Fill, ProperQueue, CrossFill;
    var b := Best(k.Against(), st.Get(k.Shelf()));
    if qty > 0 && b >= 0 && k.Reaches(b) {
      ProperAt(st, k.Shelf(), b, bare);
      var o := st.Get(k.Shelf())[b][0];
      if k.Own(o) {
        LeaveProper(st, k.Shelf(), b, 0, bare);
        SameProper(Leave(st, k.Shelf(), b, 0), CancelHead(st, k.Against(), b), bare);
      } else {
        var f := Min(qty, o.qty);
        var s0 := st.Print(st.min + b, Traded(k.id, o.id, st.min + b, f, k.side));
        SameProper(st, s0, bare);
        FillIsCrossFill(st, k, b, f);
        CrossFillProper(s0, k.Against(), b, f, st.min + b, bare);
      }
    }
  }

  lemma {:induction false} MatchProper(st: State, k: Taker, qty: nat, bare: bool)
    requires AllProper(st, bare)
    ensures AllProper(Match(st, k, qty).st, bare) && Match(st, k, qty).st.width == st.width
    decreases qty, Count(st.Get(k.Shelf()))
  {
    hide AllProper, TakeTurn;
    TurnProper(st, k, qty, bare);
    var r := TakeTurn(st, k, qty);
    if r.Go? { MatchProper(r.st, k, r.left, bare); }
  }

  lemma {:induction false} CrossLoopProper(st: State, p: nat, crossed: nat, bare: bool)
    requires st.Shaped() && AllProper(st, bare) && p < st.width
    ensures AllProper(CrossLoop(st, p, crossed).st, bare)
    decreases Count(Bids(st)) + Count(Asks(st))
  {
    hide AllProper, CrossFill, CrossStep, AfterCross, Best;
    if Crossable(st, p) {
      CrossStepShape(st, p);
      CrossStepProper(st, p, bare);
      CrossLoopProper(CrossStep(st, p), p, crossed + CrossQty(st), bare);
    }
  }

  lemma CrossStepProper(st: State, p: nat, bare: bool)
    requires st.Shaped() && AllProper(st, bare) && Overlaps(st)
    ensures AllProper(CrossStep(st, p), bare)
  {
    hide AllProper, CrossFill, AfterCross, Best;
    var b, a, f := st.BestTick(Buy), st.BestTick(Sell), CrossQty(st);
    var s0 := st.Print(st.min + p, CrossTrade(st, p));
    SameProper(st, s0, bare);
    CrossFillProper(s0, Buy, b, f, st.min + p, bare);
    CrossFillShape(s0, Buy, b, f, st.min + p);
    CrossFillProper(CrossFill(s0, Buy, b, f, st.min + p), Sell, a, f, st.min + p, bare);
  }

  lemma RestProper(st: State, id: nat, side: Side, tick: nat, qty: nat, t: Terms, bare: bool)
    requires AllProper(st, bare) && tick < st.width && qty > 0 && ProperTerms(t, bare)
    ensures |st.Get(Resting(side))| == st.width && AllProper(Rest(st, id, side, tick, qty, t), bare)
  {
    var o := Shape(id, qty, t);
    JoinProper(st, Resting(side), tick, o, bare);
    SameProper(Join(st, Resting(side), tick, o), Rest(st, id, side, tick, qty, t), bare);
  }

  lemma PlaceProper(st: State, id: nat, side: Side, tick: nat, qty: nat, tif: TimeInForce, t: Terms, bare: bool)
    requires AllProper(st, bare) && tick < st.width && qty > 0 && ProperTerms(t, bare)
    ensures |st.Get(Resting(side))| == st.width && AllProper(PlaceLimit(st, id, side, tick, qty, tif, t), bare)
  {
    hide AllProper, Match, Rest;
    ProperAt(st, Resting(side), tick, bare);
    if st.halted {
      RestProper(st, id, side, tick, qty, t, bare);
    } else {
      var k := AsTaker(id, side, tick, t);
      MatchProper(st, k, qty, bare);
      SameSideKept(st, k, qty);
      var m := Match(st, k, qty);
      if m.left > 0 {
        SameProper(m.st, m.st.Emit(Cancelled(id)), bare);
        RestProper(m.st, id, side, tick, m.left, t, bare);
      }
    }
  }

  lemma ExecuteProper(st: State, side: Side, o: Node, bare: bool)
    requires st.Shaped() && AllProper(st, bare) && o.qty > 0 && (o.market || st.InBand(o.limit)) &&
      (bare ==> o.owner == 0)
    ensures AllProper(ExecuteStop(st, side, o), bare)
  {
    hide AllProper, Match, PlaceLimit;
    var t := Terms(o.owner, o.stp, 0);
    if o.market {
      MatchProper(st, Sweeping(st, o.id, side, t), o.qty, bare);
    } else {
      PlaceProper(st, o.id, side, st.Tick(o.limit), o.qty, GTC, t, bare);
    }
  }

  lemma {:induction false} PumpProper(st: State, bare: bool)
    requires Valid(st) && AllProper(st, bare)
    ensures AllProper(Pump(st), bare)
    decreases PendingStops(st)
  {
    hide State.ListedAt, StopsInBand, ExecuteStop, AllProper;
    if !st.halted && NextStop(st).Some? {
      var p := NextStop(st).value;
      FireStopFrame(st, p);
      LeaveProper(st, p.shelf, p.tick, 0, bare);
      ProperAt(st, p.shelf, p.tick, bare);
      LeaveIndexed(st, p.shelf, p.tick, 0);
      ExecuteProper(Leave(st, p.shelf, p.tick, 0), p.shelf.side, st.Get(p.shelf)[p.tick][0], bare);
      PumpProper(FireStop(st, p), bare);
    }
  }

  lemma EnterProper(st: State, side: Side, price: int, qty: nat, tif: TimeInForce, t: Terms, bare: bool)
    requires st.Shaped() && AllProper(st, bare) && st.InBand(price) && qty > 0 && ProperTerms(t, bare)
    ensures AllProper(Enter(st, side, price, qty, tif, t).st, bare)
  {
    hide AllProper, PlaceLimit, WouldCross;
    var a := Accept(st, side, price, qty);
    SameProper(st, a, bare);
    SameProper(st, a.Emit(Cancelled(st.nextId)), bare);
    PlaceProper(a, st.nextId, side, a.Tick(price), qty, tif, t, bare);
  }

  lemma StopProper(st: State, side: Side, trigger: int, limit: int, qty: nat, market: bool, owner: nat,
                   stp: StpPolicy, bare: bool)
    requires st.Shaped() && AllProper(st, bare) && (bare ==> owner == 0)
    ensures AllProper(DoSubmitStop(st, side, trigger, limit, qty, market, owner, stp).st, bare)
  {
    hide AllProper, ExecuteStop;
    SameProper(st, st.Emit(Rejected(0)), bare);
    if st.InBand(trigger) && qty > 0 && (market || st.InBand(limit)) {
      var a := Accept(st, side, trigger, qty);
      var o := Node(st.nextId, qty, owner, stp, 0, 0, market, if market then 0 else limit);
      SameProper(st, a, bare);
      ExecuteProper(a, side, o, bare);
      JoinProper(a, Pending(side), a.Tick(trigger), o, bare);
    }
  }

  lemma RemoveProper(st: State, id: nat, bare: bool)
    requires st.Indexed() && AllProper(st, bare) && id in st.live
    ensures AllProper(Remove(st, id), bare) && AllProper(Remove(st, id).Emit(Cancelled(id)), bare)
  {
    hide State.ListedAt, AllProper;
    LeaveProper(st, st.live[id].shelf, st.live[id].tick, Seat(st, id), bare);
    SameProper(Remove(st, id), Remove(st, id).Emit(Cancelled(id)), bare);
  }

  lemma ProperOrder(st: State, id: nat, bare: bool)
    requires st.Indexed() && AllProper(st, bare) && id in st.live
    ensures Proper(st.live[id].shelf, OrderOf(st, id), bare)
  {
    hide State.ListedAt, AllProper;
    ProperAt(st, st.live[id].shelf, st.live[id].tick, bare);
  }

  lemma ReduceProper(st: State, id: nat, delta: nat, bare: bool)
    requires st.Indexed() && AllProper(st, bare)
    ensures AllProper(DoReduce(st, id, delta).st, bare)
  {
    hide State.ListedAt, AllProper;
    if id in st.live && !st.live[id].shelf.stop {
      RemoveProper(st, id, bare);
      var at, o, k := st.live[id], OrderOf(st, id), Seat(st, id);
      ProperAt(st, at.shelf, at.tick, bare);
      var shaved := if delta < Size(o) then Shave(o, delta) else o;
      SetProper(st, at.shelf, at.tick, st.Get(at.shelf)[at.tick][k := shaved], st.live, bare);
    }
  }

  lemma ModifyProper(st: State, id: nat, price: int, qty: nat, bare: bool)
    requires Valid(st) && AllProper(st, bare)
    ensures AllProper(DoModify(st, id, price, qty).st, bare)
  {
    hide State.ListedAt, StopsInBand, AllProper, PlaceLimit, Remove, DoReduce;
    if id in st.live {
      RemoveProper(st, id, bare);
      var o := OrderOf(st, id);
      ProperOrder(st, id, bare);
      if qty <= Size(o) { ReduceProper(st, id, Size(o) - qty, bare); }
      if st.InBand(price) && qty > 0 {
        ReentryIndexed(st, id, price, qty);
        RemoveValid(st, id);
        SameProper(Remove(st, id), Reentered(st, id, price, qty), bare);
        PlaceProper(Reentered(st, id, price, qty), id, st.live[id].shelf.side, st.Tick(price), qty, GTC,
          Terms(o.owner, o.stp, o.peak), bare);
      }
    }
  }

  lemma MarketProper(st: State, side: Side, qty: nat, owner: nat, stp: StpPolicy, bare: bool)
    requires AllProper(st, bare) && (bare ==> owner == 0)
    ensures AllProper(DoSubmitMarket(st, side, qty, owner, stp).st, bare)
  {
    hide AllProper, Match;
    var a := Accept(st, side, 0, qty);
    SameProper(st, st.Emit(Rejected(0)), bare);
    SameProper(st, a, bare);
    MatchProper(a, Sweeping(a, st.nextId, side, Terms(owner, stp, 0)), qty, bare);
  }

  lemma DoProper(st: State, op: Op, bare: bool)
    requires Valid(st) && AllProper(st, bare) && (bare ==> BareOp(op))
    ensures AllProper(Do(st, op).st, bare)
  {
    hide State.ListedAt, StopsInBand, AllProper, Enter, DoSubmitStop, DoSubmitMarket, DoReduce, DoModify, CrossLoop,
      Remove;
    SameProper(st, st.Emit(Rejected(0)), bare);
    match op {
      case SubmitLimit(side, price, qty, tif, owner, stp) =>
        if st.InBand(price) && qty > 0 { EnterProper(st, side, price, qty, tif, Terms(owner, stp, 0), bare); }
      case SubmitMarket(side, qty, owner, stp) => MarketProper(st, side, qty, owner, stp, bare);
      case SubmitIceberg(side, price, qty, display, tif, owner, stp) =>
        if st.InBand(price) && qty > 0 { EnterProper(st, side, price, qty, tif, Terms(owner, stp, display), bare); }
      case SubmitStop(side, trigger, qty, owner, stp) => StopProper(st, side, trigger, 0, qty, true, owner, stp, bare);
      case SubmitStopLimit(side, trigger, limit, qty, owner, stp) =>
        StopProper(st, side, trigger, limit, qty, false, owner, stp, bare);
      case Cancel(id) => if id in st.live { RemoveProper(st, id, bare); }
      case Reduce(id, delta) => ReduceProper(st, id, delta, bare);
      case Modify(id, price, qty) => ModifyProper(st, id, price, qty, bare);
      case Halt => SameProper(st, st.(halted := true), bare);
      case Resume => SameProper(st, st.(halted := false), bare);
      case UncrossBook => if Overlaps(st) { CrossLoopProper(st, ClearingTick(st), 0, bare); }
    }
  }

  lemma FreshProper(min: int, width: nat, bare: bool)
    requires width > 0
    ensures AllProper(Fresh(min, width), bare)
  {
    FreshIsIndexed(min, width);
    forall s: Shelf, i | 0 <= i < width ensures ProperQueue(s, Fresh(min, width).Get(s)[i], bare) { ShelfCases(s); }
  }

  lemma {:induction false} RunProper(st: State, ops: seq<Op>, bare: bool)
    requires Valid(st) && AllProper(st, bare) && (bare ==> forall op :: op in ops ==> BareOp(op))
    ensures Valid(Run(st, ops)) && AllProper(Run(st, ops), bare)
    decreases |ops|
  {
    hide State.ListedAt, StopsInBand, AllProper, Do, Pump;
    if ops != [] {
      DoValid(st, ops[0]);
      DoProper(st, ops[0], bare);
      PumpProper(Do(st, ops[0]).st, bare);
      StepValid(st, ops[0]);
      RunProper(Step(st, ops[0]).st, ops[1..], bare);
    }
  }

  /** Over every run from an empty venue no iceberg ever shows more than its peak, and only
      an iceberg hides anything. */
  lemma NeverShowsMore(min: int, width: nat, ops: seq<Op>, id: nat)
    requires width > 0
    ensures Valid(Fresh(min, width)) && Valid(Run(Fresh(min, width), ops))
    ensures var t := Run(Fresh(min, width), ops); id in t.live && !t.live[id].shelf.stop ==>
      var o := OrderOf(t, id); (o.peak != 0 ==> 0 < o.qty <= o.peak) && (o.peak == 0 ==> o.reserve == 0)
  {
    hide State.ListedAt, StopsInBand, Run;
    FreshIsSafe(min, width);
    FreshProper(min, width, false);
    RunProper(Fresh(min, width), ops, false);
  }
}
