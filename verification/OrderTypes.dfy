/** Amendments keep what they do not ask to change, and a halt trades nothing. */
module OrderTypes {
  import opened Types
  import opened Ladders
  import opened Book
  import opened Matching
  import opened SweepLaws
  import opened Engine
  import opened Entries

  // ---- amending -------------------------------------------------------

  /** Reserve goes first: the displayed clip shrinks only once the reserve is gone. */
  lemma ShaveTakesReserveFirst(o: Order, delta: nat)
    requires delta < Size(o)
    ensures var r := Shave(o, delta);
      && (delta <= o.reserve ==> r.qty == o.qty) && (delta >= o.reserve ==> r.reserve == 0)
      && r.peak == o.peak && r.stp == o.stp
  {}

  /** Only the order at position `k` differs, and only by its size. */
  predicate AmendedAt(before: Queue, after: Queue, k: nat, size: nat) {
    && |after| == |before| && k < |before|
    && (forall j :: 0 <= j < |before| && j != k ==> after[j] == before[j])
    && after[k].(qty := before[k].qty, reserve := before[k].reserve) == before[k]
    && Size(after[k]) == size
  }

  /** A modify at the same price and no larger keeps the order's place in its queue,
      changes nothing else and says nothing. */
  lemma AmendDownKeepsPriority(st: State, id: nat, at: Place, qty: nat)
    requires Valid(st) && id in st.live && at == st.live[id] && !at.shelf.stop && 0 < qty <= Size(OrderOf(st, id))
    ensures at.tick < st.width
    ensures var r := DoModify(st, id, st.min + at.tick, qty);
      && r.reply == Answer(true) && r.st.tape == st.tape && r.st.live == st.live
      && (forall s: Shelf :: |r.st.Get(s)| == st.width && |st.Get(s)| == st.width)
      && (forall s: Shelf, j :: 0 <= j < st.width && Place(s, j) != at ==> r.st.Get(s)[j] == st.Get(s)[j])
      && AmendedAt(st.Get(at.shelf)[at.tick], r.st.Get(at.shelf)[at.tick], Seat(st, id), qty)
  {
    hide State.ListedAt, StopsInBand;
    assert st.Tick(st.min + at.tick) == at.tick && st.InBand(st.min + at.tick);
  }

  /** A cancel leaves every other order as it was and where it was. */
  lemma CancelTouchesNothingElse(st: State, id: nat, j: nat)
    requires Valid(st) && id in st.live && j in st.live && j != id
    ensures var r := DoCancel(st, id).st;
      r.Indexed() && j in r.live && r.live[j] == st.live[j] && OrderOf(r, j) == OrderOf(st, j)
  {
    hide State.ListedAt, StopsInBand;
    var at, k := st.live[id], Seat(st, id);
    var q := Home(st, id);
    LeaveIndexed(st, at.shelf, at.tick, k);
    if OrderOf(st, j) in q { KeptByWithout(q, k, OrderOf(st, j)); }
    OrderKept(st, at.shelf, at.tick, Without(q, k), st.live - {id}, j);
    var l := Leave(st, at.shelf, at.tick, k);
    TellFrame(l, l.last, [Cancelled(id)], Resting(Buy));
    assert OrderOf(l, j) in Home(l, j);
    InQueue(l.Emit(Cancelled(id)), st.live[j], OrderOf(l, j));
  }

  lemma AcceptTrades(st: State, side: Side, price: int, qty: nat)
    ensures TradedQty(Accept(st, side, price, qty).tape) == TradedQty(st.tape)
    ensures TradedQty(Accept(st, side, price, qty).Emit(Cancelled(st.nextId)).tape) == TradedQty(st.tape)
  {
    var a := Accept(st, side, price, qty);
    TradedQtyPush(st.tape, Accepted(st.nextId, side, price, qty));
    TradedQtyPush(a.tape, Cancelled(st.nextId));
  }

  // ---- halted ---------------------------------------------------------

  /** While halted, no call but an uncross or a resume trades anything. */
  lemma NothingTradesWhileHalted(st: State, op: Op)
    requires Valid(st) && st.halted && !op.UncrossBook? && !op.Resume?
    ensures TradedQty(Step(st, op).st.tape) == TradedQty(st.tape) && Step(st, op).st.last == st.last
  {
    hide State.ListedAt, StopsInBand, TradedQty, Remove;
    DoValid(st, op);
    TradedQtyPush(st.tape, Rejected(0));
    match op {
      case SubmitLimit(side, price, qty, tif, owner, stp) =>
        if st.InBand(price) && qty > 0 { EntryTradesNothing(st, side, price, qty, tif, Terms(owner, stp, 0)); }
      case SubmitMarket(_, _, _, _) =>
      case SubmitIceberg(side, price, qty, display, tif, owner, stp) =>
        if st.InBand(price) && qty > 0 { EntryTradesNothing(st, side, price, qty, tif, Terms(owner, stp, display)); }
      case SubmitStop(side, trigger, qty, _, _) => AcceptTrades(st, side, trigger, qty);
      case SubmitStopLimit(side, trigger, _, qty, _, _) => AcceptTrades(st, side, trigger, qty);
      case Cancel(id) => if id in st.live { RemoveValid(st, id); TradedQtyPush(st.tape, Cancelled(id)); }
      case Reduce(id, _) => if id in st.live { RemoveValid(st, id); }
      case Modify(id, price, qty) => if id in st.live { ReplaceTradesNothing(st, id, price, qty); }
      case Halt =>
    }
  }

  lemma EntryTradesNothing(st: State, side: Side, price: int, qty: nat, tif: TimeInForce, t: Terms)
    requires Valid(st) && st.halted && st.InBand(price) && qty > 0
    ensures var r := Enter(st, side, price, qty, tif, t).st;
      TradedQty(r.tape) == TradedQty(st.tape) && r.last == st.last && r.halted
  {
    hide State.ListedAt, StopsInBand, TradedQty;
    AcceptSteady(st, side, price, qty);
    AcceptTrades(st, side, price, qty);
    var k := AsTaker(st.nextId, side, st.Tick(price), t);
    RestsShown(Accept(st, side, price, qty), st.nextId, side, st.Tick(price), qty, t, k);
  }

  lemma ReplaceTradesNothing(st: State, id: nat, price: int, qty: nat)
    requires Valid(st) && st.halted && id in st.live
    ensures var r := DoModify(st, id, price, qty).st;
      TradedQty(r.tape) == TradedQty(st.tape) && r.last == st.last && r.halted
  {
    hide State.ListedAt, StopsInBand, TradedQty, Remove, Rest, OrderOf, Seat;
    RemoveValid(st, id);
    var r, side := Remove(st, id), st.live[id].shelf.side;
    TradedQtyPush(r.tape, Cancelled(id));
    TradedQtyPush(r.tape + [Cancelled(id)], Accepted(id, side, price, qty));
    var o := OrderOf(st, id);
    if st.InBand(price) && qty > 0 {
      var news := [Cancelled(id)] + [Accepted(id, side, price, qty)];
      TellFrame(r, r.last, news, Resting(Buy));
      var a := r.Emit(Cancelled(id)).Emit(Accepted(id, side, price, qty));
      assert a == r.(tape := r.tape + news);
      var k := AsTaker(id, side, st.Tick(price), Terms(o.owner, o.stp, o.peak));
      RestsShown(a, id, side, st.Tick(price), qty, Terms(o.owner, o.stp, o.peak), k);
      RestKeepsLast(a, id, side, st.Tick(price), qty, Terms(o.owner, o.stp, o.peak));
    }
  }

  lemma RestKeepsLast(st: State, id: nat, side: Side, tick: nat, qty: nat, t: Terms)
    requires st.Indexed() && tick < st.width && qty > 0
    ensures Rest(st, id, side, tick, qty, t).last == st.last && Rest(st, id, side, tick, qty, t).halted == st.halted
  {}
}
