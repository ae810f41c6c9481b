/** The last trade is the latest print on the tape, through every call and every run. */
module LastTrade {
  import opened Types
  import opened Ladders
  import opened Book
  import opened Matching
  import opened Auction
  import opened Engine
  import opened Safety
  import opened Icebergs

  /** The price of the latest trade of a tape. */
  function Latest(tape: seq<Event>): Option<int> {
    if tape == [] then None
    else if tape[|tape| - 1].Traded? then Some(tape[|tape| - 1].price)
    else Latest(tape[..|tape| - 1])
  }

  predicate Current(st: State) { st.last == Latest(st.tape) }

  lemma LatestPush(tape: seq<Event>, e: Event)
    ensures Latest(tape + [e]) == if e.Traded? then Some(e.price) else Latest(tape)
  {
    assert (tape + [e])[..|tape|] == tape;
  }

  lemma {:induction false} LatestQuiet(tape: seq<Event>, es: seq<Event>)
    requires forall e :: e in es ==> !e.Traded?
    ensures Latest(tape + es) == Latest(tape)
  {
    if es == [] {
      assert tape + es == tape;
    } else {
      var n := |es| - 1;
      assert tape + es == (tape + es[..n]) + [es[n]];
      LatestPush(tape + es[..n], es[n]);
      LatestQuiet(tape, es[..n]);
    }
  }

  /** What is said trades nothing. */
  lemma SaysCurrent(a: State, t: State, es: seq<Event>)
    requires Current(a) && t.last == a.last && t.tape == a.tape + es && forall e :: e in es ==> !e.Traded?
    ensures Current(t)
  {
    LatestQuiet(a.tape, es);
  }

  lemma TradesCurrent(a: State, t: State, trade: Event, es: seq<Event>)
    requires trade.Traded? && t.last == Some(trade.price) && t.tape == a.tape + [trade] + es
    requires forall e :: e in es ==> !e.Traded?
    ensures Current(t)
  {
    LatestPush(a.tape, trade);
    LatestQuiet(a.tape + [trade], es);
  }

  lemma TurnCurrent(st: State, k: Taker, qty: nat)
    requires Current(st)
    ensures Current(TakeTurn(st, k, qty).st)
  {
    hide Latest, Fill;
    var b, t := Best(k.Against(), st.Get(k.Shelf())), TakeTurn(st, k, qty).st;
    if qty > 0 && b >= 0 && k.Reaches(b) {
      var o := st.Get(k.Shelf())[b][0];
      if k.Own(o) {
        SaysCurrent(st, t, if k.stp.CancelTaker? then [] else [Cancelled(o.id)]);
      } else {
        var f := Min(qty, o.qty);
        SweepUnveils(st, k, qty, b);
        TradesCurrent(st, t, Traded(k.id, o.id, st.min + b, f, k.side), Announced(o, f, k.Against(), st.min + b));
      }
    }
  }

  lemma {:induction false} MatchCurrent(st: State, k: Taker, qty: nat)
    requires Current(st)
    ensures Current(Match(st, k, qty).st)
    decreases qty, Count(st.Get(k.Shelf()))
  {
    hide Current, TakeTurn;
    TurnCurrent(st, k, qty);
    var r := TakeTurn(st, k, qty);
    if r.Go? { MatchCurrent(r.st, k, r.left); }
  }

  lemma {:induction false} CrossLoopCurrent(st: State, p: nat, crossed: nat)
    requires st.Shaped() && Current(st) && p < st.width
    ensures Current(CrossLoop(st, p, crossed).st)
    decreases Count(Bids(st)) + Count(Asks(st))
  {
    hide Current, CrossStep, AfterCross, Best;
    if Crossable(st, p) {
      CrossStepShape(st, p);
      CrossStepCurrent(st, p);
      CrossLoopCurrent(CrossStep(st, p), p, crossed + CrossQty(st));
    }
  }

  lemma CrossStepCurrent(st: State, p: nat)
    requires st.Shaped() && Overlaps(st)
    ensures Current(CrossStep(st, p))
  {
    hide Latest, CrossStep, HeadLess, Best;
    AuctionUnveils(st, p);
    var bid, ask, t := Bids(st)[st.BestTick(Buy)][0], Asks(st)[st.BestTick(Sell)][0], CrossStep(st, p);
    var f := CrossQty(st);
    var clips := Announced(bid, f, Buy, st.min + p) + Announced(ask, f, Sell, st.min + p);
    assert t.tape == st.tape + [CrossTrade(st, p)] + clips;
    TradesCurrent(st, t, CrossTrade(st, p), clips);
  }

  lemma RestCurrent(st: State, id: nat, side: Side, tick: nat, qty: nat, t: Terms)
    requires Current(st) && tick < |st.Get(Resting(side))| && qty > 0
    ensures Current(Rest(st, id, side, tick, qty, t))
  {
    hide Latest;
    SaysCurrent(st, Rest(st, id, side, tick, qty, t), [Rested(id, side, st.min + tick, Shape(id, qty, t).qty)]);
  }

  lemma PlaceCurrent(st: State, id: nat, side: Side, tick: nat, qty: nat, tif: TimeInForce, t: Terms)
    requires Current(st) && tick < st.width && |st.Get(Resting(side))| == st.width && qty > 0
    ensures Current(PlaceLimit(st, id, side, tick, qty, tif, t))
  {
    hide Latest, Match, Rest;
    if st.halted {
      RestCurrent(st, id, side, tick, qty, t);
    } else {
      var k := AsTaker(id, side, tick, t);
      MatchCurrent(st, k, qty);
      SameSideKept(st, k, qty);
      var m := Match(st, k, qty);
      SaysCurrent(m.st, m.st.Emit(Cancelled(id)), [Cancelled(id)]);
      if m.left > 0 { RestCurrent(m.st, id, side, tick, m.left, t); }
    }
  }

  lemma ExecuteCurrent(st: State, side: Side, o: Node)
    requires st.Shaped() && Current(st) && o.qty > 0 && (o.market || st.InBand(o.limit))
    ensures Current(ExecuteStop(st, side, o))
  {
    hide Current, Match, PlaceLimit;
    var t := Terms(o.owner, o.stp, 0);
    if o.market {
      MatchCurrent(st, Sweeping(st, o.id, side, t), o.qty);
    } else {
      PlaceCurrent(st, o.id, side, st.Tick(o.limit), o.qty, GTC, t);
    }
  }

  lemma {:induction false} PumpCurrent(st: State)
    requires Valid(st) && Current(st)
    ensures Current(Pump(st))
    decreases PendingStops(st)
  {
    hide State.ListedAt, StopsInBand, ExecuteStop, Latest;
    if !st.halted && NextStop(st).Some? {
      var p := NextStop(st).value;
      FireStopFrame(st, p);
      LeaveIndexed(st, p.shelf, p.tick, 0);
      ExecuteCurrent(Leave(st, p.shelf, p.tick, 0), p.shelf.side, st.Get(p.shelf)[p.tick][0]);
      PumpCurrent(FireStop(st, p));
    }
  }

  lemma EnterCurrent(st: State, side: Side, price: int, qty: nat, tif: TimeInForce, t: Terms)
    requires st.Shaped() && Current(st) && st.InBand(price) && qty > 0
    ensures Current(Enter(st, side, price, qty, tif, t).st)
  {
    hide Latest, PlaceLimit, WouldCross;
    var a := Accept(st, side, price, qty);
    SaysCurrent(st, a, [Accepted(st.nextId, side, price, qty)]);
    SaysCurrent(a, a.Emit(Cancelled(st.nextId)), [Cancelled(st.nextId)]);
    PlaceCurrent(a, st.nextId, side, a.Tick(price), qty, tif, t);
  }

  lemma StopCurrent(st: State, side: Side, trigger: int, limit: int, qty: nat, market: bool, owner: nat, stp: StpPolicy)
    requires st.Shaped() && Current(st)
    ensures Current(DoSubmitStop(st, side, trigger, limit, qty, market, owner, stp).st)
  {
    hide Latest, ExecuteStop;
    SaysCurrent(st, st.Emit(Rejected(0)), [Rejected(0)]);
    if st.InBand(trigger) && qty > 0 && (market || st.InBand(limit)) {
      var a := Accept(st, side, trigger, qty);
      SaysCurrent(st, a, [Accepted(st.nextId, side, trigger, qty)]);
      ExecuteCurrent(a, side, Node(st.nextId, qty, owner, stp, 0, 0, market, if market then 0 else limit));
    }
  }

  lemma ModifyCurrent(st: State, id: nat, price: int, qty: nat)
    requires Valid(st) && Current(st)
    ensures Current(DoModify(st, id, price, qty).st)
  {
    hide State.ListedAt, StopsInBand, Latest, PlaceLimit, Remove, OrderOf, Seat;
    if id in st.live {
      RemoveValid(st, id);
      var r, side := Remove(st, id), st.live[id].shelf.side;
      SaysCurrent(st, r.Emit(Cancelled(id)), [Cancelled(id)]);
      if st.InBand(price) && qty > 0 {
        var o, a := OrderOf(st, id), Reentered(st, id, price, qty);
        ReentryIndexed(st, id, price, qty);
        SaysCurrent(st, a, [Cancelled(id), Accepted(id, side, price, qty)]);
        PlaceCurrent(a, id, side, st.Tick(price), qty, GTC, Terms(o.owner, o.stp, o.peak));
      }
    }
  }

  lemma DoCurrent(st: State, op: Op)
    requires Valid(st) && Current(st)
    ensures Current(Do(st, op).st)
  {
    hide State.ListedAt, StopsInBand, Latest, Enter, DoSubmitStop, DoModify, CrossLoop, Remove, Match;
    SaysCurrent(st, st.Emit(Rejected(0)), [Rejected(0)]);
    match op {
      case SubmitLimit(side, price, qty, tif, owner, stp) =>
        if st.InBand(price) && qty > 0 { EnterCurrent(st, side, price, qty, tif, Terms(owner, stp, 0)); }
      case SubmitMarket(side, qty, owner, stp) =>
        var a := Accept(st, side, 0, qty);
        SaysCurrent(st, a, [Accepted(st.nextId, side, 0, qty)]);
        MatchCurrent(a, Sweeping(a, st.nextId, side, Terms(owner, stp, 0)), qty);
      case SubmitIceberg(side, price, qty, display, tif, owner, stp) =>
        if st.InBand(price) && qty > 0 { EnterCurrent(st, side, price, qty, tif, Terms(owner, stp, display)); }
      case SubmitStop(side, trigger, qty, owner, stp) => StopCurrent(st, side, trigger, 0, qty, true, owner, stp);
      case SubmitStopLimit(side, trigger, limit, qty, owner, stp) =>
        StopCurrent(st, side, trigger, limit, qty, false, owner, stp);
      case Cancel(id) =>
        if id in st.live { RemoveValid(st, id); SaysCurrent(st, Do(st, op).st, [Cancelled(id)]); }
      case Reduce(id, _) => if id in st.live { RemoveValid(st, id); }
      case Modify(id, price, qty) => ModifyCurrent(st, id, price, qty);
      case Halt =>
      case Resume =>
      case UncrossBook => if Overlaps(st) { CrossLoopCurrent(st, ClearingTick(st), 0); }
    }
  }

  lemma {:induction false} RunCurrent(st: State, ops: seq<Op>)
    requires Valid(st) && Current(st)
    ensures Current(Run(st, ops))
    decreases |ops|
  {
    hide State.ListedAt, StopsInBand, Current, Do, Pump;
    if ops != [] {
      DoValid(st, ops[0]);
      DoCurrent(st, ops[0]);
      PumpCurrent(Do(st, ops[0]).st);
      StepValid(st, ops[0]);
      RunCurrent(Step(st, ops[0]).st, ops[1..]);
    }
  }

  /** Over every run from an empty venue the last trade, which arms stops and breaks auction
      ties, is the price of the latest print told; with none told there is none. */
  lemma LastIsLatest(min: int, width: nat, ops: seq<Op>)
    requires width > 0
    ensures Valid(Fresh(min, width))
    ensures Run(Fresh(min, width), ops).last == Latest(Run(Fresh(min, width), ops).tape)
  {
    hide State.ListedAt, StopsInBand, Run, Latest;
    FreshIsSafe(min, width);
    FreshTape(min, width);
    RunCurrent(Fresh(min, width), ops);
  }

  lemma FreshTape(min: int, width: nat)
    ensures Current(Fresh(min, width))
  {}
}
