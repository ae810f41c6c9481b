/** When a fill-or-kill order is all-or-nothing. */
module FillOrKill {
  import opened Types
  import opened Ladders
  import opened Book
  import opened Matching
  import opened SweepLaws
  import opened Reach
  import opened Engine
  import opened Safety

  /** Nothing traded and the book is as it was, or everything traded and nothing rests. */
  predicate AllOrNothing(st: State, r: State, id: nat, qty: nat) {
    || (r.book == st.book && r.live == st.live && TradedQty(r.tape) == TradedQty(st.tape) &&
        r.tape != [] && r.tape[|r.tape| - 1] == Cancelled(id))
    || (TradedQty(r.tape) == TradedQty(st.tape) + qty && id !in r.live)
  }

  lemma {:induction false} MatchNeverGrows(st: State, k: Taker, qty: nat)
    ensures Count(Match(st, k, qty).st.Get(k.Shelf())) <= Count(st.Get(k.Shelf()))
    decreases qty, Count(st.Get(k.Shelf()))
  {
    var r := TakeTurn(st, k, qty);
    var l := st.Get(k.Shelf());
    var b := Best(k.Against(), l);
    if r.Go? {
      GoShape(st, k, qty);
      CountUpdate(l, b, TurnQueue(l[b], k, qty));
      MatchNeverGrows(r.st, k, r.left);
    } else if r.halt {
      CountUpdate(l, b, Without(l[b], 0));
    }
  }

  /** With nothing executable but something in reach, the best order is the taker's
      own: cancel-taker leaves it alone, the other policies remove it. */
  lemma NothingExecutable(st: State, k: Taker, qty: nat)
    requires qty > 0 && Executable(st, k) == 0
    requires Best(k.Against(), st.Get(k.Shelf())) >= 0 && k.Reaches(Best(k.Against(), st.Get(k.Shelf())))
    ensures k.stp.CancelTaker? ==> Match(st, k, qty) == Sweep(st, qty, true)
    ensures !k.stp.CancelTaker? ==> Count(Match(st, k, qty).st.Get(k.Shelf())) < Count(st.Get(k.Shelf()))
  {
    var l := st.Get(k.Shelf());
    var b := Best(k.Against(), l);
    ReachAtBest(l, k, b, l[b]);
    if !k.Own(l[b][0]) {
      MatchReaches(st, k, 1);
      var r := TakeTurn(st, k, 1);
      GoShape(st, k, 1);
      MatchReaches(r.st, k, r.left);
    }
    CountUpdate(l, b, Without(l[b], 0));
    var r := TakeTurn(st, k, qty);
    if r.Go? { MatchNeverGrows(r.st, k, r.left); }
  }

  lemma FillableInReach(st: State, k: Taker)
    requires st.Shaped() && 0 <= k.limit < st.width && Fillable(st, k.side, st.min + k.limit) > 0
    ensures Best(k.Against(), st.Get(k.Shelf())) >= 0 && k.Reaches(Best(k.Against(), st.Get(k.Shelf())))
  {
    var l := st.Get(k.Shelf());
    var b := Best(k.Against(), l);
    if b < 0 || !k.Reaches(b) {
      if k.side.Buy? { SpanEmpty(Size, l, 0, k.limit + 1); } else { SpanEmpty(Size, l, k.limit, |l|); }
    }
  }

  /** A feasible fill-or-kill trades what is executable, up to its quantity, and rests nothing. */
  lemma FokTrades(a: State, id: nat, side: Side, tick: nat, qty: nat, t: Terms)
    requires a.Indexed() && !a.halted && tick < a.width && qty > 0 && id !in a.live
    ensures var k := AsTaker(id, side, tick, t); var r := PlaceLimit(a, id, side, tick, qty, FOK, t);
      TradedQty(r.tape) == TradedQty(a.tape) + Min(qty, Executable(a, k)) && id !in r.live
  {
    hide State.ListedAt, Match;
    var k := AsTaker(id, side, tick, t);
    MatchReaches(a, k, qty);
    MatchConservesTaker(a, k, qty);
    MatchSteady(a, k, qty);
    TradedQtyPush(Match(a, k, qty).st.tape, Cancelled(id));
  }

  /** A continuous fill-or-kill is all-or-nothing exactly when the feasibility check
      refuses it, or its whole quantity is executable, or nothing is and the
      cancel-taker policy applies. The check counts the taker's own orders and
      reserve behind them, so the three cases do not exhaust the inputs. */
  lemma FokAllOrNothingIff(st: State, side: Side, price: int, qty: nat, t: Terms)
    requires Valid(st) && !st.halted && st.InBand(price) && qty > 0
    ensures var k := AsTaker(st.nextId, side, st.Tick(price), t);
      AllOrNothing(st, Enter(st, side, price, qty, FOK, t).st, st.nextId, qty) <==>
        || Fillable(st, side, price) < qty
        || Executable(st, k) >= qty
        || (Executable(st, k) == 0 && t.stp.CancelTaker?)
  {
    hide State.ListedAt, StopsInBand, Match, TradedQty, PlaceLimit;
    var id := st.nextId;
    var a := Accept(st, side, price, qty);
    AcceptSteady(st, side, price, qty);
    TradedQtyPush(st.tape, Accepted(id, side, price, qty));
    TradedQtyPush(a.tape, Cancelled(id));
    assert Fillable(a, side, price) == Fillable(st, side, price);
    var k := AsTaker(id, side, st.Tick(price), t);
    assert Executable(a, k) == Executable(st, k);
    if Fillable(st, side, price) >= qty {
      var r := PlaceLimit(a, id, side, a.Tick(price), qty, FOK, t);
      FokTrades(a, id, side, a.Tick(price), qty, t);
      FillableInReach(a, k);
      if Executable(st, k) == 0 { FokNothing(a, id, side, a.Tick(price), qty, t); }
    }
  }

  lemma FokNothing(a: State, id: nat, side: Side, tick: nat, qty: nat, t: Terms)
    requires a.Indexed() && !a.halted && tick < a.width && qty > 0
    requires Executable(a, AsTaker(id, side, tick, t)) == 0
    requires a.BestTick(side.Opposite()) >= 0 && AsTaker(id, side, tick, t).Reaches(a.BestTick(side.Opposite()))
    ensures var r := PlaceLimit(a, id, side, tick, qty, FOK, t);
      if t.stp.CancelTaker? then r == a.Emit(Cancelled(id)) else r.book != a.book
  {
    hide Match;
    var k := AsTaker(id, side, tick, t);
    NothingExecutable(a, k, qty);
    MatchReaches(a, k, qty);
  }

  /** With no order of the taker's owner within the limit, fill-or-kill keeps its promise. */
  lemma FokIsAllOrNothing(st: State, side: Side, price: int, qty: nat, t: Terms)
    requires Valid(st) && !st.halted && st.InBand(price) && qty > 0
    requires var k := AsTaker(st.nextId, side, st.Tick(price), t);
      forall i :: 0 <= i < st.width && k.Reaches(i) ==> NoneOwn(st.Get(k.Shelf())[i], k)
    ensures AllOrNothing(st, Enter(st, side, price, qty, FOK, t).st, st.nextId, qty)
  {
    hide State.ListedAt, StopsInBand, Enter, AllOrNothing;
    FillableIsExecutable(st, AsTaker(st.nextId, side, st.Tick(price), t));
    FokAllOrNothingIff(st, side, price, qty, t);
  }

  // ---- the promise is false of own orders -----------------------------

  /** One order of owner 7 rests at the only tick. */
  ghost predicate OwnSellOnly(st: State) {
    && Valid(st) && !st.halted && st.min == 0 && st.width == 1
    && |st.Get(Resting(Sell))[0]| == 1
    && var o := st.Get(Resting(Sell))[0][0]; o.owner == 7 && o.qty == 5 && o.reserve == 0
  }

  lemma OwnSellReached()
    ensures Valid(Fresh(0, 1)) && OwnSellOnly(Step(Fresh(0, 1), SubmitLimit(Sell, 0, 5, GTC, 7, CancelTaker)).st)
  {
    hide State.ListedAt, StopsInBand, Step, Rest;
    var st, op := Fresh(0, 1), SubmitLimit(Sell, 0, 5, GTC, 7, CancelTaker);
    FreshIsSafe(0, 1);
    EntryRests(st, Sell, 0, 5, 7, CancelTaker);
    StepValid(st, op);
    RestBook(Accept(st, Sell, 0, 5), 1, Sell, 0, 5, Terms(7, CancelTaker, 0));
  }

  /** Owner 7 then sends a fill-or-kill buy of 5 under cancel-maker: the check counts the
      resting sell as executable, the sweep cancels it, and the order is killed with
      nothing traded on a changed book. */
  lemma OwnOrderBreaksFok(st: State)
    requires OwnSellOnly(st)
    ensures !AllOrNothing(st, Enter(st, Buy, 0, 5, FOK, Terms(7, CancelMaker, 0)).st, st.nextId, 5)
  {
    hide State.ListedAt, StopsInBand, AllOrNothing, Enter;
    var k := AsTaker(st.nextId, Buy, 0, Terms(7, CancelMaker, 0));
    var q := st.Get(Resting(Sell))[0];
    FokAllOrNothingIff(st, Buy, 0, 5, Terms(7, CancelMaker, 0));
    assert q[1..] == [];
    assert Sum(Size, q) == 5;
    assert Span(Size, st.Get(Resting(Sell)), 1, 1) == 0;
    NeverBlocked(q, k);
    assert Sum(FreeSize(k), q) == 0;
    assert ReachFrom(st.Get(Resting(Sell)), k, 1, 1) == 0;
  }
}
