/** The uncross as its caller sees it: what it returns, at what price, and why that price. */
module AuctionCall {
  import opened Types
  import opened Ladders
  import opened Book
  import opened SweepLaws
  import opened Auction
  import opened Engine
  import opened Icebergs

  /** The crossing loop's last trade is at its price. */
  lemma {:induction false} CrossLoopLast(st: State, p: nat, crossed: nat)
    requires st.Shaped() && p < st.width
    ensures CrossLoop(st, p, crossed).st.last == if Crossable(st, p) then Some(st.min + p) else st.last
    decreases Count(Bids(st)) + Count(Asks(st))
  {
    hide CrossStep, AfterCross, Best, HeadLess, Announced;
    if Crossable(st, p) {
      CrossStepShape(st, p);
      AuctionUnveils(st, p);
      CrossLoopLast(CrossStep(st, p), p, crossed + CrossQty(st));
    }
  }

  /** The uncross returns what it traded: the most that any one price of the band could
      execute. Trading nothing it changes nothing. Otherwise the price it leaves as the last
      trade is the one it traded at, and no price that executes as much has a smaller
      imbalance, or the same and nearer the last trade before, or the same and lower. */
  lemma UncrossOutcome(st: State, q: nat)
    requires st.Indexed() && q < st.width
    ensures |st.Get(Resting(Buy))| == |st.Get(Resting(Sell))| == st.width
    ensures var r := Do(st, UncrossBook);
      var bids, asks := st.Get(Resting(Buy)), st.Get(Resting(Sell));
      var dq, sq := Span(Size, bids, q, st.width), Span(Size, asks, 0, q + 1);
      && r.reply.Crossed? && TradedQty(r.st.tape) == TradedQty(st.tape) + r.reply.qty
      && (dq <= r.reply.qty || sq <= r.reply.qty)
      && (r.reply.qty == 0 ==> r.st == st)
      && (r.reply.qty > 0 ==>
        && r.st.last.Some? && 0 <= r.st.last.value - st.min < st.width
        && var p := r.st.last.value - st.min;
          var dp, sp := Span(Size, bids, p, st.width), Span(Size, asks, 0, p + 1);
        && r.reply.qty == (if dp < sp then dp else sp)
        && ((if dq < sq then dq else sq) == r.reply.qty ==>
          && Abs(dp - sp) <= Abs(dq - sq)
          && (Abs(dp - sp) == Abs(dq - sq) ==>
            && (st.last.Some? ==> Abs(st.min + p - st.last.value) <= Abs(st.min + q - st.last.value))
            && (st.last.Some? ==> Abs(st.min + p - st.last.value) == Abs(st.min + q - st.last.value) ==> p <= q)
            && (st.last.None? ==> p <= q))))
  {
    hide State.ListedAt, CrossLoop, TradedQty, Best;
    UncrossExecutesMaximum(st, q);
    UncrossTraded(st);
    if Overlaps(st) {
      CrossLoopLast(st, ClearingTick(st), 0);
      ClearingIsOptimal(st, q);
    }
  }

  lemma UncrossTraded(st: State)
    requires st.Indexed()
    ensures TradedQty(Uncross(st).st.tape) == TradedQty(st.tape) + Uncross(st).crossed
  {
    hide State.ListedAt, CrossLoop, TradedQty;
    if Overlaps(st) { CrossLoopTraded(st, ClearingTick(st), 0); }
  }
}
