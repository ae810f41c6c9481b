/** What each submission does, told by the call's own arguments. */
module Entries {
  import opened Types
  import opened Ladders
  import opened Book
  import opened Matching
  import opened SweepLaws
  import opened Reach
  import opened Engine

  // ---- takers by what they ask for ------------------------------------

  /** `k` is order `id` of that side, owner and policy. */
  predicate Sends(k: Taker, id: nat, side: Side, owner: nat, stp: StpPolicy) {
    k.id == id && k.side == side && k.owner == owner && k.stp == stp
  }

  /** Of the band's prices it takes those no worse than `price`, and no other. */
  ghost predicate TakesAt(st: State, k: Taker, price: int) {
    forall i :: 0 <= i < st.width ==>
      (k.Reaches(i) <==> if k.side.Buy? then st.min + i <= price else st.min + i >= price)
  }

  ghost predicate TakesAnything(st: State, k: Taker) { forall i :: 0 <= i < st.width ==> k.Reaches(i) }

  lemma {:induction false} QueueAlike(q: Queue, k: Taker, m: Taker)
    requires k.owner == m.owner && k.stp == m.stp
    ensures Blocked(q, k) == Blocked(q, m) && ShownAhead(q, k) == ShownAhead(q, m)
    ensures Sum(FreeSize(k), q) == Sum(FreeSize(m), q)
  {
    if q != [] { QueueAlike(q[1..], k, m); }
  }

  lemma {:induction false} ReachAlike(l: Ladder, k: Taker, m: Taker, r: nat, d: nat)
    requires k.owner == m.owner && k.stp == m.stp && k.side == m.side && r <= d <= |l|
    ensures ReachFrom(l, k, r, d) == ReachFrom(l, m, r, d) && WalledFrom(l, k, r, d) == WalledFrom(l, m, r, d)
    decreases d - r
  {
    if r < d {
      QueueAlike(l[TickAt(k.Against(), |l|, r)], k, m);
      ReachAlike(l, k, m, r + 1, d);
    }
  }

  /** What can be executed depends on the prices taken, not on how the limit is written. */
  lemma SameReach(st: State, k: Taker, m: Taker)
    requires st.Shaped() && k.owner == m.owner && k.stp == m.stp && k.side == m.side
    requires forall i :: 0 <= i < st.width ==> (k.Reaches(i) <==> m.Reaches(i))
    ensures Executable(st, k) == Executable(st, m) && Walled(st, k) == Walled(st, m)
  {
    hide ReachFrom, WalledFrom;
    var l := st.Get(k.Shelf());
    SameDepth(k, m, st.width);
    ReachAlike(l, k, m, 0, Depth(k, |l|));
  }

  lemma SameDepth(k: Taker, m: Taker, n: nat)
    requires k.side == m.side && forall i :: 0 <= i < n ==> (k.Reaches(i) <==> m.Reaches(i))
    ensures Depth(k, n) == Depth(m, n)
  {
    var a, b := Depth(k, n), Depth(m, n);
    if a < n { assert !m.Reaches(TickAt(k.Against(), n, a)); }
    if b < n { assert !k.Reaches(TickAt(k.Against(), n, b)); }
  }

  // ---- matching and resting -------------------------------------------

  /** The order resting for `left`: under its display when that is smaller, the rest hidden. */
  predicate ShownAs(o: Order, k: Taker, left: nat, display: nat) {
    && o.id == k.id && o.owner == k.owner && o.stp == k.stp && !o.market && o.limit == 0
    && o.qty + o.reserve == left
    && (if 0 < display < left then o.qty == display && o.peak == display else o.qty == left && o.peak == 0)
  }

  predicate LastSaid(st: State, e: Event) { st.tape != [] && st.tape[|st.tape| - 1] == e }

  /** From `a` to `r` order `k` traded `done`; of its quantity nothing rests. */
  ghost predicate Took(a: State, r: State, k: Taker, done: nat) {
    && a.tape <= r.tape && TradedQty(r.tape) == TradedQty(a.tape) + done
    && k.id !in r.live && r.Get(Resting(k.side)) == a.Get(Resting(k.side))
  }

  /** From `a` to `r` order `k` traded `done`; the rest of its quantity stands last at `tick`. */
  ghost predicate TookAndRests(a: State, r: State, k: Taker, tick: nat, qty: nat, display: nat, done: nat) {
    var l, m := a.Get(Resting(k.side)), r.Get(Resting(k.side));
    && a.tape <= r.tape && TradedQty(r.tape) == TradedQty(a.tape) + done
    && |m| == |l| && tick < |l| && done <= qty && (forall j :: 0 <= j < |l| && j != tick ==> m[j] == l[j])
    && |m[tick]| == |l[tick]| + 1 && m[tick][..|l[tick]|] == l[tick]
    && ShownAs(m[tick][|l[tick]|], k, qty - done, display)
    && k.id in r.live && r.live[k.id] == Place(Resting(k.side), tick)
    && LastSaid(r, Rested(k.id, k.side, a.min + tick, m[tick][|l[tick]|].qty))
  }

  lemma RestsShown(st: State, id: nat, side: Side, tick: nat, qty: nat, t: Terms, k: Taker)
    requires st.Shaped() && tick < st.width && qty > 0 && Sends(k, id, side, t.owner, t.stp)
    ensures TookAndRests(st, Rest(st, id, side, tick, qty, t), k, tick, qty, t.peak, 0)
    ensures Rest(st, id, side, tick, qty, t).tape[|st.tape|..] ==
      [Rested(id, side, st.min + tick, if 0 < t.peak < qty then t.peak else qty)]
    ensures Rest(st, id, side, tick, qty, t).last == st.last
    ensures Rest(st, id, side, tick, qty, t).Get(Resting(side.Opposite())) == st.Get(Resting(side.Opposite()))
  {
    var o, r := Shape(id, qty, t), Rest(st, id, side, tick, qty, t);
    TradedQtyPush(st.tape, Rested(id, side, st.min + tick, o.qty));
    assert r.Get(Resting(side))[tick] == st.Get(Resting(side))[tick] + [o];
  }

  /** A sweep that leaves a remainder, and the remainder resting: one trade, then the rest. */
  lemma TookThenRests(a: State, m: State, r: State, k: Taker, tick: nat, qty: nat, left: nat, display: nat)
    requires left <= qty && Took(a, m, k, qty - left) && m.min == a.min
    requires TookAndRests(m, r, k, tick, left, display, 0)
    ensures TookAndRests(a, r, k, tick, qty, display, qty - left)
  {}

  lemma SweepTakes(a: State, k: Taker, m: Taker, qty: nat)
    requires a.Indexed() && k.id !in a.live
    requires Sends(m, k.id, k.side, k.owner, k.stp) && forall i :: 0 <= i < a.width ==> (k.Reaches(i) <==> m.Reaches(i))
    ensures var s := Match(a, m, qty); var can := Executable(a, k);
      && s.st.Indexed() && s.st.width == a.width && s.st.min == a.min
      && s.left == qty - (if qty < can then qty else can) && Took(a, s.st, k, qty - s.left)
      && (s.halt <==> Walled(a, k) && qty > can)
  {
    hide State.ListedAt, Match, TradedQty, Executable, Walled;
    SameReach(a, k, m);
    MatchReaches(a, m, qty);
    MatchConservesTaker(a, m, qty);
    MatchSteady(a, m, qty);
    SameSideKept(a, m, qty);
  }

  /** A limit order that is let in takes what is executable within its price. What is left of
      it rests last at that price when it may rest and its own owner's orders did not stop
      it; otherwise it is cancelled, last of all. */
  lemma LimitTakes(a: State, id: nat, side: Side, tick: nat, qty: nat, tif: TimeInForce, t: Terms, k: Taker)
    requires a.Indexed() && !a.halted && tick < a.width && qty > 0 && 0 < id < a.nextId && id !in a.live
    requires Sends(k, id, side, t.owner, t.stp) && TakesAt(a, k, a.min + tick)
    ensures var r := PlaceLimit(a, id, side, tick, qty, tif, t); var can := Executable(a, k);
      var done := if qty < can then qty else can;
      if done < qty && !Walled(a, k) && (tif.GTC? || tif.PostOnly?)
      then TookAndRests(a, r, k, tick, qty, t.peak, done)
      else Took(a, r, k, done) && (done < qty ==> LastSaid(r, Cancelled(id)))
  {
    hide State.ListedAt, State.Bounded, Match, TradedQty, Executable, Walled, Rest, TookAndRests;
    var m := AsTaker(id, side, tick, t);
    SweepTakes(a, k, m, qty);
    var s := Match(a, m, qty);
    TradedQtyPush(s.st.tape, Cancelled(id));
    if s.left > 0 && !s.halt && (tif.GTC? || tif.PostOnly?) {
      RestsShown(s.st, id, side, tick, s.left, t, k);
      TookThenRests(a, s.st, Rest(s.st, id, side, tick, s.left, t), k, tick, qty, s.left, t.peak);
    }
  }

  /** Meeting nothing, it leaves the other side alone. */
  lemma LimitLeavesAcross(a: State, id: nat, side: Side, tick: nat, qty: nat, tif: TimeInForce, t: Terms)
    requires a.Shaped() && tick < a.width && qty > 0 && !WouldCross(a, side, tick)
    ensures PlaceLimit(a, id, side, tick, qty, tif, t).Get(Resting(side.Opposite())) == a.Get(Resting(side.Opposite()))
  {
    hide Rest, Best;
    OutOfReach(a, AsTaker(id, side, tick, t), qty);
    RestsShown(a, id, side, tick, qty, t, AsTaker(id, side, tick, t));
  }

  // ---- limit and iceberg orders ---------------------------------------

  /** A limit order, or an iceberg with its display. */
  predicate IsEntry(op: Op) { op.SubmitLimit? || op.SubmitIceberg? }

  function DisplayOf(op: Op): nat { if op.SubmitIceberg? then op.display else 0 }

  /** Priced in the band, of some quantity, and if an iceberg showing something. */
  predicate WellAsked(st: State, op: Op)
    requires IsEntry(op)
  {
    st.min <= op.price < st.min + st.width && op.qty > 0 && (op.SubmitIceberg? ==> op.display > 0)
  }

  /** An order asked for badly is rejected under no id and changes nothing. */
  lemma BadEntryIsRejected(st: State, op: Op)
    requires st.Indexed() && IsEntry(op) && !WellAsked(st, op)
    ensures Do(st, op) == Result(st.(tape := st.tape + [Rejected(0)]), Assigned(0))
  {}

  /** Nothing happened but the order's acceptance and its cancellation. */
  predicate KilledUnseen(st: State, r: State, op: Op)
    requires IsEntry(op)
  {
    && r.book == st.book && r.live == st.live && r.last == st.last
    && r.tape == st.tape + [Accepted(st.nextId, op.side, op.price, op.qty), Cancelled(st.nextId)]
  }

  /** The side opposite to the order holds one its price reaches. */
  ghost predicate Meets(st: State, k: Taker)
    requires st.Shaped()
  {
    exists i :: 0 <= i < st.width && k.Reaches(i) && st.Get(Resting(k.side.Opposite()))[i] != []
  }

  lemma MeetsIff(st: State, k: Taker, side: Side, tick: nat)
    requires st.Shaped() && tick < st.width && k.side == side && TakesAt(st, k, st.min + tick)
    ensures WouldCross(st, side, tick) <==> Meets(st, k)
    ensures !WouldCross(st, side, tick) ==> Executable(st, k) == 0 && !Walled(st, k)
  {
    hide Executable, Walled;
    var b := st.BestTick(side.Opposite());
    if WouldCross(st, side, tick) {
      assert k.Reaches(b) && st.Get(Resting(k.side.Opposite()))[b] != [];
    } else {
      NothingMet(st, k);
    }
  }

  lemma NothingMet(st: State, k: Taker)
    requires Best(k.Against(), st.Get(k.Shelf())) < 0 || !k.Reaches(Best(k.Against(), st.Get(k.Shelf())))
    ensures Executable(st, k) == 0 && !Walled(st, k)
  {
    NothingInReach(st.Get(k.Shelf()), k);
  }

  /** An accepted order in continuous trading, whatever its kind. A fill-or-kill of more than
      the size priced within its limit, and a post-only that would meet anything, are
      killed unseen; the others take what is executable, and only a good-till-cancelled or
      a post-only rests, showing its display when what is left exceeds that. */
  lemma EntryOutcome(st: State, op: Op, k: Taker)
    requires Valid(st) && !st.halted && IsEntry(op) && WellAsked(st, op)
    requires Sends(k, st.nextId, op.side, op.owner, op.stp) && TakesAt(st, k, op.price)
    ensures var r, id, can := Do(st, op), st.nextId, Executable(st, k);
      var done := if op.qty < can then op.qty else can;
      && r.reply == Assigned(id) && r.st.nextId == id + 1
      && st.tape + [Accepted(id, op.side, op.price, op.qty)] <= r.st.tape
      && (op.tif.PostOnly? ==> r.st.Get(Resting(op.side.Opposite())) == st.Get(Resting(op.side.Opposite())))
      && if (op.tif.FOK? && Fillable(st, op.side, op.price) < op.qty) || (op.tif.PostOnly? && Meets(st, k))
         then KilledUnseen(st, r.st, op)
         else if done < op.qty && !Walled(st, k) && (op.tif.GTC? || op.tif.PostOnly?)
         then TookAndRests(st, r.st, k, op.price - st.min, op.qty, DisplayOf(op), done)
         else Took(st, r.st, k, done) && (done < op.qty ==> LastSaid(r.st, Cancelled(id)))
  {
    hide State.ListedAt, State.Bounded, StopsInBand, PlaceLimit, TradedQty, Executable, Walled, TookAndRests, Best;
    var id, tick, t := st.nextId, st.Tick(op.price), Terms(op.owner, op.stp, DisplayOf(op));
    var a := Accept(st, op.side, op.price, op.qty);
    assert Do(st, op) == Enter(st, op.side, op.price, op.qty, op.tif, t);
    AcceptSteady(st, op.side, op.price, op.qty);
    SameBookReach(st, a, k);
    MeetsIff(st, k, op.side, tick);
    LimitTakes(a, id, op.side, tick, op.qty, op.tif, t, k);
    if !WouldCross(st, op.side, tick) { LimitLeavesAcross(a, id, op.side, tick, op.qty, op.tif, t); }
    PlaceSteady(a, id, op.side, tick, op.qty, op.tif, t);
    TradedQtyPush(st.tape, Accepted(id, op.side, op.price, op.qty));
    AcceptedThenTook(st, a, Do(st, op).st, k, tick, op.qty, DisplayOf(op));
  }

  lemma SameBookReach(st: State, a: State, k: Taker)
    requires a.book == st.book
    ensures Executable(a, k) == Executable(st, k) && Walled(a, k) == Walled(st, k)
  {}

  lemma AcceptedThenTook(st: State, a: State, r: State, k: Taker, tick: nat, qty: nat, display: nat)
    requires a.book == st.book && a.min == st.min && st.tape <= a.tape && TradedQty(a.tape) == TradedQty(st.tape)
    ensures forall done: nat :: Took(a, r, k, done) ==> Took(st, r, k, done)
    ensures forall done: nat :: TookAndRests(a, r, k, tick, qty, display, done) ==>
      TookAndRests(st, r, k, tick, qty, display, done)
  {}

  /** During a halt only a good-till-cancelled order stays, whole and untraded; any other
      is killed unseen. */
  lemma HaltedEntryOutcome(st: State, op: Op, k: Taker)
    requires Valid(st) && st.halted && IsEntry(op) && WellAsked(st, op)
    requires Sends(k, st.nextId, op.side, op.owner, op.stp)
    ensures var r, id := Do(st, op), st.nextId;
      && r.reply == Assigned(id) && r.st.nextId == id + 1 && r.st.last == st.last
      && r.st.Get(Resting(op.side.Opposite())) == st.Get(Resting(op.side.Opposite()))
      && (if op.tif.GTC? then
            && TookAndRests(st, r.st, k, op.price - st.min, op.qty, DisplayOf(op), 0)
            && r.st.tape == st.tape + [Accepted(id, op.side, op.price, op.qty)] +
              [Rested(id, op.side, op.price, if 0 < DisplayOf(op) < op.qty then DisplayOf(op) else op.qty)]
          else KilledUnseen(st, r.st, op))
  {
    hide State.ListedAt, State.Bounded, StopsInBand, TradedQty, TookAndRests, Rest, Best;
    var id, tick, t := st.nextId, st.Tick(op.price), Terms(op.owner, op.stp, DisplayOf(op));
    var a := Accept(st, op.side, op.price, op.qty);
    assert Do(st, op) == Enter(st, op.side, op.price, op.qty, op.tif, t);
    AcceptSteady(st, op.side, op.price, op.qty);
    RestsShown(a, id, op.side, tick, op.qty, t, k);
    RestSteady(a, id, op.side, tick, op.qty, t);
    TradedQtyPush(st.tape, Accepted(id, op.side, op.price, op.qty));
    AcceptedThenTook(st, a, Rest(a, id, op.side, tick, op.qty, t), k, tick, op.qty, DisplayOf(op));
  }

  // ---- market orders --------------------------------------------------

  /** A market order takes whatever is executable at any price of the band, answers with
      what it could not trade, and leaves nothing behind. */
  lemma MarketOutcome(st: State, side: Side, qty: nat, owner: nat, stp: StpPolicy, k: Taker)
    requires Valid(st) && !st.halted && Sends(k, st.nextId, side, owner, stp) && TakesAnything(st, k)
    ensures var r, can := Do(st, SubmitMarket(side, qty, owner, stp)), Executable(st, k);
      var done := if qty < can then qty else can;
      && r.reply == Unfilled(qty - done) && r.st.nextId == st.nextId + 1 && Took(st, r.st, k, done)
      && st.tape + [Accepted(st.nextId, side, 0, qty)] <= r.st.tape
  {
    hide State.ListedAt, State.Bounded, StopsInBand, Match, TradedQty, Executable, Walled;
    var a := Accept(st, side, 0, qty);
    AcceptSteady(st, side, 0, qty);
    SameBookReach(st, a, k);
    SweepTakes(a, k, Sweeping(a, st.nextId, side, Terms(owner, stp, 0)), qty);
    MatchSteady(a, Sweeping(a, st.nextId, side, Terms(owner, stp, 0)), qty);
    TradedQtyPush(st.tape, Accepted(st.nextId, side, 0, qty));
    AcceptedThenTook(st, a, Do(st, SubmitMarket(side, qty, owner, stp)).st, k, 0, qty, 0);
  }

  /** Of no owner, it trades with everything on the other side, hidden reserve included. */
  lemma MarketTakesAll(st: State, side: Side, qty: nat, stp: StpPolicy)
    requires Valid(st) && !st.halted
    ensures var r, there := Do(st, SubmitMarket(side, qty, 0, stp)), Total(Size, st.Get(Resting(side.Opposite())));
      && r.reply == Unfilled(if qty < there then 0 else qty - there)
      && TradedQty(r.st.tape) == TradedQty(st.tape) + (if qty < there then qty else there)
  {
    hide State.ListedAt, State.Bounded, StopsInBand, Do, TradedQty, Executable, Walled;
    var k := Taker(st.nextId, side, if side.Buy? then st.width - 1 else 0, 0, stp);
    MarketOutcome(st, side, qty, 0, stp, k);
    OwnerlessReach(st, k);
  }

  lemma OwnerlessReach(st: State, k: Taker)
    requires st.Shaped() && k.owner == 0 && TakesAnything(st, k)
    ensures Executable(st, k) == Total(Size, st.Get(Resting(k.side.Opposite()))) && !Walled(st, k)
  {
    var l := st.Get(k.Shelf());
    var m := k.(limit := if k.side.Buy? then st.width - 1 else 0);
    SameReach(st, k, m);
    ReachIsSpan(l, m, 0, Depth(m, |l|));
  }

  /** During a halt it is rejected. */
  lemma HaltedMarket(st: State, side: Side, qty: nat, owner: nat, stp: StpPolicy)
    requires st.Indexed() && st.halted
    ensures Do(st, SubmitMarket(side, qty, owner, stp)) == Result(st.(tape := st.tape + [Rejected(0)]), Unfilled(qty))
  {}
}
