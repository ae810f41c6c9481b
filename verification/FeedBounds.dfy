/** Everything a venue publishes fits the feed's fields, when what is submitted does. */
module FeedBounds {
  import opened Types
  import opened Ladders
  import opened Book
  import opened Matching
  import opened Reach
  import opened Auction
  import opened Engine
  import opened Safety
  import opened Feed
  import opened FeedRuns
  import opened RoundTrip
  import opened Wire
  import opened ItchCodec

  // ---- no order outgrows what was submitted ---------------------------

  predicate LightQueue(q: Queue, top: nat) { forall k :: 0 <= k < |q| ==> Size(q[k]) < top }

  /** Every order, displayed, hidden or pending, is smaller than `top`. */
  ghost predicate Light(st: State, top: nat) {
    st.Shaped() && forall s: Shelf, i :: 0 <= i < st.width ==> LightQueue(st.Get(s)[i], top)
  }

  /** A print or a displayed order inside the band and smaller than `top`. */
  predicate Mild(st: State, top: nat, e: Event) {
    e.Traded? || e.Rested? ==> e.qty < top && st.InBand(e.price)
  }

  /** From `a` to `t` nothing outgrows `top`, and nothing is said that would. */
  ghost predicate Keeps(a: State, t: State, top: nat) {
    && a.tape <= t.tape && t.min == a.min && t.width == a.width && Light(t, top)
    && forall n :: |a.tape| <= n < |t.tape| ==> Mild(a, top, t.tape[n])
  }

  lemma KeepsTrans(a: State, m: State, t: State, top: nat)
    requires Keeps(a, m, top) && Keeps(m, t, top)
    ensures Keeps(a, t, top)
  {
    hide Light;
    forall n | |a.tape| <= n < |t.tape| ensures Mild(a, top, t.tape[n]) {
      if n < |m.tape| { assert t.tape[n] == m.tape[n]; } else { assert Mild(m, top, t.tape[n]); }
    }
  }

  lemma KeepsSelf(st: State, top: nat)
    requires Light(st, top)
    ensures Keeps(st, st, top)
  {}

  /** One queue is replaced, nothing is said. */
  lemma SetKeeps(st: State, s: Shelf, i: nat, q: Queue, where: map<nat, Place>, top: nat)
    requires Light(st, top) && i < st.width && LightQueue(q, top)
    ensures Keeps(st, st.SetQueue(s, i, q, where), top)
  {
    var t := st.SetQueue(s, i, q, where);
    forall r: Shelf, j | 0 <= j < t.width ensures LightQueue(t.Get(r)[j], top) {
      if Place(r, j) != Place(s, i) { assert t.Get(r)[j] == st.Get(r)[j]; }
    }
  }

  /** The book stands, and what is said is mild. */
  lemma SayKeeps(st: State, t: State, news: seq<Event>, top: nat)
    requires Light(st, top) && t.book == st.book && t.min == st.min && t.width == st.width
    requires t.tape == st.tape + news && forall e :: e in news ==> Mild(st, top, e)
    ensures Keeps(st, t, top)
  {
    forall r: Shelf, j | 0 <= j < t.width ensures LightQueue(t.Get(r)[j], top) { assert t.Get(r) == st.Get(r); }
    forall n | |st.tape| <= n < |t.tape| ensures Mild(st, top, t.tape[n]) {
      assert t.tape[n] == news[n - |st.tape|];
    }
  }

  lemma LightAt(st: State, s: Shelf, i: nat, k: nat, top: nat)
    requires Light(st, top) && i < st.width && k < |st.Get(s)[i]|
    ensures |st.Get(s)| == st.width && Size(st.Get(s)[i][k]) < top && LightQueue(st.Get(s)[i], top)
  {}

  lemma LeaveKeeps(st: State, s: Shelf, i: nat, k: nat, top: nat)
    requires Light(st, top) && i < st.width && k < |st.Get(s)[i]|
    ensures Keeps(st, Leave(st, s, i, k), top)
  {
    hide Keeps;
    LightAt(st, s, i, k, top);
    SetKeeps(st, s, i, Without(st.Get(s)[i], k), st.live - {st.Get(s)[i][k].id}, top);
  }

  lemma AmendKeeps(st: State, s: Shelf, i: nat, k: nat, o: Order, top: nat)
    requires Light(st, top) && i < st.width && k < |st.Get(s)[i]| && Size(o) <= Size(st.Get(s)[i][k])
    ensures Keeps(st, Amend(st, s, i, k, o), top)
  {
    hide Keeps;
    LightAt(st, s, i, k, top);
    SetKeeps(st, s, i, st.Get(s)[i][k := o], st.live, top);
  }

  lemma RequeueKeeps(st: State, s: Shelf, i: nat, o: Order, top: nat)
    requires Light(st, top) && i < st.width && st.Get(s)[i] != [] && Size(o) <= Size(st.Get(s)[i][0])
    ensures Keeps(st, Requeue(st, s, i, o), top)
  {
    hide Keeps;
    LightAt(st, s, i, 0, top);
    SetKeeps(st, s, i, st.Get(s)[i][1..] + [o], st.live, top);
  }

  lemma JoinKeeps(st: State, s: Shelf, i: nat, o: Order, top: nat)
    requires Light(st, top) && i < st.width && Size(o) < top
    ensures Keeps(st, Join(st, s, i, o), top)
  {
    hide Keeps;
    QueueLight(st, s, i, top);
    SetKeeps(st, s, i, st.Get(s)[i] + [o], st.live[o.id := Place(s, i)], top);
  }

  lemma QueueLight(st: State, s: Shelf, i: nat, top: nat)
    requires Light(st, top) && i < st.width
    ensures |st.Get(s)| == st.width && LightQueue(st.Get(s)[i], top)
  {}

  lemma KeepsEnds(a: State, t: State, top: nat)
    requires Keeps(a, t, top)
    ensures Light(t, top) && t.Shaped() && t.min == a.min && t.width == a.width && a.tape <= t.tape
  {}

  // ---- sweeps and auctions --------------------------------------------

  /** A fill of the head, in continuous trading or in an auction, its next clip announced in the band. */
  lemma CrossFillKeeps(st: State, s: Side, i: nat, f: nat, price: int, top: nat)
    requires Light(st, top) && i < st.width && st.Get(Resting(s))[i] != []
    requires 0 < f <= Size(st.Get(Resting(s))[i][0]) && st.InBand(price)
    ensures Keeps(st, CrossFill(st, s, i, f, price), top)
  {
    hide Keeps;
    LightAt(st, Resting(s), i, 0, top);
    var o := st.Get(Resting(s))[i][0];
    if f < o.qty {
      AmendKeeps(st, Resting(s), i, 0, o.(qty := o.qty - f), top);
    } else if o.reserve > f - o.qty {
      var o' := Reload(o.(reserve := o.reserve - (f - o.qty)));
      var clip := Rested(o.id, s, price, o'.qty);
      SayKeeps(st, st.Emit(clip), [clip], top);
      KeepsEnds(st, st.Emit(clip), top);
      RequeueKeeps(st.Emit(clip), Resting(s), i, o', top);
      KeepsTrans(st, st.Emit(clip), CrossFill(st, s, i, f, price), top);
    } else {
      LeaveKeeps(st, Resting(s), i, 0, top);
    }
  }

  lemma FillKeeps(st: State, k: Taker, i: nat, f: nat, top: nat)
    requires Light(st, top) && i < st.width && st.Get(k.Shelf())[i] != [] && 0 < f <= st.Get(k.Shelf())[i][0].qty
    ensures Keeps(st, Fill(st, k, i, f), top)
  {
    hide Keeps, CrossFill, Fill;
    LightAt(st, k.Shelf(), i, 0, top);
    var trade := Traded(k.id, st.Get(k.Shelf())[i][0].id, st.min + i, f, k.side);
    var s0 := st.Print(st.min + i, trade);
    SayKeeps(st, s0, [trade], top);
    KeepsEnds(st, s0, top);
    FillIsCrossFill(st, k, i, f);
    CrossFillKeeps(s0, k.Against(), i, f, st.min + i, top);
    KeepsTrans(st, s0, Fill(st, k, i, f), top);
  }

  lemma CancelHeadKeeps(st: State, s: Side, i: nat, top: nat)
    requires Light(st, top) && i < st.width && st.Get(Resting(s))[i] != []
    ensures Keeps(st, CancelHead(st, s, i), top)
  {
    hide Keeps;
    LightAt(st, Resting(s), i, 0, top);
    var l := Leave(st, Resting(s), i, 0);
    LeaveKeeps(st, Resting(s), i, 0, top);
    KeepsEnds(st, l, top);
    SayKeeps(l, CancelHead(st, s, i), [Cancelled(st.Get(Resting(s))[i][0].id)], top);
    KeepsTrans(st, l, CancelHead(st, s, i), top);
  }

  lemma TurnKeeps(st: State, k: Taker, qty: nat, top: nat)
    requires Light(st, top)
    ensures Keeps(st, TakeTurn(st, k, qty).st, top)
  {
    hide Keeps, Fill, CancelHead;
    KeepsSelf(st, top);
    var i := Best(k.Against(), st.Get(k.Shelf()));
    if qty > 0 && i >= 0 && k.Reaches(i) {
      var o := st.Get(k.Shelf())[i][0];
      if k.Own(o) { CancelHeadKeeps(st, k.Against(), i, top); } else { FillKeeps(st, k, i, Min(qty, o.qty), top); }
    }
  }

  lemma {:induction false} MatchKeeps(st: State, k: Taker, qty: nat, top: nat)
    requires Light(st, top)
    ensures Keeps(st, Match(st, k, qty).st, top)
    decreases qty, Count(st.Get(k.Shelf()))
  {
    hide Keeps, Light, TakeTurn;
    TurnKeeps(st, k, qty, top);
    var r := TakeTurn(st, k, qty);
    if r.Go? {
      KeepsEnds(st, r.st, top);
      MatchKeeps(r.st, k, r.left, top);
      KeepsTrans(st, r.st, Match(st, k, qty).st, top);
    }
  }

  lemma CrossStepKeeps(st: State, p: nat, top: nat)
    requires Light(st, top) && Overlaps(st) && p < st.width
    ensures Keeps(st, CrossStep(st, p), top)
  {
    hide Keeps, CrossFill, AfterCross, Best;
    var b, a, f := st.BestTick(Buy), st.BestTick(Sell), CrossQty(st);
    LightAt(st, Resting(Buy), b, 0, top);
    var trade := CrossTrade(st, p);
    var s0 := st.Print(st.min + p, trade);
    SayKeeps(st, s0, [trade], top);
    KeepsEnds(st, s0, top);
    CrossFillKeeps(s0, Buy, b, f, st.min + p, top);
    CrossFillShape(s0, Buy, b, f, st.min + p);
    var s1 := CrossFill(s0, Buy, b, f, st.min + p);
    KeepsTrans(st, s0, s1, top);
    KeepsEnds(st, s1, top);
    CrossFillKeeps(s1, Sell, a, f, st.min + p, top);
    KeepsTrans(st, s1, CrossStep(st, p), top);
  }

  lemma {:induction false} CrossLoopKeeps(st: State, p: nat, crossed: nat, top: nat)
    requires Light(st, top) && p < st.width
    ensures Keeps(st, CrossLoop(st, p, crossed).st, top)
    decreases Count(Bids(st)) + Count(Asks(st))
  {
    hide Keeps, CrossStep;
    if Crossable(st, p) {
      CrossStepShape(st, p);
      CrossStepKeeps(st, p, top);
      KeepsEnds(st, CrossStep(st, p), top);
      CrossLoopKeeps(CrossStep(st, p), p, crossed + CrossQty(st), top);
      KeepsTrans(st, CrossStep(st, p), CrossLoop(st, p, crossed).st, top);
    } else {
      KeepsSelf(st, top);
    }
  }

  // ---- the operations -------------------------------------------------

  lemma RestKeeps(st: State, id: nat, side: Side, tick: nat, qty: nat, t: Terms, top: nat)
    requires Light(st, top) && tick < st.width && 0 < qty < top
    ensures |st.Get(Resting(side))| == st.width && Keeps(st, Rest(st, id, side, tick, qty, t), top)
  {
    hide Keeps;
    QueueLight(st, Resting(side), tick, top);
    var o := Shape(id, qty, t);
    var j := Join(st, Resting(side), tick, o);
    JoinKeeps(st, Resting(side), tick, o, top);
    KeepsEnds(st, j, top);
    SayKeeps(j, Rest(st, id, side, tick, qty, t), [Rested(id, side, st.min + tick, o.qty)], top);
    KeepsTrans(st, j, Rest(st, id, side, tick, qty, t), top);
  }

  lemma PlaceKeeps(st: State, id: nat, side: Side, tick: nat, qty: nat, tif: TimeInForce, t: Terms, top: nat)
    requires Light(st, top) && tick < st.width && 0 < qty < top
    ensures |st.Get(Resting(side))| == st.width && Keeps(st, PlaceLimit(st, id, side, tick, qty, tif, t), top)
  {
    hide Keeps, Match, Rest;
    QueueLight(st, Resting(side), tick, top);
    if st.halted {
      RestKeeps(st, id, side, tick, qty, t, top);
    } else {
      var k := AsTaker(id, side, tick, t);
      var m := Match(st, k, qty);
      MatchKeeps(st, k, qty, top);
      MatchReaches(st, k, qty);
      KeepsEnds(st, m.st, top);
      if m.left == 0 {
      } else if m.halt || tif.IOC? || tif.FOK? {
        SayKeeps(m.st, m.st.Emit(Cancelled(id)), [Cancelled(id)], top);
        KeepsTrans(st, m.st, m.st.Emit(Cancelled(id)), top);
      } else {
        RestKeeps(m.st, id, side, tick, m.left, t, top);
        KeepsTrans(st, m.st, Rest(m.st, id, side, tick, m.left, t), top);
      }
    }
  }

  lemma ExecuteKeeps(st: State, side: Side, o: Node, top: nat)
    requires Light(st, top) && 0 < o.qty < top && (o.market || st.InBand(o.limit))
    ensures Keeps(st, ExecuteStop(st, side, o), top)
  {
    hide Keeps, Match, PlaceLimit;
    var t := Terms(o.owner, o.stp, 0);
    if o.market {
      MatchKeeps(st, Sweeping(st, o.id, side, t), o.qty, top);
    } else {
      PlaceKeeps(st, o.id, side, st.Tick(o.limit), o.qty, GTC, t, top);
    }
  }

  lemma {:induction false} PumpKeeps(st: State, top: nat)
    requires Light(st, top) && Valid(st)
    ensures Keeps(st, Pump(st), top)
    decreases PendingStops(st)
  {
    hide State.ListedAt, State.Bounded, Keeps, ExecuteStop, StopsInBand, Light;
    KeepsSelf(st, top);
    if !st.halted && NextStop(st).Some? {
      var at := NextStop(st).value;
      FireStopFrame(st, at);
      var l, t := Leave(st, at.shelf, at.tick, 0), FireStop(st, at);
      LightAt(st, at.shelf, at.tick, 0, top);
      LeaveKeeps(st, at.shelf, at.tick, 0, top);
      KeepsEnds(st, l, top);
      ExecuteKeeps(l, at.shelf.side, st.Get(at.shelf)[at.tick][0], top);
      KeepsTrans(st, l, t, top);
      KeepsEnds(st, t, top);
      PumpKeeps(t, top);
      KeepsTrans(st, t, Pump(st), top);
    }
  }

  /** What the call submits is smaller than `top`. */
  predicate LightOp(op: Op, top: nat) {
    match op
    case SubmitLimit(_, _, qty, _, _, _) => qty < top
    case SubmitMarket(_, qty, _, _) => qty < top
    case SubmitIceberg(_, _, qty, _, _, _, _) => qty < top
    case SubmitStop(_, _, qty, _, _) => qty < top
    case SubmitStopLimit(_, _, _, qty, _, _) => qty < top
    case Modify(_, _, qty) => qty < top
    case _ => true
  }

  lemma AcceptKeeps(st: State, side: Side, price: int, qty: nat, top: nat)
    requires Light(st, top)
    ensures Keeps(st, Accept(st, side, price, qty), top) && Accept(st, side, price, qty).Shaped()
  {
    SayKeeps(st, Accept(st, side, price, qty), [Accepted(st.nextId, side, price, qty)], top);
  }

  lemma EnterKeeps(st: State, side: Side, price: int, qty: nat, tif: TimeInForce, t: Terms, top: nat)
    requires Light(st, top) && st.Shaped() && st.InBand(price) && 0 < qty < top
    ensures Keeps(st, Enter(st, side, price, qty, tif, t).st, top)
  {
    hide Keeps, Light, PlaceLimit, Fillable, WouldCross;
    var a, id := Accept(st, side, price, qty), st.nextId;
    AcceptKeeps(st, side, price, qty, top);
    KeepsEnds(st, a, top);
    SayKeeps(a, a.Emit(Cancelled(id)), [Cancelled(id)], top);
    KeepsTrans(st, a, a.Emit(Cancelled(id)), top);
    PlaceKeeps(a, id, side, a.Tick(price), qty, tif, t, top);
    KeepsTrans(st, a, PlaceLimit(a, id, side, a.Tick(price), qty, tif, t), top);
  }

  lemma MarketKeeps(st: State, side: Side, qty: nat, owner: nat, stp: StpPolicy, top: nat)
    requires Light(st, top)
    ensures Keeps(st, DoSubmitMarket(st, side, qty, owner, stp).st, top)
  {
    hide Keeps, Light, Match;
    if st.halted {
      SayKeeps(st, st.Emit(Rejected(0)), [Rejected(0)], top);
    } else {
      var a := Accept(st, side, 0, qty);
      var k := Sweeping(a, st.nextId, side, Terms(owner, stp, 0));
      AcceptKeeps(st, side, 0, qty, top);
      KeepsEnds(st, a, top);
      MatchKeeps(a, k, qty, top);
      KeepsTrans(st, a, Match(a, k, qty).st, top);
    }
  }

  lemma StopKeeps(st: State, side: Side, trigger: int, limit: int, qty: nat, market: bool, owner: nat,
                  stp: StpPolicy, top: nat)
    requires Light(st, top) && st.Shaped() && qty < top
    ensures Keeps(st, DoSubmitStop(st, side, trigger, limit, qty, market, owner, stp).st, top)
  {
    hide Keeps, Light, ExecuteStop;
    SayKeeps(st, st.Emit(Rejected(0)), [Rejected(0)], top);
    if st.InBand(trigger) && qty > 0 && (market || st.InBand(limit)) {
      var a := Accept(st, side, trigger, qty);
      var o := Node(st.nextId, qty, owner, stp, 0, 0, market, if market then 0 else limit);
      AcceptKeeps(st, side, trigger, qty, top);
      KeepsEnds(st, a, top);
      if !a.halted && Armed(a, side, trigger) {
        ExecuteKeeps(a, side, o, top);
        KeepsTrans(st, a, ExecuteStop(a, side, o), top);
      } else {
        JoinKeeps(a, Pending(side), a.Tick(trigger), o, top);
        KeepsTrans(st, a, Join(a, Pending(side), a.Tick(trigger), o), top);
      }
    }
  }

  lemma RemoveKeeps(st: State, id: nat, top: nat)
    requires Light(st, top) && st.Indexed() && id in st.live
    ensures Keeps(st, Remove(st, id), top) && Keeps(st, Remove(st, id).Emit(Cancelled(id)), top)
    ensures Remove(st, id).Emit(Cancelled(id)).Shaped()
  {
    hide State.ListedAt, Keeps, Light;
    var r := Remove(st, id);
    LeaveKeeps(st, st.live[id].shelf, st.live[id].tick, Seat(st, id), top);
    KeepsEnds(st, r, top);
    SayKeeps(r, r.Emit(Cancelled(id)), [Cancelled(id)], top);
    KeepsTrans(st, r, r.Emit(Cancelled(id)), top);
  }

  lemma ReduceKeeps(st: State, id: nat, delta: nat, top: nat)
    requires Light(st, top) && st.Indexed()
    ensures Keeps(st, DoReduce(st, id, delta).st, top)
  {
    hide State.ListedAt, Keeps, Light;
    KeepsSelf(st, top);
    if id in st.live && !st.live[id].shelf.stop {
      RemoveKeeps(st, id, top);
      var at, o := st.live[id], OrderOf(st, id);
      if delta < Size(o) { AmendKeeps(st, at.shelf, at.tick, Seat(st, id), Shave(o, delta), top); }
    }
  }

  lemma ModifyKeeps(st: State, id: nat, price: int, qty: nat, top: nat)
    requires Light(st, top) && st.Indexed() && qty < top
    ensures Keeps(st, DoModify(st, id, price, qty).st, top)
  {
    hide State.ListedAt, Keeps, Light, DoReduce, PlaceLimit, Remove;
    KeepsSelf(st, top);
    if id in st.live {
      RemoveKeeps(st, id, top);
      var o, side := OrderOf(st, id), st.live[id].shelf.side;
      if qty <= Size(o) { ReduceKeeps(st, id, Size(o) - qty, top); }
      if st.InBand(price) && qty > 0 {
        var c, a := Remove(st, id).Emit(Cancelled(id)), Reentered(st, id, price, qty);
        KeepsEnds(st, c, top);
        SayKeeps(c, a, [Accepted(id, side, price, qty)], top);
        KeepsTrans(st, c, a, top);
        KeepsEnds(st, a, top);
        PlaceKeeps(a, id, side, st.Tick(price), qty, GTC, Terms(o.owner, o.stp, o.peak), top);
        KeepsTrans(st, a, CancelReplace(st, id, price, qty), top);
      }
    }
  }

  lemma UncrossKeeps(st: State, top: nat)
    requires Light(st, top) && st.Shaped()
    ensures Keeps(st, Uncross(st).st, top)
  {
    hide Keeps, Light, CrossLoop;
    KeepsSelf(st, top);
    if Overlaps(st) { CrossLoopKeeps(st, ClearingTick(st), 0, top); }
  }

  lemma DoKeeps(st: State, op: Op, top: nat)
    requires Light(st, top) && Valid(st) && LightOp(op, top)
    ensures Keeps(st, Do(st, op).st, top)
  {
    hide State.ListedAt, StopsInBand, Keeps, Light, Enter, DoSubmitStop, DoSubmitMarket, DoReduce, DoModify, Uncross,
      Remove;
    KeepsSelf(st, top);
    SayKeeps(st, st.Emit(Rejected(0)), [Rejected(0)], top);
    match op {
      case SubmitLimit(side, price, qty, tif, owner, stp) =>
        if st.InBand(price) && qty > 0 { EnterKeeps(st, side, price, qty, tif, Terms(owner, stp, 0), top); }
      case SubmitMarket(side, qty, owner, stp) => MarketKeeps(st, side, qty, owner, stp, top);
      case SubmitIceberg(side, price, qty, display, tif, owner, stp) =>
        if st.InBand(price) && qty > 0 { EnterKeeps(st, side, price, qty, tif, Terms(owner, stp, display), top); }
      case SubmitStop(side, trigger, qty, owner, stp) => StopKeeps(st, side, trigger, 0, qty, true, owner, stp, top);
      case SubmitStopLimit(side, trigger, limit, qty, owner, stp) =>
        StopKeeps(st, side, trigger, limit, qty, false, owner, stp, top);
      case Cancel(id) => if id in st.live { RemoveKeeps(st, id, top); }
      case Reduce(id, delta) => ReduceKeeps(st, id, delta, top);
      case Modify(id, price, qty) => ModifyKeeps(st, id, price, qty, top);
      case Halt => SayKeeps(st, st.(halted := true), [], top);
      case Resume => SayKeeps(st, st.(halted := false), [], top);
      case UncrossBook => UncrossKeeps(st, top);
    }
  }

  lemma StepKeeps(st: State, op: Op, top: nat)
    requires Light(st, top) && Valid(st) && LightOp(op, top)
    ensures Keeps(st, Step(st, op).st, top)
  {
    hide StopsInBand, Keeps, Light, Do, Pump;
    DoValid(st, op);
    DoKeeps(st, op, top);
    KeepsEnds(st, Do(st, op).st, top);
    PumpKeeps(Do(st, op).st, top);
    KeepsTrans(st, Do(st, op).st, Step(st, op).st, top);
  }

  // ---- what is published ----------------------------------------------

  /** The message's quantity is below `top`, its reference already given out, its price in the band of `st`. */
  predicate Modest(st: State, m: Message, top: nat, nextRef: nat) {
    match m
    case Add(ref, _, qty, price) => ref < nextRef && qty < top && st.InBand(price)
    case Execute(ref, qty) => ref < nextRef && qty < top
    case ExecuteAt(ref, qty, price) => ref < nextRef && qty < top && st.InBand(price)
    case Shrink(ref, qty) => ref < nextRef && qty < top
    case Delete(ref) => ref < nextRef
    case Replace(_, _, _, _) => false
    case CrossPrint(_, _) => true
    case Action(_) => true
  }

  ghost predicate ModestPublisher(st: State, p: Publisher, top: nat) {
    && (forall id :: id in p.refs ==> p.refs[id].ref < p.nextRef)
    && forall k :: 0 <= k < |p.out| ==> Modest(st, p.out[k], top, p.nextRef)
  }

  lemma SendModest(st: State, p: Publisher, m: Message, top: nat)
    requires ModestPublisher(st, p, top) && Modest(st, m, top, p.nextRef)
    ensures ModestPublisher(st, p.Send(m), top)
  {}

  lemma TakeModest(st: State, p: Publisher, id: nat, qty: nat, top: nat)
    requires ModestPublisher(st, p, top) && id in p.refs
    ensures ModestPublisher(st, Take(p, id, qty), top)
  {}

  lemma ExecModest(st: State, p: Publisher, id: nat, fill: nat, price: int, top: nat)
    requires ModestPublisher(st, p, top) && fill < top && st.InBand(price)
    ensures ModestPublisher(st, ExecCross(p, id, fill, price), top)
  {
    hide ModestPublisher, Take;
    if id in p.refs && Min(fill, p.refs[id].displayed) > 0 {
      var part := Min(fill, p.refs[id].displayed);
      RefModest(st, p, id, top);
      SendModest(st, p, ExecuteAt(p.refs[id].ref, part, price), top);
      TakeModest(st, p.Send(ExecuteAt(p.refs[id].ref, part, price)), id, part, top);
    }
  }

  lemma RefModest(st: State, p: Publisher, id: nat, top: nat)
    requires ModestPublisher(st, p, top) && id in p.refs
    ensures p.refs[id].ref < p.nextRef
  {}

  lemma RestModest(st: State, p: Publisher, id: nat, side: Side, price: int, qty: nat, top: nat)
    requires ModestPublisher(st, p, top) && qty < top && st.InBand(price)
    ensures ModestPublisher(st, OnRest(p, id, side, price, qty), top)
  {}

  lemma DropModest(st: State, p: Publisher, id: nat, m: Message, top: nat)
    requires ModestPublisher(st, p, top) && Modest(st, m, top, p.nextRef)
    ensures ModestPublisher(st, p.Send(m).(refs := p.refs - {id}), top)
  {}

  lemma EventModest(st: State, p: Publisher, e: Event, top: nat)
    requires ModestPublisher(st, p, top) && Mild(st, top, e)
    ensures ModestPublisher(st, OnEvent(p, e), top)
  {
    hide ModestPublisher, Take, ExecCross;
    match e {
      case Rested(id, side, price, qty) => RestModest(st, p, id, side, price, qty, top);
      case Traded(taker, maker, price, qty, _) =>
        ExecModest(st, p, taker, qty, price, top);
        ExecModest(st, ExecCross(p, taker, qty, price), maker, qty, price, top);
        if maker in p.refs {
          RefModest(st, p, maker, top);
          SendModest(st, p, Execute(p.refs[maker].ref, qty), top);
          TakeModest(st, p.Send(Execute(p.refs[maker].ref, qty)), maker, qty, top);
        }
      case Cancelled(id) =>
        if id in p.refs {
          RefModest(st, p, id, top);
          DropModest(st, p, id, Delete(p.refs[id].ref), top);
        }
      case Accepted(_, _, _, _) =>
      case Rejected(_) =>
    }
  }

  lemma {:induction false} EventsModest(st: State, p: Publisher, es: seq<Event>, top: nat)
    requires ModestPublisher(st, p, top) && forall n :: 0 <= n < |es| ==> Mild(st, top, es[n])
    ensures ModestPublisher(st, OnEvents(p, es), top)
    decreases |es|
  {
    hide ModestPublisher, OnEvent, Mild;
    if es != [] {
      EventModest(st, p, es[0], top);
      EventsModest(st, OnEvent(p, es[0]), es[1..], top);
    }
  }

  lemma ShrinkModest(st: State, p: Publisher, id: nat, before: nat, after: nat, top: nat)
    requires ModestPublisher(st, p, top) && before < top
    ensures ModestPublisher(st, PublishShrink(p, id, before, after), top)
  {}

  lemma DisplayedIsLight(st: State, id: nat, top: nat)
    requires Light(st, top) && st.Indexed() && top > 0
    ensures OrderQty(st, id) < top
  {
    hide State.ListedAt, Light;
    if id in st.live { LightAt(st, st.live[id].shelf, st.live[id].tick, Seat(st, id), top); }
  }

  lemma CallModest(st: State, p: Publisher, op: Op, top: nat)
    requires Light(st, top) && Valid(st) && LightOp(op, top) && top > 0 && ModestPublisher(st, p, top)
    ensures ModestPublisher(st, Publish(p, st, op), top) && Keeps(st, Step(st, op).st, top)
  {
    hide State.ListedAt, StopsInBand, Step, Light, ModestPublisher, OnEvents, PublishShrink, OrderQty, SawBookEvent,
      Mild;
    StepValid(st, op);
    StepKeeps(st, op, top);
    var t := Step(st, op).st;
    var news := t.tape[|st.tape|..];
    NewsMild(st, t, top);
    EventsModest(st, p, news, top);
    match op {
      case Halt => SendModest(st, p, Action(true), top); EventsModest(st, p.Send(Action(true)), news, top);
      case Resume => SendModest(st, p, Action(false), top); EventsModest(st, p.Send(Action(false)), news, top);
      case UncrossBook => CrossModest(st, p, t, Step(st, op).reply, top);
      case Reduce(id, _) =>
        DisplayedIsLight(st, id, top);
        ShrinkModest(st, OnEvents(p, news), id, OrderQty(st, id), OrderQty(t, id), top);
      case Modify(id, _, _) =>
        DisplayedIsLight(st, id, top);
        ShrinkModest(st, OnEvents(p, news), id, OrderQty(st, id), OrderQty(t, id), top);
      case _ =>
    }
  }

  lemma NewsMild(st: State, t: State, top: nat)
    requires Keeps(st, t, top)
    ensures forall n :: 0 <= n < |t.tape| - |st.tape| ==> Mild(st, top, t.tape[|st.tape|..][n])
  {
    forall n | 0 <= n < |t.tape| - |st.tape| ensures Mild(st, top, t.tape[|st.tape|..][n]) {
      assert t.tape[|st.tape|..][n] == t.tape[|st.tape| + n];
    }
  }

  lemma ModeModest(st: State, p: Publisher, h: bool, top: nat)
    requires ModestPublisher(st, p, top)
    ensures ModestPublisher(st, p.(inCross := h), top)
  {}

  lemma CrossModest(st: State, p: Publisher, t: State, reply: Reply, top: nat)
    requires st.Indexed() && t.Indexed() && Keeps(st, t, top) && ModestPublisher(st, p, top)
    ensures ModestPublisher(st, PubStep(p, st, UncrossBook, t, reply), top)
  {
    hide State.ListedAt, Light, ModestPublisher, OnEvents, Mild;
    NewsMild(st, t, top);
    ModeModest(st, p, true, top);
    var q := OnEvents(p.(inCross := true), t.tape[|st.tape|..]);
    EventsModest(st, p.(inCross := true), t.tape[|st.tape|..], top);
    ModeModest(st, q, false, top);
    if reply.Crossed? && t.last.Some? {
      SendModest(st, q.(inCross := false), CrossPrint(reply.qty, t.last.value), top);
    }
  }

  lemma SameBand(a: State, t: State, p: Publisher, top: nat)
    requires ModestPublisher(a, p, top) && t.min == a.min && t.width == a.width
    ensures ModestPublisher(t, p, top)
  {
    forall k | 0 <= k < |p.out|
      ensures Modest(t, p.out[k], top, p.nextRef) { assert Modest(a, p.out[k], top, p.nextRef); }
  }

  /** Over every run of calls that submit less than `top`. */
  lemma {:induction false} RunModest(st: State, p: Publisher, ops: seq<Op>, top: nat)
    requires Light(st, top) && Valid(st) && top > 0 && ModestPublisher(st, p, top)
    requires forall k :: 0 <= k < |ops| ==> LightOp(ops[k], top)
    ensures ModestPublisher(st, PublishRun(p, st, ops), top)
    decreases |ops|
  {
    hide State.ListedAt, StopsInBand, Step, Publish, Light, ModestPublisher, LightOp;
    if ops != [] {
      StepValid(st, ops[0]);
      CallModest(st, p, ops[0], top);
      var t, q := Step(st, ops[0]).st, Publish(p, st, ops[0]);
      KeepsEnds(st, t, top);
      SameBand(st, t, q, top);
      RunModest(t, q, ops[1..], top);
      SameBand(t, st, PublishRun(q, t, ops[1..]), top);
    }
  }

  // ---- the round trip over the wire -----------------------------------

  /** The band and every submitted quantity fit 32 bits, the references given out 64. */
  ghost predicate FitsFeed(min: int, width: nat, ops: seq<Op>)
    requires Valid(Fresh(min, width))
  {
    && 0 <= min && min + width <= B32 && (forall k :: 0 <= k < |ops| ==> LightOp(ops[k], B32))
    && PublishRun(NEW_PUBLISHER, Fresh(min, width), ops).nextRef <= B64
  }

  /** Everything a fresh venue publishes then fits the fields of the feed. */
  lemma PublishedFits(min: int, width: nat, ops: seq<Op>)
    requires width > 0 && Valid(Fresh(min, width)) && FitsFeed(min, width, ops)
    ensures forall k :: 0 <= k < |PublishRun(NEW_PUBLISHER, Fresh(min, width), ops).out| ==>
      Fits(PublishRun(NEW_PUBLISHER, Fresh(min, width), ops).out[k])
  {
    hide State.ListedAt, StopsInBand, PublishRun, LightOp;
    var st := Fresh(min, width);
    FreshIsLight(min, width, B32);
    RunModest(st, NEW_PUBLISHER, ops, B32);
  }

  lemma FreshIsLight(min: int, width: nat, top: nat)
    requires width > 0
    ensures Light(Fresh(min, width), top)
  {
    FreshIsIndexed(min, width);
    forall s: Shelf, i | 0 <= i < width ensures LightQueue(Fresh(min, width).Get(s)[i], top) { ShelfCases(s); }
  }

  /** From a fresh venue through encoding, framing, splitting and parsing to the rebuilt
      engine: the same levels, quantities and order. */
  lemma RoundTripsOverTheWire(min: int, width: nat, ops: seq<Op>, es: seq<Envelope>)
    requires width > 0 && Valid(Fresh(min, width)) && FitsFeed(min, width, ops)
    requires ResumesUncrossed(Fresh(min, width), ops) && AuctionsAtLimit(Fresh(min, width), ops)
    requires |es| == |PublishRun(NEW_PUBLISHER, Fresh(min, width), ops).out|
    requires forall k :: 0 <= k < |es| ==> Addressed(es[k])
    ensures BuilderValid(NewBuilder(min, width))
    ensures var bytes := Stream(EncodeAll(PublishRun(NEW_PUBLISHER, Fresh(min, width), ops).out, es));
      var e := Replay(NewBuilder(min, width), Received(Split(bytes))).engine;
      SameDisplay(Run(Fresh(min, width), ops), e) && e.last.None?
  {
    hide State.ListedAt, StopsInBand, PublishRun, Run, ResumesUncrossed, AuctionsAtLimit, SameDisplay, FitsFeed, Fits,
      Replay, Stream, Split, Received, EncodeAll, Addressed;
    PublishedFits(min, width, ops);
    RoundTrips(min, width, ops);
    var out := PublishRun(NEW_PUBLISHER, Fresh(min, width), ops).out;
    forall k | 0 <= k < |out| ensures FitsBook(out[k]) { FitsForBook(out[k]); }
    WireIsTransparent(NewBuilder(min, width), out, es);
  }

  lemma FitsForBook(m: Message)
    requires Fits(m)
    ensures FitsBook(m)
  {}
}
