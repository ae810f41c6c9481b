/** The engine's operations as state transitions, each followed by the stop pump. */
module Engine {
  import opened Types
  import opened Ladders
  import opened Book
  import opened Matching
  import opened Reach
  import opened Auction

  /** The part of an order that survives a cancel-replace. */
  datatype Terms = Terms(owner: nat, stp: StpPolicy, peak: nat)

  datatype Op =
    | SubmitLimit(side: Side, price: int, qty: nat, tif: TimeInForce, owner: nat, stp: StpPolicy)
    | SubmitMarket(side: Side, qty: nat, owner: nat, stp: StpPolicy)
    | SubmitIceberg(side: Side, price: int, qty: nat, display: nat, tif: TimeInForce, owner: nat, stp: StpPolicy)
    | SubmitStop(side: Side, trigger: int, qty: nat, owner: nat, stp: StpPolicy)
    | SubmitStopLimit(side: Side, trigger: int, limit: int, qty: nat, owner: nat, stp: StpPolicy)
    | Cancel(id: nat)
    | Reduce(id: nat, delta: nat)
    | Modify(id: nat, price: int, qty: nat)
    | Halt
    | Resume
    | UncrossBook

  datatype Reply = Assigned(id: nat) | Unfilled(qty: nat) | Answer(ok: bool) | Crossed(qty: nat) | Silent

  datatype Result = Result(st: State, reply: Reply)

  // ---- resting and placing --------------------------------------------

  /** A peak below the quantity hides the rest of it. */
  function Shape(id: nat, qty: nat, t: Terms): (o: Order)
    requires qty > 0
    ensures o.id == id && o.qty + o.reserve == qty && o.owner == t.owner && o.stp == t.stp
  {
    if t.peak != 0 && qty > t.peak
    then Node(id, t.peak, t.owner, t.stp, qty - t.peak, t.peak, false, 0)
    else Node(id, qty, t.owner, t.stp, 0, 0, false, 0)
  }

  function Rest(st: State, id: nat, side: Side, tick: nat, qty: nat, t: Terms): State
    requires tick < |st.Get(Resting(side))| && qty > 0
  {
    var o := Shape(id, qty, t);
    Join(st, Resting(side), tick, o).Emit(Rested(id, side, st.min + tick, o.qty))
  }

  function AsTaker(id: nat, side: Side, tick: int, t: Terms): Taker {
    Taker(id, side, tick, t.owner, t.stp)
  }

  /** Match, then rest or kill the remainder; during a halt, just rest. */
  function PlaceLimit(st: State, id: nat, side: Side, tick: nat, qty: nat, tif: TimeInForce, t: Terms): State
    requires tick < st.width && |st.Get(Resting(side))| == st.width && qty > 0
  {
    if st.halted then Rest(st, id, side, tick, qty, t)
    else
      var m := Match(st, AsTaker(id, side, tick, t), qty);
      SameSideKept(st, AsTaker(id, side, tick, t), qty);
      if m.left == 0 then m.st
      else if m.halt || tif.IOC? || tif.FOK? then m.st.Emit(Cancelled(id))
      else Rest(m.st, id, side, tick, m.left, t)
  }

  lemma {:induction false} SameSideKept(st: State, k: Taker, qty: nat)
    ensures Match(st, k, qty).st.Get(Resting(k.side)) == st.Get(Resting(k.side))
    ensures Match(st, k, qty).st.min == st.min
    decreases qty, Count(st.Get(k.Shelf()))
  {
    var r := TakeTurn(st, k, qty);
    if r.Go? { SameSideKept(r.st, k, r.left); }
  }

  /** A market order reaches every tick of the band. */
  function Sweeping(st: State, id: nat, side: Side, t: Terms): Taker {
    AsTaker(id, side, if side.Buy? then st.width - 1 else 0, t)
  }

  // ---- order entry ----------------------------------------------------

  function Accept(st: State, side: Side, price: int, qty: nat): State {
    st.(nextId := st.nextId + 1).Emit(Accepted(st.nextId, side, price, qty))
  }

  predicate WouldCross(st: State, side: Side, tick: int) {
    var b := st.BestTick(side.Opposite());
    b >= 0 && if side.Buy? then b <= tick else b >= tick
  }

  function Reject(st: State): Result {
    Result(st.Emit(Rejected(0)), Assigned(0))
  }

  /** Shared tail of limit and iceberg submission. */
  function Enter(st: State, side: Side, price: int, qty: nat, tif: TimeInForce, t: Terms): Result
    requires st.Shaped() && st.InBand(price) && qty > 0
  {
    var id := st.nextId;
    var a := Accept(st, side, price, qty);
    if a.halted && !tif.GTC? then Result(a.Emit(Cancelled(id)), Assigned(id))
    else if !a.halted && tif.FOK? && Fillable(a, side, price) < qty then Result(a.Emit(Cancelled(id)), Assigned(id))
    else if !a.halted && tif.PostOnly? && WouldCross(a, side, a.Tick(price))
      then Result(a.Emit(Cancelled(id)), Assigned(id))
    else Result(PlaceLimit(a, id, side, a.Tick(price), qty, tif, t), Assigned(id))
  }

  function DoSubmitLimit(st: State, side: Side, price: int, qty: nat, tif: TimeInForce, owner: nat,
                         stp: StpPolicy): Result
    requires st.Shaped()
  {
    if !st.InBand(price) || qty == 0 then Reject(st)
    else Enter(st, side, price, qty, tif, Terms(owner, stp, 0))
  }

  function DoSubmitIceberg(st: State, side: Side, price: int, qty: nat, display: nat, tif: TimeInForce,
                           owner: nat, stp: StpPolicy): Result
    requires st.Shaped()
  {
    if !st.InBand(price) || qty == 0 || display == 0 then Reject(st)
    else Enter(st, side, price, qty, tif, Terms(owner, stp, display))
  }

  function DoSubmitMarket(st: State, side: Side, qty: nat, owner: nat, stp: StpPolicy): Result {
    if st.halted then Result(st.Emit(Rejected(0)), Unfilled(qty))
    else
      var a := Accept(st, side, 0, qty);
      var m := Match(a, Sweeping(a, st.nextId, side, Terms(owner, stp, 0)), qty);
      Result(m.st, Unfilled(m.left))
  }

  // ---- stops ----------------------------------------------------------

  predicate Armed(st: State, side: Side, trigger: int) {
    st.last.Some? && if side.Buy? then st.last.value >= trigger else st.last.value <= trigger
  }

  /** A market stop sweeps and discards; a stop-limit enters as a GTC limit. */
  function ExecuteStop(st: State, side: Side, o: Node): State
    requires st.Shaped() && o.qty > 0 && (o.market || st.InBand(o.limit))
  {
    var t := Terms(o.owner, o.stp, 0);
    if o.market then Match(st, Sweeping(st, o.id, side, t), o.qty).st
    else PlaceLimit(st, o.id, side, st.Tick(o.limit), o.qty, GTC, t)
  }

  function DoSubmitStop(st: State, side: Side, trigger: int, limit: int, qty: nat, market: bool,
                        owner: nat, stp: StpPolicy): Result
    requires st.Shaped()
  {
    if !st.InBand(trigger) || qty == 0 || (!market && !st.InBand(limit)) then Reject(st)
    else
      var id := st.nextId;
      var a := Accept(st, side, trigger, qty);
      var o := Node(id, qty, owner, stp, 0, 0, market, if market then 0 else limit);
      if !a.halted && Armed(a, side, trigger) then Result(ExecuteStop(a, side, o), Assigned(id))
      else Result(Join(a, Pending(side), a.Tick(trigger), o), Assigned(id))
  }

  /** The pending stop the last trade arms next: buy stops lowest trigger first,
      then sell stops highest first; FIFO within a trigger. */
  function NextStop(st: State): (p: Option<Place>)
    ensures p.Some? ==>
      p.value.shelf.stop && p.value.tick < |st.Get(p.value.shelf)| && st.Get(p.value.shelf)[p.value.tick] != []
  {
    var b := Best(Sell, st.Get(Pending(Buy)));
    var a := Best(Buy, st.Get(Pending(Sell)));
    if b >= 0 && Armed(st, Buy, st.min + b) then Some(Place(Pending(Buy), b))
    else if a >= 0 && Armed(st, Sell, st.min + a) then Some(Place(Pending(Sell), a))
    else None
  }

  /** Every pending stop-limit has a limit inside the band. */
  ghost predicate StopsInBand(st: State) {
    forall s: Side, i, k :: 0 <= i < |st.Get(Pending(s))| && 0 <= k < |st.Get(Pending(s))[i]| ==>
      var o := st.Get(Pending(s))[i][k]; o.market || st.InBand(o.limit)
  }

  ghost predicate Valid(st: State) { st.Indexed() && StopsInBand(st) }

  /** Fires the stop at the head of place `p`. */
  function FireStop(st: State, p: Place): State
    requires st.Shaped() && p.shelf.stop && p.tick < st.width && st.Get(p.shelf)[p.tick] != []
    requires var o := st.Get(p.shelf)[p.tick][0]; o.market || st.InBand(o.limit)
  {
    ExecuteStop(Leave(st, p.shelf, p.tick, 0), p.shelf.side, st.Get(p.shelf)[p.tick][0])
  }

  function PendingStops(st: State): nat { Count(st.Get(Pending(Buy))) + Count(st.Get(Pending(Sell))) }

  /** Fires every stop the tape has armed, including those armed on the way. */
  function Pump(st: State): State
    requires Valid(st)
    decreases PendingStops(st)
  {
    if st.halted || NextStop(st).None? then st
    else
      FireStopFrame(st, NextStop(st).value);
      Pump(FireStop(st, NextStop(st).value))
  }

  // ---- cancel, reduce, modify -----------------------------------------

  /** A live order leaves without a word. */
  function Remove(st: State, id: nat): State
    requires st.Indexed() && id in st.live
  {
    Leave(st, st.live[id].shelf, st.live[id].tick, Seat(st, id))
  }

  function DoCancel(st: State, id: nat): Result
    requires st.Indexed()
  {
    if id !in st.live then Result(st, Answer(false))
    else Result(Remove(st, id).Emit(Cancelled(id)), Answer(true))
  }

  /** Reserve is shaved before the displayed clip; priority is kept. */
  function Shave(o: Order, delta: nat): (r: Order)
    requires delta < Size(o)
    ensures Size(r) == Size(o) - delta && r.id == o.id && r.owner == o.owner
  {
    var fromReserve := Min(delta, o.reserve);
    o.(reserve := o.reserve - fromReserve, qty := o.qty - (delta - fromReserve))
  }

  function DoReduce(st: State, id: nat, delta: nat): Result
    requires st.Indexed()
  {
    if id !in st.live || st.live[id].shelf.stop then Result(st, Answer(false))
    else
      var o := OrderOf(st, id);
      if delta >= Size(o) then Result(Remove(st, id), Answer(true))
      else Result(Amend(st, st.live[id].shelf, st.live[id].tick, Seat(st, id), Shave(o, delta)), Answer(true))
  }

  function DoModify(st: State, id: nat, price: int, qty: nat): Result
    requires st.Indexed()
  {
    if id !in st.live || (st.live[id].shelf.stop && qty != 0) then Result(st, Answer(false))
    else if qty == 0 then DoCancel(st, id)
    else if !st.InBand(price) then Result(st, Answer(false))
    else
      var o := OrderOf(st, id);
      if st.Tick(price) == st.live[id].tick && qty <= Size(o) then DoReduce(st, id, Size(o) - qty)
      else Result(CancelReplace(st, id, price, qty), Answer(true))
  }

  /** The order leaves and re-enters under its own id, with its old terms, at the back. */
  function CancelReplace(st: State, id: nat, price: int, qty: nat): State
    requires st.Indexed() && id in st.live && st.InBand(price) && qty > 0
  {
    var o := OrderOf(st, id);
    var side := st.live[id].shelf.side;
    var a := Remove(st, id).Emit(Cancelled(id)).Emit(Accepted(id, side, price, qty));
    PlaceLimit(a, id, side, st.Tick(price), qty, GTC, Terms(o.owner, o.stp, o.peak))
  }

  // ---- one public call ------------------------------------------------

  function Do(st: State, op: Op): Result
    requires st.Indexed()
  {
    match op
    case SubmitLimit(side, price, qty, tif, owner, stp) => DoSubmitLimit(st, side, price, qty, tif, owner, stp)
    case SubmitMarket(side, qty, owner, stp) => DoSubmitMarket(st, side, qty, owner, stp)
    case SubmitIceberg(side, price, qty, display, tif, owner, stp) =>
      DoSubmitIceberg(st, side, price, qty, display, tif, owner, stp)
    case SubmitStop(side, trigger, qty, owner, stp) => DoSubmitStop(st, side, trigger, 0, qty, true, owner, stp)
    case SubmitStopLimit(side, trigger, limit, qty, owner, stp) =>
      DoSubmitStop(st, side, trigger, limit, qty, false, owner, stp)
    case Cancel(id) => DoCancel(st, id)
    case Reduce(id, delta) => DoReduce(st, id, delta)
    case Modify(id, price, qty) => DoModify(st, id, price, qty)
    case Halt => Result(st.(halted := true), Silent)
    case Resume => Result(st.(halted := false), Silent)
    case UncrossBook => var r := Uncross(st); Result(r.st, Crossed(r.crossed))
  }

  function Step(st: State, op: Op): Result
    requires Valid(st)
  {
    DoValid(st, op);
    var r := Do(st, op);
    Result(Pump(r.st), r.reply)
  }

  // ---- validity -------------------------------------------------------

  /** The change keeps the index, the width, and adds no pending stop. */
  ghost predicate Steady(a: State, b: State) {
    && b.Indexed() && b.width == a.width && b.min == a.min && b.halted == a.halted && b.nextId == a.nextId
    && b.Get(Pending(Buy)) == a.Get(Pending(Buy)) && b.Get(Pending(Sell)) == a.Get(Pending(Sell))
    && a.tape <= b.tape
  }

  lemma MatchSteady(st: State, k: Taker, qty: nat)
    requires st.Indexed()
    ensures Steady(st, Match(st, k, qty).st)
    ensures forall id :: id in Match(st, k, qty).st.live ==> id in st.live
  {
    hide State.ListedAt, Match;
    MatchFrame(st, k, qty);
  }

  lemma TellSteady(st: State, news: seq<Event>)
    requires st.Indexed()
    ensures Steady(st, st.(tape := st.tape + news))
  {
    TellFrame(st, st.last, news, Resting(Buy));
  }

  lemma RestSteady(st: State, id: nat, side: Side, tick: nat, qty: nat, t: Terms)
    requires st.Indexed() && tick < st.width && qty > 0 && 0 < id < st.nextId && id !in st.live
    ensures Steady(st, Rest(st, id, side, tick, qty, t))
  {
    hide State.ListedAt;
    var o := Shape(id, qty, t);
    JoinIndexed(st, Resting(side), tick, o);
    TellSteady(Join(st, Resting(side), tick, o), [Rested(id, side, st.min + tick, o.qty)]);
  }

  lemma PlaceSteady(st: State, id: nat, side: Side, tick: nat, qty: nat, tif: TimeInForce, t: Terms)
    requires st.Indexed() && tick < st.width && qty > 0 && 0 < id < st.nextId && id !in st.live
    ensures Steady(st, PlaceLimit(st, id, side, tick, qty, tif, t))
  {
    hide State.ListedAt, Match, Rest;
    if st.halted {
      RestSteady(st, id, side, tick, qty, t);
    } else {
      var k := AsTaker(id, side, tick, t);
      MatchSteady(st, k, qty);
      var m := Match(st, k, qty);
      if m.left == 0 {
      } else if m.halt || tif.IOC? || tif.FOK? {
        TellSteady(m.st, [Cancelled(id)]);
      } else {
        RestSteady(m.st, id, side, tick, m.left, t);
      }
    }
  }

  lemma ExecuteSteady(st: State, side: Side, o: Node)
    requires st.Indexed() && o.qty > 0 && (o.market || st.InBand(o.limit))
    requires 0 < o.id < st.nextId && o.id !in st.live
    ensures Steady(st, ExecuteStop(st, side, o))
  {
    hide State.ListedAt, Match, PlaceLimit;
    var t := Terms(o.owner, o.stp, 0);
    if o.market {
      MatchSteady(st, Sweeping(st, o.id, side, t), o.qty);
    } else {
      PlaceSteady(st, o.id, side, st.Tick(o.limit), o.qty, GTC, t);
    }
  }

  lemma FireStopFrame(st: State, p: Place)
    requires Valid(st) && p.shelf.stop && p.tick < st.width && st.Get(p.shelf)[p.tick] != []
    ensures var o := st.Get(p.shelf)[p.tick][0]; o.market || st.InBand(o.limit)
    ensures Valid(FireStop(st, p))
    ensures var t := FireStop(st, p); var l := Leave(st, p.shelf, p.tick, 0);
      && t.width == st.width && t.min == st.min && t.halted == st.halted && t.nextId == st.nextId
      && t.Get(Pending(Buy)) == l.Get(Pending(Buy)) && t.Get(Pending(Sell)) == l.Get(Pending(Sell))
      && st.tape <= t.tape
    ensures PendingStops(FireStop(st, p)) == PendingStops(st) - 1
  {
    hide State.ListedAt, ExecuteStop;
    var o := st.Get(p.shelf)[p.tick][0];
    assert p.shelf == Pending(Buy) || p.shelf == Pending(Sell) by {
      assert p.shelf.side == Buy || p.shelf.side == Sell;
    }
    var l := Leave(st, p.shelf, p.tick, 0);
    LeaveIndexed(st, p.shelf, p.tick, 0);
    ExecuteSteady(l, p.shelf.side, o);
    CountUpdate(st.Get(p.shelf), p.tick, Without(st.Get(p.shelf)[p.tick], 0));
    LeaveStopsInBand(st, p.shelf, p.tick, 0);
    StopsInBandSame(l, FireStop(st, p));
  }

  lemma StopsInBandSame(a: State, b: State)
    requires StopsInBand(a) && b.min == a.min && b.width == a.width
    requires b.Get(Pending(Buy)) == a.Get(Pending(Buy)) && b.Get(Pending(Sell)) == a.Get(Pending(Sell))
    ensures StopsInBand(b)
  {
    forall s: Side, i, k | 0 <= i < |b.Get(Pending(s))| && 0 <= k < |b.Get(Pending(s))[i]|
      ensures var o := b.Get(Pending(s))[i][k]; o.market || b.InBand(o.limit)
    {
      assert s == Buy || s == Sell;
    }
  }

  lemma SetQueueStopsInBand(st: State, s: Shelf, i: nat, q: Queue, where: map<nat, Place>)
    requires st.Shaped() && StopsInBand(st) && i < st.width
    requires s.stop ==> forall k :: 0 <= k < |q| ==> q[k].market || st.InBand(q[k].limit)
    ensures StopsInBand(st.SetQueue(s, i, q, where))
  {
    var t := st.SetQueue(s, i, q, where);
    forall r: Side, j, k | 0 <= j < |t.Get(Pending(r))| && 0 <= k < |t.Get(Pending(r))[j]|
      ensures var o := t.Get(Pending(r))[j][k]; o.market || t.InBand(o.limit)
    {
      if Place(Pending(r), j) == Place(s, i) {
        assert t.Get(Pending(r))[j] == q;
      } else {
        assert t.Get(Pending(r))[j] == st.Get(Pending(r))[j];
      }
    }
  }

  lemma LeaveStopsInBand(st: State, s: Shelf, i: nat, k: nat)
    requires st.Shaped() && StopsInBand(st) && i < st.width && k < |st.Get(s)[i]|
    ensures StopsInBand(Leave(st, s, i, k))
  {
    var q := st.Get(s)[i];
    if s.stop {
      assert s == Pending(s.side);
      forall j | 0 <= j < |Without(q, k)| ensures Without(q, k)[j].market || st.InBand(Without(q, k)[j].limit) {
        assert Without(q, k)[j] == st.Get(Pending(s.side))[i][if j < k then j else j + 1];
      }
    }
    SetQueueStopsInBand(st, s, i, Without(q, k), st.live - {q[k].id});
  }

  lemma SteadyValid(a: State, b: State)
    requires Valid(a) && Steady(a, b)
    ensures Valid(b)
  {
    StopsInBandSame(a, b);
  }

  lemma RemoveValid(st: State, id: nat)
    requires Valid(st) && id in st.live
    ensures Valid(Remove(st, id)) && Remove(st, id).live == st.live - {id}
    ensures st.tape == Remove(st, id).tape && Remove(st, id).nextId == st.nextId && Remove(st, id).width == st.width
    ensures Remove(st, id).min == st.min && Remove(st, id).halted == st.halted && Remove(st, id).last == st.last
  {
    hide State.ListedAt;
    var p := st.live[id];
    LeaveIndexed(st, p.shelf, p.tick, Seat(st, id));
    LeaveStopsInBand(st, p.shelf, p.tick, Seat(st, id));
  }

  lemma AcceptSteady(st: State, side: Side, price: int, qty: nat)
    requires Valid(st)
    ensures Valid(Accept(st, side, price, qty)) && st.nextId !in st.live && st.nextId > 0
  {
    var a := Accept(st, side, price, qty);
    forall p: Place | p.tick < a.width ensures a.ListedAt(p) { assert st.ListedAt(p); }
    StopsInBandSame(st, a);
  }

  lemma EnterValid(st: State, side: Side, price: int, qty: nat, tif: TimeInForce, t: Terms)
    requires Valid(st) && st.InBand(price) && qty > 0
    ensures Valid(Enter(st, side, price, qty, tif, t).st)
    ensures st.tape <= Enter(st, side, price, qty, tif, t).st.tape
  {
    hide State.ListedAt, StopsInBand, PlaceLimit;
    var a := Accept(st, side, price, qty);
    AcceptSteady(st, side, price, qty);
    TellSteady(a, [Cancelled(st.nextId)]);
    SteadyValid(a, a.Emit(Cancelled(st.nextId)));
    PlaceSteady(a, st.nextId, side, a.Tick(price), qty, tif, t);
    SteadyValid(a, PlaceLimit(a, st.nextId, side, a.Tick(price), qty, tif, t));
  }

  lemma StopValid(st: State, side: Side, trigger: int, limit: int, qty: nat, market: bool, owner: nat, stp: StpPolicy)
    requires Valid(st)
    ensures Valid(DoSubmitStop(st, side, trigger, limit, qty, market, owner, stp).st)
    ensures st.tape <= DoSubmitStop(st, side, trigger, limit, qty, market, owner, stp).st.tape
  {
    hide State.ListedAt, StopsInBand, ExecuteStop;
    var a := Accept(st, side, trigger, qty);
    AcceptSteady(st, side, trigger, qty);
    TellSteady(st, [Rejected(0)]);
    SteadyValid(st, st.Emit(Rejected(0)));
    if st.InBand(trigger) && qty > 0 && (market || st.InBand(limit)) {
      var o := Node(st.nextId, qty, owner, stp, 0, 0, market, if market then 0 else limit);
      ExecuteSteady(a, side, o);
      SteadyValid(a, ExecuteStop(a, side, o));
      JoinIndexed(a, Pending(side), a.Tick(trigger), o);
      JoinStopsInBand(a, side, a.Tick(trigger), o);
    }
  }

  lemma JoinStopsInBand(st: State, side: Side, i: nat, o: Order)
    requires st.Shaped() && StopsInBand(st) && i < st.width && (o.market || st.InBand(o.limit))
    ensures StopsInBand(Join(st, Pending(side), i, o))
  {
    var q := st.Get(Pending(side))[i];
    SetQueueStopsInBand(st, Pending(side), i, q + [o], st.live[o.id := Place(Pending(side), i)]);
  }

  lemma ReduceValid(st: State, id: nat, delta: nat)
    requires Valid(st)
    ensures Valid(DoReduce(st, id, delta).st)
    ensures st.tape <= DoReduce(st, id, delta).st.tape
  {
    hide State.ListedAt, StopsInBand;
    if id in st.live && !st.live[id].shelf.stop {
      RemoveValid(st, id);
      var p := st.live[id];
      var o := OrderOf(st, id);
      if delta < Size(o) {
        AmendIndexed(st, p.shelf, p.tick, Seat(st, id), Shave(o, delta));
        SetQueueStopsInBand(st, p.shelf, p.tick, st.Get(p.shelf)[p.tick][Seat(st, id) := Shave(o, delta)], st.live);
      }
    }
  }

  lemma ModifyValid(st: State, id: nat, price: int, qty: nat)
    requires Valid(st)
    ensures Valid(DoModify(st, id, price, qty).st)
    ensures st.tape <= DoModify(st, id, price, qty).st.tape
  {
    hide State.ListedAt, StopsInBand, PlaceLimit, Remove, DoReduce;
    if id in st.live {
      var o := OrderOf(st, id);
      if qty <= Size(o) { ReduceValid(st, id, Size(o) - qty); }
      RemoveValid(st, id);
      var r := Remove(st, id);
      var news := [Cancelled(id), Accepted(id, st.live[id].shelf.side, price, qty)];
      TellSteady(r, [Cancelled(id)]);
      SteadyValid(r, r.Emit(Cancelled(id)));
      TellSteady(r.Emit(Cancelled(id)), [news[1]]);
      var a := r.Emit(Cancelled(id)).Emit(news[1]);
      SteadyValid(r.Emit(Cancelled(id)), a);
      if st.InBand(price) && qty > 0 {
        var t := Terms(o.owner, o.stp, o.peak);
        PlaceSteady(a, id, st.live[id].shelf.side, st.Tick(price), qty, GTC, t);
        SteadyValid(a, PlaceLimit(a, id, st.live[id].shelf.side, st.Tick(price), qty, GTC, t));
      }
    }
  }

  /** Every operation keeps ids unique and indexed and stop limits in band. */
  lemma DoValid(st: State, op: Op)
    requires Valid(st)
    ensures Valid(Do(st, op).st)
    ensures st.tape <= Do(st, op).st.tape
  {
    hide State.ListedAt, StopsInBand, Enter, DoSubmitStop, DoReduce, DoModify, Uncross, Remove, Match;
    TellSteady(st, [Rejected(0)]);
    SteadyValid(st, st.Emit(Rejected(0)));
    match op {
      case SubmitLimit(side, price, qty, tif, owner, stp) =>
        if st.InBand(price) && qty > 0 { EnterValid(st, side, price, qty, tif, Terms(owner, stp, 0)); }
      case SubmitMarket(side, qty, owner, stp) =>
        AcceptSteady(st, side, 0, qty);
        var a := Accept(st, side, 0, qty);
        MatchSteady(a, Sweeping(a, st.nextId, side, Terms(owner, stp, 0)), qty);
        SteadyValid(a, Match(a, Sweeping(a, st.nextId, side, Terms(owner, stp, 0)), qty).st);
      case SubmitIceberg(side, price, qty, display, tif, owner, stp) =>
        if st.InBand(price) && qty > 0 { EnterValid(st, side, price, qty, tif, Terms(owner, stp, display)); }
      case SubmitStop(side, trigger, qty, owner, stp) => StopValid(st, side, trigger, 0, qty, true, owner, stp);
      case SubmitStopLimit(side, trigger, limit, qty, owner, stp) =>
        StopValid(st, side, trigger, limit, qty, false, owner, stp);
      case Cancel(id) => CancelValid(st, id);
      case Reduce(id, delta) => ReduceValid(st, id, delta);
      case Modify(id, price, qty) => ModifyValid(st, id, price, qty);
      case Halt => HaltValid(st, true);
      case Resume => HaltValid(st, false);
      case UncrossBook => UncrossValid(st);
    }
  }

  lemma CancelValid(st: State, id: nat)
    requires Valid(st)
    ensures Valid(DoCancel(st, id).st)
    ensures st.tape <= DoCancel(st, id).st.tape
  {
    hide State.ListedAt, StopsInBand, Remove;
    if id in st.live {
      RemoveValid(st, id);
      TellSteady(Remove(st, id), [Cancelled(id)]);
      SteadyValid(Remove(st, id), Remove(st, id).Emit(Cancelled(id)));
    }
  }

  lemma HaltValid(st: State, h: bool)
    requires Valid(st)
    ensures Valid(st.(halted := h))
  {
    var t := st.(halted := h);
    forall p: Place | p.tick < t.width ensures t.ListedAt(p) { assert st.ListedAt(p); }
    StopsInBandSame(st, t);
  }

  lemma UncrossValid(st: State)
    requires Valid(st)
    ensures Valid(Uncross(st).st)
    ensures st.tape <= Uncross(st).st.tape
  {
    hide Uncross;
    UncrossUncrosses(st);
    StopsInBandSame(st, Uncross(st).st);
  }

  lemma OutOfReach(st: State, k: Taker, qty: nat)
    requires !WouldCross(st, k.side, k.limit)
    ensures Match(st, k, qty) == Sweep(st, qty, false)
  {}

  /** The state a cancel-replaced order re-enters. */
  function Reentered(st: State, id: nat, price: int, qty: nat): State
    requires st.Indexed() && id in st.live
  {
    Remove(st, id).Emit(Cancelled(id)).Emit(Accepted(id, st.live[id].shelf.side, price, qty))
  }

  lemma ReentryIndexed(st: State, id: nat, price: int, qty: nat)
    requires Valid(st) && id in st.live
    ensures Reentered(st, id, price, qty).Indexed() && id !in Reentered(st, id, price, qty).live
  {
    hide State.ListedAt, StopsInBand, Remove;
    RemoveValid(st, id);
    TellSteady(Remove(st, id), [Cancelled(id)]);
    TellSteady(Remove(st, id).Emit(Cancelled(id)), [Accepted(id, st.live[id].shelf.side, price, qty)]);
  }
}
