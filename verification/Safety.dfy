/** What holds over whole runs: never locked or crossed, never an armed stop left pending. */
module Safety {
  import opened Types
  import opened Ladders
  import opened Book
  import opened Matching
  import opened SweepLaws
  import opened Auction
  import opened Engine

  /** In continuous trading the book is neither locked nor crossed. */
  predicate Safe(st: State) { st.halted || st.Uncrossed() }

  /** In continuous trading no pending stop is armed. */
  predicate Quiet(st: State) { st.halted || NextStop(st).None? }

  // ---- uncrossed stays uncrossed --------------------------------------

  /** An order resting out of reach of the other side cannot cross the book. */
  lemma JoinUncrossed(st: State, side: Side, tick: nat, o: Order)
    requires st.Shaped() && st.Uncrossed() && tick < st.width && !WouldCross(st, side, tick)
    ensures Join(st, Resting(side), tick, o).Uncrossed()
  {
    var t := Join(st, Resting(side), tick, o);
    var b := t.BestTick(side);
    assert t.Get(Resting(side))[tick] != [];
    if b != tick {
      assert t.Get(Resting(side))[b] == st.Get(Resting(side))[b];
    }
    assert t.Get(Resting(side.Opposite())) == st.Get(Resting(side.Opposite()));
  }

  lemma MatchUncrossed(st: State, k: Taker, qty: nat)
    requires st.Indexed() && st.Uncrossed()
    ensures Match(st, k, qty).st.Uncrossed()
  {
    hide State.ListedAt, Match;
    MatchFrame(st, k, qty);
    EmptyingKeepsUncrossed(st, Match(st, k, qty).st, k.Against());
  }

  lemma PlaceUncrossed(st: State, id: nat, side: Side, tick: nat, qty: nat, tif: TimeInForce, t: Terms)
    requires st.Indexed() && st.Uncrossed() && !st.halted
    requires tick < st.width && qty > 0 && 0 < id < st.nextId && id !in st.live
    ensures PlaceLimit(st, id, side, tick, qty, tif, t).Uncrossed()
  {
    hide State.ListedAt, State.Bounded, Match, Best, Join;
    var k := AsTaker(id, side, tick, t);
    MatchSteady(st, k, qty);
    MatchUncrossed(st, k, qty);
    MatchExhausts(st, k, qty);
    var m := Match(st, k, qty);
    if m.left > 0 && !m.halt {
      JoinUncrossed(m.st, side, tick, Shape(id, m.left, t));
    }
  }

  lemma ExecuteUncrossed(st: State, side: Side, o: Node)
    requires st.Indexed() && st.Uncrossed() && !st.halted
    requires o.qty > 0 && (o.market || st.InBand(o.limit)) && 0 < o.id < st.nextId && o.id !in st.live
    ensures ExecuteStop(st, side, o).Uncrossed()
  {
    hide State.ListedAt, Match, PlaceLimit;
    var t := Terms(o.owner, o.stp, 0);
    if o.market {
      MatchUncrossed(st, Sweeping(st, o.id, side, t), o.qty);
    } else {
      PlaceUncrossed(st, o.id, side, st.Tick(o.limit), o.qty, GTC, t);
    }
  }

  lemma LeaveUncrossed(st: State, s: Shelf, i: nat, k: nat)
    requires st.Indexed() && st.Uncrossed() && i < st.width && k < |st.Get(s)[i]|
    ensures Leave(st, s, i, k).Uncrossed()
  {
    hide State.ListedAt;
    LeaveFrame(st, s, i, k);
    if s.stop {
      assert Leave(st, s, i, k).Get(Resting(Buy)) == st.Get(Resting(Buy));
      assert Leave(st, s, i, k).Get(Resting(Sell)) == st.Get(Resting(Sell));
    } else {
      assert s == Resting(s.side);
      EmptyingKeepsUncrossed(st, Leave(st, s, i, k), s.side);
    }
  }

  lemma FireUncrossed(st: State, p: Place)
    requires Valid(st) && st.Uncrossed() && !st.halted
    requires p.shelf.stop && p.tick < st.width && st.Get(p.shelf)[p.tick] != []
    ensures var o := st.Get(p.shelf)[p.tick][0]; o.market || st.InBand(o.limit)
    ensures FireStop(st, p).Uncrossed()
  {
    hide State.ListedAt, ExecuteStop;
    FireStopFrame(st, p);
    LeaveIndexed(st, p.shelf, p.tick, 0);
    LeaveUncrossed(st, p.shelf, p.tick, 0);
    ExecuteUncrossed(Leave(st, p.shelf, p.tick, 0), p.shelf.side, st.Get(p.shelf)[p.tick][0]);
  }

  /** The whole cascade keeps the book uncrossed and ends with nothing armed. */
  lemma {:induction false} PumpSettles(st: State)
    requires Valid(st)
    ensures Valid(Pump(st)) && Quiet(Pump(st)) && Pump(st).halted == st.halted
    ensures Safe(st) ==> Safe(Pump(st))
    ensures st.tape <= Pump(st).tape
    ensures Pump(st).width == st.width && Pump(st).min == st.min && Pump(st).nextId == st.nextId
    decreases PendingStops(st)
  {
    hide State.ListedAt, StopsInBand, FireStop;
    if !st.halted && NextStop(st).Some? {
      var p := NextStop(st).value;
      FireStopFrame(st, p);
      if st.Uncrossed() { FireUncrossed(st, p); }
      PumpSettles(FireStop(st, p));
    }
  }

  // ---- each operation -------------------------------------------------

  lemma EnterSafe(st: State, side: Side, price: int, qty: nat, tif: TimeInForce, t: Terms)
    requires Valid(st) && Safe(st) && st.InBand(price) && qty > 0
    ensures Safe(Enter(st, side, price, qty, tif, t).st)
  {
    hide State.ListedAt, StopsInBand, PlaceLimit;
    AcceptSteady(st, side, price, qty);
    var a := Accept(st, side, price, qty);
    if a.halted {
      PlaceSteady(a, st.nextId, side, a.Tick(price), qty, tif, t);
    } else {
      PlaceUncrossed(a, st.nextId, side, a.Tick(price), qty, tif, t);
    }
  }

  lemma StopSafe(st: State, side: Side, trigger: int, limit: int, qty: nat, market: bool, owner: nat, stp: StpPolicy)
    requires Valid(st) && Safe(st)
    ensures Safe(DoSubmitStop(st, side, trigger, limit, qty, market, owner, stp).st)
  {
    hide State.ListedAt, StopsInBand, ExecuteStop;
    AcceptSteady(st, side, trigger, qty);
    var a := Accept(st, side, trigger, qty);
    if st.InBand(trigger) && qty > 0 && (market || st.InBand(limit)) && !a.halted {
      var o := Node(st.nextId, qty, owner, stp, 0, 0, market, if market then 0 else limit);
      ExecuteUncrossed(a, side, o);
    }
  }

  lemma RemoveSafe(st: State, id: nat)
    requires Valid(st) && Safe(st) && id in st.live
    ensures Safe(Remove(st, id))
  {
    if !st.halted { LeaveUncrossed(st, st.live[id].shelf, st.live[id].tick, Seat(st, id)); }
  }

  lemma AmendSafe(st: State, s: Shelf, i: nat, k: nat, o: Order)
    requires Valid(st) && Safe(st) && i < st.width && k < |st.Get(s)[i]| && o.id == st.Get(s)[i][k].id && !s.stop
    ensures Safe(Amend(st, s, i, k, o))
  {
    hide State.ListedAt;
    AmendFrame(st, s, i, k, o);
    assert s == Resting(s.side);
    if !st.halted { EmptyingKeepsUncrossed(st, Amend(st, s, i, k, o), s.side); }
  }

  lemma ReduceSafe(st: State, id: nat, delta: nat)
    requires Valid(st) && Safe(st)
    ensures Safe(DoReduce(st, id, delta).st)
  {
    hide State.ListedAt, StopsInBand;
    if id in st.live && !st.live[id].shelf.stop {
      RemoveSafe(st, id);
      if delta < Size(OrderOf(st, id)) {
        AmendSafe(st, st.live[id].shelf, st.live[id].tick, Seat(st, id), Shave(OrderOf(st, id), delta));
      }
    }
  }

  lemma ModifySafe(st: State, id: nat, price: int, qty: nat)
    requires Valid(st) && Safe(st)
    ensures Safe(DoModify(st, id, price, qty).st)
  {
    hide State.ListedAt, StopsInBand, Remove, PlaceLimit, DoReduce;
    if id in st.live {
      RemoveSafe(st, id);
      RemoveValid(st, id);
      var o := OrderOf(st, id);
      if qty <= Size(o) { ReduceSafe(st, id, Size(o) - qty); }
      var side := st.live[id].shelf.side;
      var a := Remove(st, id).Emit(Cancelled(id)).Emit(Accepted(id, side, price, qty));
      TellSteady(Remove(st, id), [Cancelled(id)]);
      TellSteady(Remove(st, id).Emit(Cancelled(id)), [Accepted(id, side, price, qty)]);
      if st.InBand(price) && qty > 0 {
        var t := Terms(o.owner, o.stp, o.peak);
        if st.halted {
          PlaceSteady(a, id, side, st.Tick(price), qty, GTC, t);
        } else {
          PlaceUncrossed(a, id, side, st.Tick(price), qty, GTC, t);
        }
      }
    }
  }

  lemma DoSafe(st: State, op: Op)
    requires Valid(st) && Safe(st) && (op.Resume? ==> st.Uncrossed())
    ensures Safe(Do(st, op).st)
  {
    hide State.ListedAt, StopsInBand, Enter, DoSubmitStop, DoReduce, DoModify, Uncross, Remove, Match;
    match op {
      case SubmitLimit(side, price, qty, tif, owner, stp) =>
        if st.InBand(price) && qty > 0 { EnterSafe(st, side, price, qty, tif, Terms(owner, stp, 0)); }
      case SubmitMarket(side, qty, owner, stp) =>
        if !st.halted {
          AcceptSteady(st, side, 0, qty);
          var a := Accept(st, side, 0, qty);
          MatchUncrossed(a, Sweeping(a, st.nextId, side, Terms(owner, stp, 0)), qty);
        }
      case SubmitIceberg(side, price, qty, display, tif, owner, stp) =>
        if st.InBand(price) && qty > 0 { EnterSafe(st, side, price, qty, tif, Terms(owner, stp, display)); }
      case SubmitStop(side, trigger, qty, owner, stp) => StopSafe(st, side, trigger, 0, qty, true, owner, stp);
      case SubmitStopLimit(side, trigger, limit, qty, owner, stp) =>
        StopSafe(st, side, trigger, limit, qty, false, owner, stp);
      case Cancel(id) => if id in st.live { RemoveSafe(st, id); }
      case Reduce(id, delta) => ReduceSafe(st, id, delta);
      case Modify(id, price, qty) => ModifySafe(st, id, price, qty);
      case Halt =>
      case Resume =>
      case UncrossBook => UncrossUncrosses(st);
    }
  }

  // ---- runs -----------------------------------------------------------

  lemma StepValid(st: State, op: Op)
    requires Valid(st)
    ensures Valid(Step(st, op).st) && Quiet(Step(st, op).st)
    ensures st.tape <= Step(st, op).st.tape
    ensures Safe(st) && (op.Resume? ==> st.Uncrossed()) ==> Safe(Step(st, op).st)
  {
    hide State.ListedAt, StopsInBand, Do, Pump;
    DoValid(st, op);
    if Safe(st) && (op.Resume? ==> st.Uncrossed()) { DoSafe(st, op); }
    PumpSettles(Do(st, op).st);
  }

  function Run(st: State, ops: seq<Op>): (r: State)
    requires Valid(st)
    decreases |ops|
  {
    if ops == [] then st else StepValid(st, ops[0]); Run(Step(st, ops[0]).st, ops[1..])
  }

  /** Continuous trading is only ever resumed on an uncrossed book. */
  predicate ResumesUncrossed(st: State, ops: seq<Op>)
    requires Valid(st)
    decreases |ops|
  {
    ops == [] ||
    (StepValid(st, ops[0]);
     (ops[0].Resume? ==> st.Uncrossed()) && ResumesUncrossed(Step(st, ops[0]).st, ops[1..]))
  }

  /** Over every run: ids stay unique, no armed stop stays pending, and the
      continuous book is never locked or crossed. */
  lemma {:induction false} RunIsSafe(st: State, ops: seq<Op>)
    requires Valid(st) && Safe(st) && Quiet(st) && ResumesUncrossed(st, ops)
    ensures Valid(Run(st, ops)) && Safe(Run(st, ops)) && Quiet(Run(st, ops))
    decreases |ops|
  {
    hide State.ListedAt, StopsInBand, Step;
    if ops != [] {
      StepValid(st, ops[0]);
      RunIsSafe(Step(st, ops[0]).st, ops[1..]);
    }
  }

  lemma FreshIsSafe(min: int, width: nat)
    requires width > 0
    ensures var st := Fresh(min, width); Valid(st) && Safe(st) && Quiet(st)
  {
    FreshIsIndexed(min, width);
  }

  // ---- resuming -------------------------------------------------------

  /** From any reachable state, uncross then resume lands on a safe continuous book. */
  lemma AuctionCycleIsSafe(st: State)
    requires Valid(st)
    ensures var u := Step(st, UncrossBook).st;
      Valid(u) && Valid(Step(u, Resume).st) && !Step(u, Resume).st.halted && Safe(Step(u, Resume).st)
  {
    hide State.ListedAt, StopsInBand, Uncross, Pump, Best, Quiet;
    StepValid(st, UncrossBook);
    UncrossUncrosses(st);
    UncrossValid(st);
    PumpKeepsUncrossed(Uncross(st).st);
    var u := Step(st, UncrossBook).st;
    StepValid(u, Resume);
    HaltValid(u, false);
    PumpSettles(u.(halted := false));
  }

  lemma PumpKeepsUncrossed(st: State)
    requires Valid(st) && st.Uncrossed()
    ensures Pump(st).Uncrossed()
  {
    PumpSettles(st);
    if st.halted { assert Pump(st) == st; }
  }

  /** Resuming an uncrossed book is safe, whatever stops fire. A crossed one is exposed
      as it stands: only a stop that fires on the way can still uncross it. */
  lemma ResumeIsSafeIff(st: State)
    requires Valid(st)
    ensures Valid(st.(halted := false))
    ensures st.Uncrossed() ==> Safe(Step(st, Resume).st)
    ensures NextStop(st.(halted := false)).None? ==> (Safe(Step(st, Resume).st) <==> st.Uncrossed())
  {
    hide State.ListedAt, StopsInBand;
    HaltValid(st, false);
    PumpSettles(st.(halted := false));
    StepValid(st, Resume);
  }

  lemma RestBook(st: State, id: nat, side: Side, tick: nat, qty: nat, t: Terms)
    requires st.Shaped() && tick < st.width && qty > 0
    ensures var r := Rest(st, id, side, tick, qty, t);
      && r.Get(Resting(side)) == st.Get(Resting(side))[tick := st.Get(Resting(side))[tick] + [Shape(id, qty, t)]]
      && r.Get(Resting(side.Opposite())) == st.Get(Resting(side.Opposite()))
      && r.last == st.last && r.halted == st.halted && r.min == st.min && r.width == st.width && r.nextId == st.nextId
  {}

  /** A good-till-cancelled limit that cannot match just rests. */
  lemma EntryRests(st: State, side: Side, tick: nat, qty: nat, owner: nat, stp: StpPolicy)
    requires Valid(st) && Quiet(st) && tick < st.width && qty > 0 && (st.halted || !WouldCross(st, side, tick))
    ensures var r := Step(st, SubmitLimit(side, st.min + tick, qty, GTC, owner, stp));
      && r.reply == Assigned(st.nextId)
      && r.st == Rest(Accept(st, side, st.min + tick, qty), st.nextId, side, tick, qty, Terms(owner, stp, 0))
  {
    hide State.ListedAt, StopsInBand, Match;
    var op := SubmitLimit(side, st.min + tick, qty, GTC, owner, stp);
    var a := Accept(st, side, st.min + tick, qty);
    AcceptSteady(st, side, st.min + tick, qty);
    assert a.Tick(st.min + tick) == tick;
    if !a.halted { OutOfReach(a, AsTaker(st.nextId, side, tick, Terms(owner, stp, 0)), qty); }
    DoValid(st, op);
    PumpNothing(st, Do(st, op).st);
  }

  /** A good-till-cancelled limit entered during a halt just rests. */
  lemma HaltedEntryRests(st: State, side: Side, tick: nat, qty: nat)
    requires Valid(st) && st.halted && tick < st.width && qty > 0
    ensures var t := Step(st, SubmitLimit(side, st.min + tick, qty, GTC, 0, CancelTaker)).st;
      && Valid(t) && t.halted && t.last == st.last && t.width == st.width && t.min == st.min
      && t.BestTick(side) >= 0 && !Beats(side, tick, t.BestTick(side))
      && t.Get(Resting(side.Opposite())) == st.Get(Resting(side.Opposite()))
  {
    hide State.ListedAt, StopsInBand;
    var op := SubmitLimit(side, st.min + tick, qty, GTC, 0, CancelTaker);
    StepValid(st, op);
    var t := Step(st, op).st;
    assert t == Rest(Accept(st, side, st.min + tick, qty), st.nextId, side, tick, qty, Terms(0, CancelTaker, 0));
    assert t.Get(Resting(side))[tick] != [];
  }

  /** The unguarded claim is false: two overlapping orders entered during a halt
      stand crossed in continuous trading after a bare resume. */
  lemma ResumeCanCross()
    ensures Valid(Fresh(0, 2)) && !Safe(Run(Fresh(0, 2),
      [Halt, SubmitLimit(Buy, 1, 5, GTC, 0, CancelTaker), SubmitLimit(Sell, 0, 5, GTC, 0, CancelTaker), Resume]))
  {
    hide State.ListedAt, StopsInBand, Do, Pump;
    FreshIsSafe(0, 2);
    var o1 := SubmitLimit(Buy, 1, 5, GTC, 0, CancelTaker);
    var o2 := SubmitLimit(Sell, 0, 5, GTC, 0, CancelTaker);
    var s1 := Fresh(0, 2).(halted := true);
    HaltValid(Fresh(0, 2), true);
    HaltStep(Fresh(0, 2));
    HaltedEntryRests(s1, Buy, 1, 5);
    var s2 := Step(s1, o1).st;
    HaltedEntryRests(s2, Sell, 0, 5);
    var s3 := Step(s2, o2).st;
    ResumeIsSafeIff(s3);
    RunOne(Fresh(0, 2), Halt, [o1, o2, Resume]);
    RunOne(s1, o1, [o2, Resume]);
    RunOne(s2, o2, [Resume]);
    RunOne(s3, Resume, []);
  }

  lemma HaltStep(st: State)
    requires Valid(st)
    ensures Step(st, Halt).st == st.(halted := true)
  {}

  lemma RunOne(st: State, op: Op, ops: seq<Op>)
    requires Valid(st)
    ensures Valid(Step(st, op).st) && Run(st, [op] + ops) == Run(Step(st, op).st, ops)
  {
    StepValid(st, op);
    assert ([op] + ops)[1..] == ops;
  }

  /** Nothing new is armed by a change that leaves stops and the last trade alone. */
  lemma PumpNothing(st: State, t: State)
    requires Valid(st) && Valid(t) && Quiet(st) && t.halted == st.halted && t.last == st.last && t.min == st.min
    requires t.Get(Pending(Buy)) == st.Get(Pending(Buy)) && t.Get(Pending(Sell)) == st.Get(Pending(Sell))
    ensures Pump(t) == t
  {}

  lemma LeaveArmsNothing(st: State, s: Shelf, i: nat, k: nat)
    requires st.Indexed() && Quiet(st) && i < st.width && k < |st.Get(s)[i]|
    ensures Quiet(Leave(st, s, i, k))
  {
    hide State.ListedAt, State.Bounded, Best;
    LeaveFrame(st, s, i, k);
    var t := Leave(st, s, i, k);
    var b, a := Best(Sell, t.Get(Pending(Buy))), Best(Buy, t.Get(Pending(Sell)));
    if b >= 0 { BestOnlyWorsens(Sell, st.Get(Pending(Buy)), t.Get(Pending(Buy))); }
    if a >= 0 { BestOnlyWorsens(Buy, st.Get(Pending(Sell)), t.Get(Pending(Sell))); }
  }

  /** A cancel can arm no stop. */
  lemma CancelArmsNothing(st: State, id: nat)
    requires Valid(st) && Quiet(st) && id in st.live
    ensures Step(st, Cancel(id)).st == Remove(st, id).Emit(Cancelled(id))
    ensures Valid(Step(st, Cancel(id)).st) && Quiet(Step(st, Cancel(id)).st)
    ensures Step(st, Cancel(id)).st.live == st.live - {id}
  {
    hide State.ListedAt, StopsInBand, Best;
    StepValid(st, Cancel(id));
    RemoveValid(st, id);
    LeaveArmsNothing(st, st.live[id].shelf, st.live[id].tick, Seat(st, id));
  }

  /** No stop is pending. */
  ghost predicate NoStops(st: State) { forall id :: id in st.live ==> !st.live[id].shelf.stop }

  lemma NoStopsQuiet(st: State)
    requires Valid(st) && NoStops(st)
    ensures Pump(st) == st
  {
    hide State.ListedAt, StopsInBand;
    if NextStop(st).Some? {
      var p := NextStop(st).value;
      Locate(st, p.shelf, p.tick, 0);
    }
  }

  // ---- a trade is never forgotten -------------------------------------

  lemma {:induction false} MatchKeepsLast(st: State, k: Taker, qty: nat)
    requires st.last.Some?
    ensures Match(st, k, qty).st.last.Some?
    decreases qty, Count(st.Get(k.Shelf()))
  {
    var r := TakeTurn(st, k, qty);
    if r.Go? { MatchKeepsLast(r.st, k, r.left); }
  }

  lemma PlaceKeepsLast(st: State, id: nat, side: Side, tick: nat, qty: nat, tif: TimeInForce, t: Terms)
    requires st.Indexed() && tick < st.width && qty > 0 && st.last.Some?
    ensures PlaceLimit(st, id, side, tick, qty, tif, t).last.Some?
  {
    hide State.ListedAt, Match;
    MatchKeepsLast(st, AsTaker(id, side, tick, t), qty);
    MatchSteady(st, AsTaker(id, side, tick, t), qty);
  }

  lemma {:induction false} PumpKeepsLast(st: State)
    requires Valid(st) && st.last.Some?
    ensures Pump(st).last.Some?
    decreases PendingStops(st)
  {
    hide State.ListedAt, StopsInBand, Match, PlaceLimit;
    if !st.halted && NextStop(st).Some? {
      var p := NextStop(st).value;
      FireStopFrame(st, p);
      LeaveIndexed(st, p.shelf, p.tick, 0);
      var l, o := Leave(st, p.shelf, p.tick, 0), st.Get(p.shelf)[p.tick][0];
      var t := Terms(o.owner, o.stp, 0);
      if o.market {
        MatchKeepsLast(l, Sweeping(l, o.id, p.shelf.side, t), o.qty);
      } else {
        PlaceKeepsLast(l, o.id, p.shelf.side, st.Tick(o.limit), o.qty, GTC, t);
      }
      PumpKeepsLast(FireStop(st, p));
    }
  }

  /** A plain limit of no owner that crosses trades. */
  lemma CrossingEntryTrades(st: State, side: Side, tick: nat, qty: nat)
    requires Valid(st) && !st.halted && tick < st.width && qty > 0 && WouldCross(st, side, tick)
    ensures Step(st, SubmitLimit(side, st.min + tick, qty, GTC, 0, CancelTaker)).st.last.Some?
  {
    hide State.ListedAt, StopsInBand, Match, Pump;
    var op := SubmitLimit(side, st.min + tick, qty, GTC, 0, CancelTaker);
    var a, t := Accept(st, side, st.min + tick, qty), Terms(0, CancelTaker, 0);
    AcceptSteady(st, side, st.min + tick, qty);
    CrossingTurn(a, AsTaker(st.nextId, side, tick, t), qty);
    MatchSteady(a, AsTaker(st.nextId, side, tick, t), qty);
    assert a.Tick(st.min + tick) == tick;
    DoValid(st, op);
    PumpKeepsLast(Do(st, op).st);
  }

  lemma CrossingTurn(st: State, k: Taker, qty: nat)
    requires qty > 0 && k.owner == 0 && WouldCross(st, k.side, k.limit)
    ensures Match(st, k, qty).st.last.Some?
  {
    var r := TakeTurn(st, k, qty);
    MatchKeepsLast(r.st, k, r.left);
  }
}
