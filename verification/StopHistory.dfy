/** Stops over whole runs, by the triggers they were submitted with. */
module StopHistory {
  import opened Types
  import opened Ladders
  import opened Book
  import opened Matching
  import opened Auction
  import opened Engine
  import opened Safety
  import opened StopCascade
  import opened StopOrders

  /** The stops submitted so far, by the ids they were answered with. */
  type History = map<nat, Ask>

  function Noted(h: History, st: State, op: Op): History
    requires Valid(st)
  {
    var reply := Step(st, op).reply;
    if IsStop(op) && reply.Assigned? && reply.id != 0 then h[reply.id := AskOf(op)] else h
  }

  function HistoryOf(h: History, st: State, ops: seq<Op>): History
    requires Valid(st)
    decreases |ops|
  {
    if ops == [] then h
    else
      StepValid(st, ops[0]);
      HistoryOf(Noted(h, st, ops[0]), Step(st, ops[0]).st, ops[1..])
  }

  /** Every pending stop stands at its submitted trigger and is as it was submitted. */
  ghost predicate AsAsked(st: State, h: History) {
    forall s: Side, i, k :: 0 <= i < |st.Get(Pending(s))| && 0 <= k < |st.Get(Pending(s))[i]| ==>
      AskedFor(st.Get(Pending(s))[i][k], s, st.min + i, h)
  }

  predicate AskedFor(o: Order, side: Side, trigger: int, h: History) {
    o.id in h && h[o.id] == Ask(side, trigger, o.qty, o.owner, o.stp, o.market, if o.market then 0 else o.limit)
  }

  /** Pending stops only go. */
  ghost predicate OnlyFewer(a: State, t: State) {
    && t.min == a.min
    && (forall s: Side :: |t.Get(Pending(s))| == |a.Get(Pending(s))|)
    && (forall s: Side, i, k :: 0 <= i < |t.Get(Pending(s))| && 0 <= k < |t.Get(Pending(s))[i]| ==>
          t.Get(Pending(s))[i][k] in a.Get(Pending(s))[i])
  }

  lemma FewerAsAsked(a: State, t: State, h: History)
    requires AsAsked(a, h) && OnlyFewer(a, t)
    ensures AsAsked(t, h)
  {
    forall s: Side, i, k | 0 <= i < |t.Get(Pending(s))| && 0 <= k < |t.Get(Pending(s))[i]|
      ensures AskedFor(t.Get(Pending(s))[i][k], s, t.min + i, h)
    {
      var j := Position(a.Get(Pending(s))[i], t.Get(Pending(s))[i][k]);
      assert AskedFor(a.Get(Pending(s))[i][j], s, a.min + i, h);
    }
  }

  lemma SameFewer(a: State, t: State)
    requires t.min == a.min
    requires t.Get(Pending(Buy)) == a.Get(Pending(Buy)) && t.Get(Pending(Sell)) == a.Get(Pending(Sell))
    ensures OnlyFewer(a, t)
  {
    forall s: Side ensures t.Get(Pending(s)) == a.Get(Pending(s)) { assert s == Buy || s == Sell; }
  }

  lemma LeaveFewer(st: State, s: Shelf, i: nat, k: nat)
    requires st.Shaped() && i < st.width && k < |st.Get(s)[i]|
    ensures OnlyFewer(st, Leave(st, s, i, k))
  {
    var t, q := Leave(st, s, i, k), st.Get(s)[i];
    forall r: Side, j, n | 0 <= j < |t.Get(Pending(r))| && 0 <= n < |t.Get(Pending(r))[j]|
      ensures t.Get(Pending(r))[j][n] in st.Get(Pending(r))[j]
    {
      if Place(Pending(r), j) == Place(s, i) {
        assert Without(q, k)[n] == q[if n < k then n else n + 1];
      } else {
        assert t.Get(Pending(r))[j] == st.Get(Pending(r))[j];
      }
    }
  }

  // ---- each call ------------------------------------------------------

  lemma EnterFewer(st: State, side: Side, price: int, qty: nat, tif: TimeInForce, t: Terms)
    requires Valid(st) && st.InBand(price) && qty > 0
    ensures OnlyFewer(st, Enter(st, side, price, qty, tif, t).st)
  {
    hide State.ListedAt, StopsInBand, PlaceLimit, OnlyFewer;
    AcceptSteady(st, side, price, qty);
    PlaceSteady(Accept(st, side, price, qty), st.nextId, side, st.Tick(price), qty, tif, t);
    SameFewer(st, Enter(st, side, price, qty, tif, t).st);
  }

  lemma ModifyFewer(st: State, id: nat, price: int, qty: nat)
    requires Valid(st)
    ensures OnlyFewer(st, DoModify(st, id, price, qty).st)
  {
    hide State.ListedAt, StopsInBand, PlaceLimit, Remove, OnlyFewer, DoReduce;
    SameFewer(st, st);
    if id in st.live && qty == 0 {
      RemoveFewer(st, id);
    } else if id in st.live && !st.live[id].shelf.stop && st.InBand(price) {
      var o, side := OrderOf(st, id), st.live[id].shelf.side;
      if qty <= Size(o) { ReduceFewer(st, id, Size(o) - qty); }
      RemoveKeepsStops(st, id);
      RemoveValid(st, id);
      ReentryIndexed(st, id, price, qty);
      PlaceSteady(Reentered(st, id, price, qty), id, side, st.Tick(price), qty, GTC, Terms(o.owner, o.stp, o.peak));
      SameFewer(st, CancelReplace(st, id, price, qty));
    }
  }

  lemma RemoveKeepsStops(st: State, id: nat)
    requires Valid(st) && id in st.live && !st.live[id].shelf.stop
    ensures forall s: Side :: Remove(st, id).Get(Pending(s)) == st.Get(Pending(s))
    ensures 0 < id < st.nextId
  {
    hide State.ListedAt, StopsInBand;
  }

  lemma RemoveFewer(st: State, id: nat)
    requires Valid(st) && id in st.live
    ensures OnlyFewer(st, Remove(st, id)) && OnlyFewer(st, Remove(st, id).Emit(Cancelled(id)))
  {
    hide State.ListedAt, StopsInBand;
    LeaveFewer(st, st.live[id].shelf, st.live[id].tick, Seat(st, id));
  }

  lemma ReduceFewer(st: State, id: nat, delta: nat)
    requires Valid(st)
    ensures OnlyFewer(st, DoReduce(st, id, delta).st)
  {
    hide State.ListedAt, StopsInBand, OnlyFewer;
    SameFewer(st, st);
    if id in st.live && !st.live[id].shelf.stop {
      RemoveFewer(st, id);
      SameFewer(st, DoReduce(st, id, delta).st);
    }
  }

  lemma UncrossFewer(st: State)
    requires Valid(st)
    ensures OnlyFewer(st, Uncross(st).st)
  {
    hide State.ListedAt, StopsInBand, Uncross, OnlyFewer;
    UncrossUncrosses(st);
    SameFewer(st, Uncross(st).st);
  }

  /** No call but the submission of a stop adds one, or changes one that waits. */
  lemma DoFewer(st: State, op: Op)
    requires Valid(st) && !IsStop(op)
    ensures OnlyFewer(st, Do(st, op).st)
  {
    hide State.ListedAt, StopsInBand, Enter, DoReduce, DoModify, Uncross, Remove, Match, OnlyFewer;
    SameFewer(st, Reject(st).st);
    match op {
      case SubmitLimit(side, price, qty, tif, owner, stp) =>
        if st.InBand(price) && qty > 0 { EnterFewer(st, side, price, qty, tif, Terms(owner, stp, 0)); }
      case SubmitMarket(side, qty, owner, stp) =>
        var a := Accept(st, side, 0, qty);
        AcceptSteady(st, side, 0, qty);
        MatchSteady(a, Sweeping(a, st.nextId, side, Terms(owner, stp, 0)), qty);
        SameFewer(st, Do(st, op).st);
      case SubmitIceberg(side, price, qty, display, tif, owner, stp) =>
        if st.InBand(price) && qty > 0 { EnterFewer(st, side, price, qty, tif, Terms(owner, stp, display)); }
      case Cancel(id) => if id in st.live { RemoveFewer(st, id); } else { SameFewer(st, st); }
      case Reduce(id, delta) => ReduceFewer(st, id, delta);
      case Modify(id, price, qty) => ModifyFewer(st, id, price, qty);
      case Halt => SameFewer(st, st.(halted := true));
      case Resume => SameFewer(st, st.(halted := false));
      case UncrossBook => UncrossFewer(st);
    }
  }

  /** An accepted stop is on record as asked, and no stop that waits is overwritten. */
  lemma StopNoted(h: History, st: State, op: Op)
    requires Valid(st) && IsStop(op) && AsAsked(st, h) && Do(st, op).reply == Assigned(st.nextId)
    ensures Noted(h, st, op) == h[st.nextId := AskOf(op)] && AsAsked(st, Noted(h, st, op))
  {
    hide State.ListedAt, StopsInBand, Do, Pump;
    HistoryGrows(st, h, Noted(h, st, op), st.nextId);
  }

  lemma StopDoAsAsked(st: State, op: Op, h: History)
    requires Valid(st) && IsStop(op) && AsAsked(st, h)
    ensures AsAsked(Do(st, op).st, Noted(h, st, op))
  {
    hide State.ListedAt, State.Bounded, StopsInBand, Do, Pump, OnlyFewer, AsAsked, Noted;
    var x, id := AskOf(op), st.nextId;
    DoMin(st, op);
    if !WellStopped(st, x) {
      BadStopIsRejected(st, op);
      BadStopNoted(h, st, op);
      SameFewer(st, Do(st, op).st);
      FewerAsAsked(st, Do(st, op).st, h);
    } else if !st.halted && Reached(x, st.last) {
      var limit := if !x.market then x.limit - st.min else if x.side.Buy? then st.width - 1 else 0;
      StopFiresAtOnce(st, op, Taker(id, x.side, limit, x.owner, x.stp));
      StopNoted(h, st, op);
      SameFewer(st, Do(st, op).st);
      FewerAsAsked(st, Do(st, op).st, Noted(h, st, op));
    } else {
      StopWaits(st, op);
      StopNoted(h, st, op);
      JoinAsAsked(st, Do(st, op).st, x.trigger - st.min, id, x, Noted(h, st, op));
    }
  }

  lemma BadStopNoted(h: History, st: State, op: Op)
    requires Valid(st) && Do(st, op).reply == Assigned(0)
    ensures Noted(h, st, op) == h
  {
    hide State.ListedAt, StopsInBand, Do, Pump;
  }

  lemma DoMin(st: State, op: Op)
    requires Valid(st) && IsStop(op)
    ensures Do(st, op).st.min == st.min
  {
    hide State.ListedAt, StopsInBand, ExecuteStop;
    var x := AskOf(op);
    if WellStopped(st, x) {
      var a, o := Accept(st, x.side, x.trigger, x.qty), Node(st.nextId, x.qty, x.owner, x.stp, 0, 0, x.market, x.limit);
      AcceptSteady(st, x.side, x.trigger, x.qty);
      ExecuteSteady(a, x.side, o);
    }
  }

  /** A new id is none of those waiting. */
  lemma HistoryGrows(st: State, h: History, h': History, id: nat)
    requires st.Indexed() && AsAsked(st, h) && id == st.nextId && forall j :: j in h && j != id ==>
      j in h' && h'[j] == h[j]
    ensures AsAsked(st, h')
  {
    hide State.ListedAt;
    forall s: Side, i, k | 0 <= i < |st.Get(Pending(s))| && 0 <= k < |st.Get(Pending(s))[i]|
      ensures AskedFor(st.Get(Pending(s))[i][k], s, st.min + i, h')
    {
      Locate(st, Pending(s), i, k);
      assert AskedFor(st.Get(Pending(s))[i][k], s, st.min + i, h);
    }
  }

  lemma JoinAsAsked(st: State, t: State, tick: nat, id: nat, x: Ask, h: History)
    requires st.Shaped() && AsAsked(st, h) && t.min == st.min && tick == x.trigger - st.min < st.width
    requires x.qty > 0 && id in h && h[id] == x && (x.market ==> x.limit == 0)
    requires forall s: Shelf :: |t.Get(s)| == st.width && |st.Get(s)| == st.width
    requires t.Get(Pending(x.side))[tick] ==
      st.Get(Pending(x.side))[tick] + [Node(id, x.qty, x.owner, x.stp, 0, 0, x.market, x.limit)]
    requires forall s: Shelf, j :: 0 <= j < st.width && Place(s, j) != Place(Pending(x.side), tick) ==>
      t.Get(s)[j] == st.Get(s)[j]
    ensures AsAsked(t, h)
  {
    forall s: Side, i, k | 0 <= i < |t.Get(Pending(s))| && 0 <= k < |t.Get(Pending(s))[i]|
      ensures AskedFor(t.Get(Pending(s))[i][k], s, t.min + i, h)
    {
      if Place(Pending(s), i) != Place(Pending(x.side), tick) || k < |st.Get(Pending(s))[i]| {
        assert t.Get(Pending(s))[i][k] == st.Get(Pending(s))[i][k];
        assert AskedFor(st.Get(Pending(s))[i][k], s, st.min + i, h);
      }
    }
  }

  lemma DoAsAsked(st: State, op: Op, h: History)
    requires Valid(st) && AsAsked(st, h)
    ensures AsAsked(Do(st, op).st, Noted(h, st, op)) && Do(st, op).st.min == st.min
  {
    hide State.ListedAt, StopsInBand, AsAsked, Do, Pump;
    if IsStop(op) {
      DoMin(st, op);
      StopDoAsAsked(st, op, h);
    } else {
      DoFewer(st, op);
      FewerAsAsked(st, Do(st, op).st, h);
    }
  }

  /** Firing only takes stops out. */
  lemma {:induction false} LaterAsAsked(st: State, h: History, n: nat)
    requires Valid(st) && AsAsked(st, h) && n <= |Fired(st)|
    ensures AsAsked(Later(st, n), h) && Later(st, n).min == st.min && Later(st, n).width == st.width
    decreases n
  {
    hide State.ListedAt, StopsInBand, AsAsked, OnlyFewer, ExecuteStop;
    if n > 0 {
      var p := NextStop(st).value;
      FireStopFrame(st, p);
      LeaveFewer(st, p.shelf, p.tick, 0);
      FewerAsAsked(st, Leave(st, p.shelf, p.tick, 0), h);
      SameFewer(Leave(st, p.shelf, p.tick, 0), FireStop(st, p));
      FewerAsAsked(Leave(st, p.shelf, p.tick, 0), FireStop(st, p), h);
      LaterAsAsked(FireStop(st, p), h, n - 1);
    }
  }

  // ---- runs -----------------------------------------------------------

  lemma StepAsAsked(st: State, op: Op, h: History)
    requires Valid(st) && AsAsked(st, h)
    ensures AsAsked(Step(st, op).st, Noted(h, st, op)) && Step(st, op).st.min == st.min
  {
    hide State.ListedAt, StopsInBand, AsAsked, Do, Fired, Later, Noted;
    DoValid(st, op);
    DoAsAsked(st, op, h);
    var d := Do(st, op).st;
    LaterIsPump(d);
    LaterAsAsked(d, Noted(h, st, op), |Fired(d)|);
  }

  lemma {:induction false} RunAsAsked(st: State, ops: seq<Op>, h: History)
    requires Valid(st) && Quiet(st) && AsAsked(st, h)
    ensures Valid(Run(st, ops)) && Quiet(Run(st, ops)) && AsAsked(Run(st, ops), HistoryOf(h, st, ops))
    ensures Run(st, ops).min == st.min
    decreases |ops|
  {
    hide State.ListedAt, StopsInBand, AsAsked, Step, Noted, Quiet;
    if ops != [] {
      StepValid(st, ops[0]);
      StepAsAsked(st, ops[0], h);
      RunAsAsked(Step(st, ops[0]).st, ops[1..], Noted(h, st, ops[0]));
    }
  }

  lemma FreshAsAsked(min: int, width: nat)
    requires width > 0
    ensures AsAsked(Fresh(min, width), map[])
  {
    forall s: Side ensures Fresh(min, width).Get(Pending(s)) == seq(width, i => []) { ShelfCases(Pending(s)); }
  }

  /** Over every run from an empty venue, a stop that fires was submitted, the last trade has
      reached the trigger it was submitted with, and it does what was then asked for. */
  lemma FiresAtItsTrigger(min: int, width: nat, ops: seq<Op>, op: Op, n: nat, k: Taker)
    requires width > 0
    ensures Valid(Fresh(min, width)) && Valid(Run(Fresh(min, width), ops))
    ensures Valid(Do(Run(Fresh(min, width), ops), op).st)
    ensures var st, h := Run(Fresh(min, width), ops), HistoryOf(map[], Fresh(min, width), ops + [op]);
      var d := Do(st, op).st;
      n < |Fired(d)| ==>
        && var f, u, t := Fired(d)[n], Later(d, n), Later(d, n + 1);
        && f.id in h && Reached(h[f.id], u.last) && u.last == Some(f.last) && WellStopped(u, h[f.id])
        && (Becomes(u, k, f.id, h[f.id]) ==> FiresInto(u, t, k, h[f.id]))
  {
    hide State.ListedAt, StopsInBand, AsAsked, Run, Do, Fired, Later, Noted, FiresInto, Becomes, HistoryOf;
    var s0 := Fresh(min, width);
    FreshIsSafe(min, width);
    FreshAsAsked(min, width);
    RunAsAsked(s0, ops, map[]);
    var st, h0 := Run(s0, ops), HistoryOf(map[], s0, ops);
    HistorySnoc(map[], s0, ops, op);
    DoValid(st, op);
    DoAsAsked(st, op, h0);
    var d := Do(st, op).st;
    if n < |Fired(d)| {
      LaterAsAsked(d, Noted(h0, st, op), n);
      CascadeFiresTheDue(d, n, k);
      DueAsAsked(Later(d, n), Fired(d)[n], Noted(h0, st, op));
    }
  }

  lemma DueAsAsked(u: State, f: Firing, h: History)
    requires Due(u, f) && AsAsked(u, h)
    ensures f.id in h && h[f.id] == Waiting(u, f) && Reached(h[f.id], u.last) && u.last == Some(f.last) &&
      WellStopped(u, h[f.id])
  {
    assert AskedFor(u.Get(Pending(f.side))[f.tick][0], f.side, u.min + f.tick, h);
  }

  lemma {:induction false} HistorySnoc(h: History, st: State, ops: seq<Op>, op: Op)
    requires Valid(st)
    ensures Valid(Run(st, ops)) && HistoryOf(h, st, ops + [op]) == Noted(HistoryOf(h, st, ops), Run(st, ops), op)
    decreases |ops|
  {
    hide State.ListedAt, StopsInBand, Step, Noted;
    if ops == [] {
      StepValid(st, op);
      assert (ops + [op])[1..] == [];
    } else {
      StepValid(st, ops[0]);
      assert (ops + [op])[1..] == ops[1..] + [op];
      HistorySnoc(Noted(h, st, ops[0]), Step(st, ops[0]).st, ops[1..], op);
    }
  }

  /** And over every run a stop still pending in continuous trading stands as submitted,
      its trigger not reached. */
  lemma PendingIsNotReached(min: int, width: nat, ops: seq<Op>, side: Side, i: nat, k: nat)
    requires width > 0
    ensures Valid(Fresh(min, width)) && Valid(Run(Fresh(min, width), ops))
    ensures var t, h := Run(Fresh(min, width), ops), HistoryOf(map[], Fresh(min, width), ops);
      i < |t.Get(Pending(side))| && k < |t.Get(Pending(side))[i]| ==>
        var o := t.Get(Pending(side))[i][k];
        && AskedFor(o, side, min + i, h) && (t.halted || !Reached(h[o.id], t.last))
  {
    hide State.ListedAt, StopsInBand, Run, HistoryOf, AskedFor, AsAsked;
    var s0 := Fresh(min, width);
    FreshIsSafe(min, width);
    FreshAsAsked(min, width);
    RunAsAsked(s0, ops, map[]);
    var t, h := Run(s0, ops), HistoryOf(map[], s0, ops);
    if i < |t.Get(Pending(side))| && k < |t.Get(Pending(side))[i]| { QuietIsUnreached(t, h, side, i, k); }
  }

  lemma QuietIsUnreached(t: State, h: History, side: Side, i: nat, k: nat)
    requires Quiet(t) && AsAsked(t, h) && i < |t.Get(Pending(side))| && k < |t.Get(Pending(side))[i]|
    ensures var o := t.Get(Pending(side))[i][k];
      AskedFor(o, side, t.min + i, h) && (t.halted || !Reached(h[o.id], t.last))
  {
    var b, a := Best(Sell, t.Get(Pending(Buy))), Best(Buy, t.Get(Pending(Sell)));
    assert t.Get(Pending(side))[i] != [];
    assert AskedFor(t.Get(Pending(side))[i][k], side, t.min + i, h);
  }
}
