/** Stops by what was submitted: where they wait, when they fire and what they then do. */
module StopOrders {
  import opened Types
  import opened Ladders
  import opened Book
  import opened Matching
  import opened SweepLaws
  import opened Reach
  import opened Engine
  import opened StopCascade
  import opened Entries

  // ---- submitted stops ------------------------------------------------

  /** A stop as its sender asked for it; `limit` is 0 for a stop that becomes a market order. */
  datatype Ask = Ask(side: Side, trigger: int, qty: nat, owner: nat, stp: StpPolicy, market: bool, limit: int)

  predicate IsStop(op: Op) { op.SubmitStop? || op.SubmitStopLimit? }

  function AskOf(op: Op): Ask
    requires IsStop(op)
  {
    match op
    case SubmitStop(side, trigger, qty, owner, stp) => Ask(side, trigger, qty, owner, stp, true, 0)
    case SubmitStopLimit(side, trigger, limit, qty, owner, stp) => Ask(side, trigger, qty, owner, stp, false, limit)
  }

  predicate Priced(st: State, price: int) { st.min <= price < st.min + st.width }

  predicate WellStopped(st: State, x: Ask) { Priced(st, x.trigger) && x.qty > 0 && (x.market || Priced(st, x.limit)) }

  /** A trade at `last` reaches the trigger: a buy stop from below, a sell stop from above. */
  predicate Reached(x: Ask, last: Option<int>) {
    last.Some? && if x.side.Buy? then x.trigger <= last.value else last.value <= x.trigger
  }

  /** The taker a stop becomes: a market order, or a limit order at its limit. */
  ghost predicate Becomes(st: State, k: Taker, id: nat, x: Ask) {
    Sends(k, id, x.side, x.owner, x.stp) && if x.market then TakesAnything(st, k) else TakesAt(st, k, x.limit)
  }

  /** What a stop does when it fires: it takes what is executable; what is left of a market
      order is dropped, what is left of a limit rests last at that limit, all of it shown. */
  ghost predicate FiresInto(a: State, r: State, k: Taker, x: Ask)
    requires WellStopped(a, x)
  {
    var can := Executable(a, k); var done := if x.qty < can then x.qty else can;
    if !x.market && done < x.qty && !Walled(a, k) then TookAndRests(a, r, k, x.limit - a.min, x.qty, 0, done)
    else Took(a, r, k, done) && (!x.market && done < x.qty ==> LastSaid(r, Cancelled(k.id)))
  }

  lemma ExecuteOutcome(a: State, o: Node, x: Ask, k: Taker)
    requires a.Indexed() && !a.halted && WellStopped(a, x) && Becomes(a, k, o.id, x)
    requires o.qty == x.qty && o.owner == x.owner && o.stp == x.stp && o.market == x.market &&
      (x.market || o.limit == x.limit)
    requires 0 < o.id < a.nextId && o.id !in a.live
    ensures FiresInto(a, ExecuteStop(a, x.side, o), k, x)
  {
    hide State.ListedAt, State.Bounded, Match, PlaceLimit, TradedQty, Executable, Walled, TookAndRests, Took;
    var t := Terms(o.owner, o.stp, 0);
    if o.market {
      SweepTakes(a, k, Sweeping(a, o.id, x.side, t), o.qty);
    } else {
      LimitTakes(a, o.id, x.side, a.Tick(o.limit), o.qty, GTC, t, k);
    }
  }

  // ---- entry ----------------------------------------------------------

  /** A stop asked for badly is rejected under no id and changes nothing. */
  lemma BadStopIsRejected(st: State, op: Op)
    requires st.Indexed() && IsStop(op) && !WellStopped(st, AskOf(op))
    ensures Do(st, op) == Result(st.(tape := st.tape + [Rejected(0)]), Assigned(0))
  {}

  /** During a halt, or with its trigger not reached, a stop waits at its trigger, behind
      the stops already there, holding what was asked; nothing else moves. */
  lemma StopWaits(st: State, op: Op)
    requires Valid(st) && IsStop(op) && WellStopped(st, AskOf(op))
    requires st.halted || !Reached(AskOf(op), st.last)
    ensures var r, id, x := Do(st, op), st.nextId, AskOf(op); var at := Place(Pending(x.side), x.trigger - st.min);
      && r.reply == Assigned(id) && r.st.nextId == id + 1 && r.st.last == st.last
      && r.st.tape == st.tape + [Accepted(id, x.side, x.trigger, x.qty)]
      && r.st.live == st.live[id := at]
      && (forall s: Shelf :: |r.st.Get(s)| == st.width && |st.Get(s)| == st.width)
      && r.st.Get(at.shelf)[at.tick] ==
        st.Get(at.shelf)[at.tick] + [Node(id, x.qty, x.owner, x.stp, 0, 0, x.market, x.limit)]
      && forall s: Shelf, j :: 0 <= j < st.width && Place(s, j) != at ==> r.st.Get(s)[j] == st.Get(s)[j]
  {
    hide State.ListedAt, StopsInBand;
  }

  /** In continuous trading with its trigger reached a stop never waits: it fires at once. */
  lemma StopFiresAtOnce(st: State, op: Op, k: Taker)
    requires Valid(st) && IsStop(op) && WellStopped(st, AskOf(op))
    requires !st.halted && Reached(AskOf(op), st.last) && Becomes(st, k, st.nextId, AskOf(op))
    ensures var r, id, x := Do(st, op), st.nextId, AskOf(op);
      && r.reply == Assigned(id) && r.st.nextId == id + 1 && FiresInto(st, r.st, k, x)
      && st.tape + [Accepted(id, x.side, x.trigger, x.qty)] <= r.st.tape
      && forall s: Side :: r.st.Get(Pending(s)) == st.Get(Pending(s))
  {
    hide State.ListedAt, State.Bounded, StopsInBand, ExecuteStop, TradedQty, Executable, Walled, TookAndRests, Took;
    var x, id := AskOf(op), st.nextId;
    var a, o := Accept(st, x.side, x.trigger, x.qty), Node(id, x.qty, x.owner, x.stp, 0, 0, x.market, x.limit);
    AcceptSteady(st, x.side, x.trigger, x.qty);
    assert Do(st, op) == Result(ExecuteStop(a, x.side, o), Assigned(id));
    ExecuteOutcome(a, o, x, k);
    ExecuteSteady(a, x.side, o);
    SameBookReach(st, a, k);
    TradedQtyPush(st.tape, Accepted(id, x.side, x.trigger, x.qty));
    AcceptedThenTook(st, a, Do(st, op).st, k, if x.market then 0 else x.limit - st.min, x.qty, 0);
    forall s: Side ensures Do(st, op).st.Get(Pending(s)) == st.Get(Pending(s)) { assert s == Buy || s == Sell; }
  }

  // ---- firing ---------------------------------------------------------

  /** The state after the pump has fired `n` stops. */
  function Later(st: State, n: nat): (t: State)
    requires Valid(st) && n <= |Fired(st)|
    ensures Valid(t)
    decreases n
  {
    if n == 0 then st
    else
      FireStopFrame(st, NextStop(st).value);
      Later(FireStop(st, NextStop(st).value), n - 1)
  }

  /** The stop of firing `f` as it stands in `st`. */
  function Waiting(st: State, f: Firing): Ask
    requires f.tick < |st.Get(Pending(f.side))| && st.Get(Pending(f.side))[f.tick] != []
  {
    var o := st.Get(Pending(f.side))[f.tick][0];
    Ask(f.side, st.min + f.tick, o.qty, o.owner, o.stp, o.market, if o.market then 0 else o.limit)
  }

  /** `f` is the stop to fire in `u`: reached by the last trade, the first at its trigger, no
      pending trigger of its side reached before it, and if a sell, no pending buy reached. */
  ghost predicate Due(u: State, f: Firing) {
    && !u.halted && u.last == Some(f.last)
    && f.tick < |u.Get(Pending(f.side))| && u.Get(Pending(f.side))[f.tick] != []
    && u.Get(Pending(f.side))[f.tick][0].id == f.id && WellStopped(u, Waiting(u, f)) && Reached(Waiting(u, f), u.last)
    && (forall i :: 0 <= i < |u.Get(Pending(f.side))| && (if f.side.Buy? then i < f.tick else i > f.tick) ==>
          u.Get(Pending(f.side))[i] == [])
    && (f.side.Sell? ==> forall i :: 0 <= i < |u.Get(Pending(Buy))| && u.min + i <= f.last ==>
      u.Get(Pending(Buy))[i] == [])
  }

  lemma FirstIsDue(st: State)
    requires Valid(st) && Fired(st) != []
    ensures Due(st, Fired(st)[0])
  {
    hide State.ListedAt, StopsInBand, ExecuteStop;
    var p := NextStop(st).value;
    FireStopFrame(st, p);
    var b, a := Best(Sell, st.Get(Pending(Buy))), Best(Buy, st.Get(Pending(Sell)));
    assert p.shelf == Pending(p.shelf.side);
  }

  lemma FireOutcome(st: State, p: Place, k: Taker, x: Ask)
    requires Valid(st) && !st.halted && p.shelf == Pending(x.side) && p.tick < st.width && st.Get(p.shelf)[p.tick] != []
    requires WellStopped(st, x)
    requires var o := st.Get(p.shelf)[p.tick][0];
      && o.qty == x.qty && o.owner == x.owner && o.stp == x.stp && o.market == x.market
      && (x.market || o.limit == x.limit) && Becomes(st, k, o.id, x)
    ensures FiresInto(st, FireStop(st, p), k, x)
  {
    hide State.ListedAt, StopsInBand, ExecuteStop, TradedQty, Executable, Walled, TookAndRests, Took, FiresInto, Best;
    FireStopFrame(st, p);
    var l, o := Leave(st, p.shelf, p.tick, 0), st.Get(p.shelf)[p.tick][0];
    LeaveIndexed(st, p.shelf, p.tick, 0);
    Locate(st, p.shelf, p.tick, 0);
    ExecuteOutcome(l, o, x, k);
    SameRestingReach(st, l, k);
    LeftThenFires(st, l, FireStop(st, p), k, x);
  }

  lemma FirstFires(st: State, k: Taker)
    requires Valid(st) && Fired(st) != [] && Due(st, Fired(st)[0])
    requires Becomes(st, k, Fired(st)[0].id, Waiting(st, Fired(st)[0]))
    ensures var f, t := Fired(st)[0], Later(st, 1);
      && FiresInto(st, t, k, Waiting(st, f))
      && t.Get(Pending(f.side)) == st.Get(Pending(f.side))[f.tick := st.Get(Pending(f.side))[f.tick][1..]]
      && t.Get(Pending(f.side.Opposite())) == st.Get(Pending(f.side.Opposite()))
  {
    hide State.ListedAt, StopsInBand, ExecuteStop, FiresInto, Becomes, Best;
    var p, f := NextStop(st).value, Fired(st)[0];
    FireStopFrame(st, p);
    assert p.shelf == Pending(f.side) && Without(st.Get(p.shelf)[p.tick], 0) == st.Get(p.shelf)[p.tick][1..];
    FireOutcome(st, p, k, Waiting(st, f));
    assert Later(st, 1) == FireStop(st, p);
  }

  lemma SameRestingReach(st: State, l: State, k: Taker)
    requires l.Get(k.Shelf()) == st.Get(k.Shelf())
    ensures Executable(l, k) == Executable(st, k) && Walled(l, k) == Walled(st, k)
  {}

  lemma LeftThenFires(st: State, l: State, r: State, k: Taker, x: Ask)
    requires l.Get(Resting(k.side)) == st.Get(Resting(k.side)) && l.min == st.min && l.tape == st.tape
    requires WellStopped(l, x) && WellStopped(st, x)
    requires Executable(l, k) == Executable(st, k) && Walled(l, k) == Walled(st, k) && FiresInto(l, r, k, x)
    ensures FiresInto(st, r, k, x)
  {
    hide Executable, Walled, TradedQty;
  }

  lemma LaterFires(st: State, n: nat)
    requires Valid(st) && n < |Fired(st)|
    ensures Fired(st)[n..] == Fired(Later(st, n)) && Later(st, n + 1) == Later(Later(st, n), 1)
    decreases n
  {
    hide State.ListedAt, StopsInBand, ExecuteStop;
    if n > 0 {
      FireStopFrame(st, NextStop(st).value);
      LaterFires(FireStop(st, NextStop(st).value), n - 1);
    }
  }

  /** Each stop a pump fires is due when it fires, and then does as its sender asked. */
  lemma CascadeFiresTheDue(st: State, n: nat, k: Taker)
    requires Valid(st) && n < |Fired(st)|
    ensures Due(Later(st, n), Fired(st)[n])
    ensures Becomes(Later(st, n), k, Fired(st)[n].id, Waiting(Later(st, n), Fired(st)[n])) ==>
      FiresInto(Later(st, n), Later(st, n + 1), k, Waiting(Later(st, n), Fired(st)[n]))
  {
    hide Valid, Fired, Due, FiresInto, Becomes, Later;
    LaterFires(st, n);
    var u := Later(st, n);
    assert Fired(u)[0] == Fired(st)[n];
    FirstIsDue(u);
    DueStands(u, Fired(u)[0]);
    if Becomes(u, k, Fired(u)[0].id, Waiting(u, Fired(u)[0])) { FirstFires(u, k); }
  }

  lemma DueStands(u: State, f: Firing)
    requires Due(u, f)
    ensures f.tick < |u.Get(Pending(f.side))| && u.Get(Pending(f.side))[f.tick] != []
  {}

  /** The pump ends when nothing is due any more. */
  lemma {:induction false} LaterIsPump(st: State)
    requires Valid(st)
    ensures Later(st, |Fired(st)|) == Pump(st)
    decreases PendingStops(st)
  {
    hide State.ListedAt, StopsInBand, ExecuteStop;
    if Fired(st) != [] {
      FireStopFrame(st, NextStop(st).value);
      LaterIsPump(FireStop(st, NextStop(st).value));
    }
  }
}
