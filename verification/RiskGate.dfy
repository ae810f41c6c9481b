/** The pre-trade gate in front of an engine: its checks, and kill-and-flatten. */
module RiskGates {
  import opened Types
  import opened Ladders
  import opened Book
  import opened Matching
  import opened Auction
  import opened Engine
  import opened Safety
  import opened FastEngine
  import opened Visitors
  import opened Walks

  // ---- flattening -----------------------------------------------------

  function CancelAll(st: State, ids: seq<nat>): State
    requires Valid(st)
    decreases |ids|
  {
    if ids == [] then st else StepValid(st, Cancel(ids[0])); CancelAll(Step(st, Cancel(ids[0])).st, ids[1..])
  }

  function CancelEvents(ids: seq<nat>): (es: seq<Event>)
    ensures |es| == |ids| && forall k :: 0 <= k < |ids| ==> es[k] == Cancelled(ids[k])
  {
    seq(|ids|, k requires 0 <= k < |ids| => Cancelled(ids[k]))
  }

  /** One cancel of the flatten: its event, and one live id less. */
  lemma FlattenStep(st: State, id: nat)
    requires Valid(st) && Quiet(st) && id in st.live
    ensures var t := Step(st, Cancel(id)).st;
      && Valid(t) && Quiet(t) && t.halted == st.halted && t.last == st.last
      && t.tape == st.tape + [Cancelled(id)] && t.live == st.live - {id}
  {
    hide State.ListedAt, StopsInBand, Step, Quiet;
    CancelArmsNothing(st, id);
    RemoveValid(st, id);
  }

  lemma CancelEventsCons(ids: seq<nat>)
    requires ids != []
    ensures CancelEvents(ids) == [Cancelled(ids[0])] + CancelEvents(ids[1..])
  {}

  /** With the head cancelled, `after` is what is left of `before` once the tail is too. */
  lemma LiveWithout(before: map<nat, Place>, after: map<nat, Place>, ids: seq<nat>)
    requires ids != [] && Unique(ids) && forall id :: id in ids ==> id in before
    requires after == before - {ids[0]}
    ensures Unique(ids[1..]) && forall id :: id in ids[1..] ==> id in after
    ensures forall id :: id in before && id !in ids <==> id in after && id !in ids[1..]
  {
    assert forall k :: 1 <= k < |ids| ==> ids[k] != ids[0];
  }

  lemma {:induction false} CancelAllFlattens(st: State, ids: seq<nat>)
    requires Valid(st) && Quiet(st) && Unique(ids) && forall id :: id in ids ==> id in st.live
    ensures var t := CancelAll(st, ids);
      && Valid(t) && Quiet(t) && t.halted == st.halted && t.last == st.last
      && t.tape == st.tape + CancelEvents(ids)
      && (forall id :: id in t.live <==> id in st.live && id !in ids)
    decreases |ids|
  {
    hide Valid, Step, Quiet, Unique, CancelEvents;
    if ids != [] {
      FlattenStep(st, ids[0]);
      var t := Step(st, Cancel(ids[0])).st;
      LiveWithout(st.live, t.live, ids);
      CancelEventsCons(ids);
      CancelAllFlattens(t, ids[1..]);
    }
  }

  /** From any state between calls, kill-and-flatten empties the books and reports
      exactly one cancellation for each order that was live, and nothing else. */
  lemma KillFlattens(st: State)
    requires Valid(st) && Quiet(st)
    ensures var t := CancelAll(st, AllIds(st));
      && Valid(t) && Quiet(t) && t.live == map[] && OpenOrders(t) == 0
      && t.tape == st.tape + CancelEvents(AllIds(st))
      && Unique(AllIds(st)) && (forall id :: id in AllIds(st) <==> id in st.live)
  {
    hide State.ListedAt, StopsInBand, Quiet, AllIds, CancelAll, OpenOrders;
    AllIdsExact(st);
    CancelAllFlattens(st, AllIds(st));
    assert CancelAll(st, AllIds(st)).live == map[];
    NothingOpen(CancelAll(st, AllIds(st)));
  }

  lemma NothingOpen(st: State)
    requires st.Indexed() && st.live == map[]
    ensures OpenOrders(st) == 0
  {
    forall s: Shelf, i | 0 <= i < st.width ensures st.Get(s)[i] == [] {
      if st.Get(s)[i] != [] { Locate(st, s, i, 0); }
    }
    forall s: Shelf ensures Count(st.Get(s)) == 0 { SpanEmpty(One, st.Get(s), 0, st.width); }
  }

  // ---- the checks -----------------------------------------------------

  /** Zero means unlimited throughout. */
  datatype Limits = Limits(maxQty: nat, maxNotional: nat, collar: int, maxOpen: nat, maxPosition: int,
                           maxMessages: nat, allowMarket: bool)

  const UNLIMITED := Limits(0, 0, 0, 0, 0, 0, true)

  datatype Verdict =
    | Passed | Killed | MsgBudget | MarketBlocked | OrderQty | Notional | Collar | OpenOrderCap | Position

  /** Buys count positive, sells negative. */
  function Signed(side: Side, qty: nat): int { if side.Buy? then qty as int else -(qty as int) }

  datatype Gate = Gate(limits: Limits, killed: bool, window: nat, lastReject: Verdict, rejects: map<Verdict, nat>,
                       pendingOwner: nat, owners: map<nat, nat>, positions: map<nat, int>)
  {
    function Counted(): Gate { this.(window := window + 1) }
    function NewWindow(): Gate { this.(window := 0) }

    function Fail(v: Verdict): Gate {
      this.(lastReject := v, rejects := rejects[v := 1 + if v in rejects then rejects[v] else 0])
    }

    predicate OverBudget() { limits.maxMessages != 0 && window > limits.maxMessages }
    predicate QtyOk(qty: nat) { limits.maxQty == 0 || qty <= limits.maxQty }
    predicate NotionalOk(px: int, qty: nat) { limits.maxNotional == 0 || px <= 0 || qty <= limits.maxNotional / px }
    predicate CollarOk(last: Option<int>, px: int) {
      limits.collar == 0 || last.None? || Types.Abs(px - last.value) <= limits.collar
    }
    predicate OpenOk(open: nat) { limits.maxOpen == 0 || open < limits.maxOpen }
    predicate PositionOk(owner: nat, side: Side, qty: nat) {
      limits.maxPosition == 0 || owner == 0 ||
      Types.Abs(PositionOf(owner) + Signed(side, qty)) <= limits.maxPosition
    }
    function PositionOf(owner: nat): int { if owner in positions then positions[owner] else 0 }
    function OwnerOf(id: nat): nat { if id in owners then owners[id] else 0 }

    function Moved(owner: nat, delta: int): Gate {
      if owner == 0 then this else this.(positions := positions[owner := PositionOf(owner) + delta])
    }

    /** What the gate learns from an engine event. */
    function Note(e: Event): Gate {
      match e
      case Accepted(id, _, _, _) => this.(owners := owners[id := pendingOwner])
      case Traded(taker, maker, _, qty, takerSide) =>
        var delta := Signed(takerSide, qty);
        Moved(OwnerOf(taker), delta).Moved(OwnerOf(maker), -delta)
      case _ => this
    }

    function NoteAll(es: seq<Event>): Gate
      decreases |es|
    {
      if es == [] then this else Note(es[0]).NoteAll(es[1..])
    }
  }

  /** The admission ladder of priced flow; stop-market orders have no price to check. */
  function Admit(g: Gate, last: Option<int>, open: nat, owner: nat, side: Side, qty: nat, px: int,
                 priced: bool): Verdict {
    if g.killed then Killed
    else if g.OverBudget() then MsgBudget
    else if !g.QtyOk(qty) then OrderQty
    else if priced && !g.NotionalOk(px, qty) then Notional
    else if priced && !g.CollarOk(last, px) then Collar
    else if !g.OpenOk(open) then OpenOrderCap
    else if !g.PositionOk(owner, side, qty) then Position
    else Passed
  }

  function AdmitMarket(g: Gate, last: Option<int>, open: nat, owner: nat, side: Side, qty: nat): Verdict {
    if g.killed then Killed
    else if g.OverBudget() then MsgBudget
    else if !g.limits.allowMarket then MarketBlocked
    else if !g.QtyOk(qty) then OrderQty
    else if last.Some? && !g.NotionalOk(last.value, qty) then Notional
    else if !g.OpenOk(open) then OpenOrderCap
    else if !g.PositionOk(owner, side, qty) then Position
    else Passed
  }

  function AdmitModify(g: Gate, last: Option<int>, price: int, qty: nat): Verdict {
    if g.killed then Killed
    else if g.OverBudget() then MsgBudget
    else if qty != 0 && !g.QtyOk(qty) then OrderQty
    else if qty != 0 && !g.NotionalOk(price, qty) then Notional
    else if qty != 0 && !g.CollarOk(last, price) then Collar
    else Passed
  }

  predicate IsSubmit(op: Op) {
    op.SubmitLimit? || op.SubmitMarket? || op.SubmitIceberg? || op.SubmitStop? || op.SubmitStopLimit?
  }

  /** Order flow is metered; session control is not. */
  predicate Metered(op: Op) { IsSubmit(op) || op.Cancel? || op.Reduce? || op.Modify? }

  /** What the gate says of a call, after counting it. */
  function Judge(g: Gate, last: Option<int>, open: nat, op: Op): Verdict {
    match op
    case SubmitLimit(side, price, qty, _, owner, _) => Admit(g, last, open, owner, side, qty, price, true)
    case SubmitMarket(side, qty, owner, _) => AdmitMarket(g, last, open, owner, side, qty)
    case SubmitIceberg(side, price, qty, _, _, owner, _) => Admit(g, last, open, owner, side, qty, price, true)
    case SubmitStop(side, _, qty, owner, _) => Admit(g, last, open, owner, side, qty, 0, false)
    case SubmitStopLimit(side, _, limit, qty, owner, _) => Admit(g, last, open, owner, side, qty, limit, true)
    case Modify(_, price, qty) => AdmitModify(g, last, price, qty)
    case _ => Passed
  }

  function OwnerOfCall(op: Op): nat
    requires IsSubmit(op)
  {
    op.owner
  }

  function Refusal(op: Op): Reply {
    match op
    case SubmitMarket(_, qty, _, _) => Unfilled(qty)
    case Modify(_, _, _) => Answer(false)
    case _ => Assigned(0)
  }

  datatype Gated = Gated(gate: Gate, st: State, reply: Reply)

  /** One call through the gate. */
  function GateStep(g: Gate, st: State, op: Op): Gated
    requires Valid(st)
  {
    StepValid(st, op);
    var c := if Metered(op) then g.Counted() else g;
    var v := Judge(c, st.last, OpenOrders(st), op);
    if v != Passed then Gated(c.Fail(v), st, Refusal(op))
    else
      var p := if IsSubmit(op) then c.(pendingOwner := OwnerOfCall(op)) else c;
      var r := Step(st, op);
      Gated(p.NoteAll(r.st.tape[|st.tape|..]), r.st, r.reply)
  }

  lemma {:induction false} NoteKeepsControls(g: Gate, es: seq<Event>)
    ensures var h := g.NoteAll(es); h.limits == g.limits && h.killed == g.killed && h.window == g.window
    decreases |es|
  {
    if es != [] { NoteKeepsControls(g.Note(es[0]), es[1..]); }
  }

  lemma GateKeepsControls(g: Gate, st: State, op: Op)
    requires Valid(st)
    ensures var r := GateStep(g, st, op);
      && Valid(r.st) && (Quiet(st) ==> Quiet(r.st)) && r.gate.limits == g.limits && r.gate.killed == g.killed
      && r.gate.window == g.window + (if Metered(op) then 1 else 0)
  {
    hide Valid, Step, Judge, Quiet, Safe, OpenOrders, Metered, IsSubmit, OwnerOfCall, Refusal, Gate.NoteAll;
    StepValid(st, op);
    var c := if Metered(op) then g.Counted() else g;
    var p := if IsSubmit(op) then c.(pendingOwner := OwnerOfCall(op)) else c;
    NoteKeepsControls(p, Step(st, op).st.tape[|st.tape|..]);
  }

  function GateRun(g: Gate, st: State, ops: seq<Op>): Gated
    requires Valid(st)
    decreases |ops|
  {
    if ops == [] then Gated(g, st, Silent)
    else
      GateKeepsControls(g, st, ops[0]);
      var r := GateStep(g, st, ops[0]);
      GateRun(r.gate, r.st, ops[1..])
  }

  /** Cancels, reductions and session control pass whatever the limits, budget or switch. */
  lemma ReductionIsNeverBlocked(g: Gate, st: State, op: Op)
    requires Valid(st) && !IsSubmit(op) && !op.Modify?
    ensures GateStep(g, st, op).st == Step(st, op).st && GateStep(g, st, op).reply == Step(st, op).reply
  {
    hide Step;
  }

  /** A gate with default limits is a pure pass-through over every run. */
  lemma {:induction false} UnlimitedIsTransparent(g: Gate, st: State, ops: seq<Op>)
    requires Valid(st) && g.limits == UNLIMITED && !g.killed
    ensures GateRun(g, st, ops).st == Run(st, ops)
    decreases |ops|
  {
    hide State.ListedAt, StopsInBand, Step;
    if ops != [] {
      StepValid(st, ops[0]);
      GateKeepsControls(g, st, ops[0]);
      UnlimitedPasses(g, st, ops[0]);
      var r := GateStep(g, st, ops[0]);
      UnlimitedIsTransparent(r.gate, r.st, ops[1..]);
    }
  }

  lemma UnlimitedPasses(g: Gate, st: State, op: Op)
    requires Valid(st) && g.limits == UNLIMITED && !g.killed
    ensures GateStep(g, st, op).st == Step(st, op).st && GateStep(g, st, op).reply == Step(st, op).reply
  {
    hide Step;
  }

  // ---- what the checks mean -------------------------------------------

  /** Dividing the cap by the price decides exactly whether price times quantity exceeds it. */
  lemma NotionalIsExact(g: Gate, px: int, qty: nat)
    requires px > 0
    ensures g.NotionalOk(px, qty) <==> g.limits.maxNotional == 0 || px * qty <= g.limits.maxNotional
  {
    var cap := g.limits.maxNotional;
    var q, r := cap / px, cap % px;
    assert cap == px * q + r;
    if qty <= q { Monotone(px, qty, q); } else { Monotone(px, q + 1, qty); assert px * (q + 1) == px * q + px; }
  }

  lemma Monotone(px: int, a: int, b: int)
    requires px > 0 && a <= b
    ensures px * a <= px * b
  {}

  /** An order is admitted exactly when the gate is not killed, the budget is not spent
      and every limit that is set is met. */
  lemma AdmittedIff(g: Gate, last: Option<int>, open: nat, owner: nat, side: Side, qty: nat, px: int, priced: bool)
    ensures Admit(g, last, open, owner, side, qty, px, priced).Passed? <==>
      && !g.killed
      && (g.limits.maxMessages == 0 || g.window <= g.limits.maxMessages)
      && (g.limits.maxQty == 0 || qty <= g.limits.maxQty)
      && (!priced || g.limits.maxNotional == 0 || px <= 0 || px * qty <= g.limits.maxNotional)
      && (!priced || g.limits.collar == 0 || last.None? || -g.limits.collar <= px - last.value <= g.limits.collar)
      && (g.limits.maxOpen == 0 || open < g.limits.maxOpen)
      && (g.limits.maxPosition == 0 || owner == 0 ||
          -g.limits.maxPosition <= g.PositionOf(owner) + Signed(side, qty) <= g.limits.maxPosition)
  {
    if px > 0 { NotionalIsExact(g, px, qty); }
    hide Gate.NotionalOk;
    assert px <= 0 ==> g.NotionalOk(px, qty) by { NonPositive(g, px, qty); }
  }

  lemma NonPositive(g: Gate, px: int, qty: nat)
    ensures px <= 0 ==> g.NotionalOk(px, qty)
  {}

  // ---- the message budget ---------------------------------------------

  /** New flow of the run that reached the engine. */
  function PassedFlow(g: Gate, st: State, ops: seq<Op>): nat
    requires Valid(st)
    decreases |ops|
  {
    if ops == [] then 0
    else
      GateKeepsControls(g, st, ops[0]);
      var r := GateStep(g, st, ops[0]);
      (if (IsSubmit(ops[0]) || ops[0].Modify?) && Judge(g.Counted(), st.last, OpenOrders(st), ops[0]).Passed?
       then 1 else 0)
      + PassedFlow(r.gate, r.st, ops[1..])
  }

  /** Within one window no more new flow passes than the budget still allows, cancels
      and reductions eating into it too. */
  lemma {:induction false} BudgetBoundsFlow(g: Gate, st: State, ops: seq<Op>)
    requires Valid(st) && g.limits.maxMessages != 0
    ensures PassedFlow(g, st, ops) + g.window <=
      if g.window > g.limits.maxMessages then g.window else g.limits.maxMessages
    decreases |ops|
  {
    hide State.ListedAt, StopsInBand, GateStep;
    if ops != [] {
      GateKeepsControls(g, st, ops[0]);
      var r := GateStep(g, st, ops[0]);
      BudgetBoundsFlow(r.gate, r.st, ops[1..]);
    }
  }

  /** New flow that reached the engine over runs each in a window of its own. */
  function WindowedFlow(g: Gate, st: State, windows: seq<seq<Op>>): nat
    requires Valid(st)
    decreases |windows|
  {
    if windows == [] then 0
    else
      RunKeepsLimits(g.NewWindow(), st, windows[0]);
      var r := GateRun(g.NewWindow(), st, windows[0]);
      PassedFlow(g.NewWindow(), st, windows[0]) + WindowedFlow(r.gate, r.st, windows[1..])
  }

  lemma {:induction false} RunKeepsLimits(g: Gate, st: State, ops: seq<Op>)
    requires Valid(st)
    ensures var r := GateRun(g, st, ops); Valid(r.st) && r.gate.limits == g.limits
    decreases |ops|
  {
    hide State.ListedAt, StopsInBand, GateStep;
    if ops != [] {
      GateKeepsControls(g, st, ops[0]);
      var r := GateStep(g, st, ops[0]);
      RunKeepsLimits(r.gate, r.st, ops[1..]);
    }
  }

  /** Over any number of windows no more new flow passes than that many budgets,
      whatever the window before the first had used up. */
  lemma {:induction false} BudgetAcrossWindows(g: Gate, st: State, windows: seq<seq<Op>>)
    requires Valid(st) && g.limits.maxMessages != 0
    ensures WindowedFlow(g, st, windows) <= |windows| * g.limits.maxMessages
    decreases |windows|
  {
    hide Valid, GateRun, PassedFlow;
    if windows != [] {
      RunKeepsLimits(g.NewWindow(), st, windows[0]);
      BudgetBoundsFlow(g.NewWindow(), st, windows[0]);
      var r := GateRun(g.NewWindow(), st, windows[0]);
      BudgetAcrossWindows(r.gate, r.st, windows[1..]);
      assert |windows| * g.limits.maxMessages == |windows[1..]| * g.limits.maxMessages + g.limits.maxMessages;
    }
  }

  // ---- a killed gate --------------------------------------------------

  /** With nothing live, the calls a killed gate lets through change nothing but the phase. */
  lemma FlatStays(st: State, op: Op)
    requires Valid(st) && st.live == map[] && !IsSubmit(op) && !op.Modify?
    ensures Step(st, op).st.live == map[] && Step(st, op).st.tape == st.tape
  {
    hide State.ListedAt, StopsInBand;
    DoValid(st, op);
    NothingQueued(st);
    var t := Do(st, op).st;
    assert t.book == st.book && t.live == map[] && t.tape == st.tape;
    NothingQueued(t);
    assert NextStop(t).None?;
  }

  lemma NothingQueued(st: State)
    requires st.Indexed() && st.live == map[]
    ensures forall s: Shelf, i :: 0 <= i < st.width ==> st.Get(s)[i] == []
  {
    hide State.ListedAt;
    forall s: Shelf, i | 0 <= i < st.width ensures st.Get(s)[i] == [] {
      if st.Get(s)[i] != [] { Locate(st, s, i, 0); }
    }
  }

  /** After kill-and-flatten the books stay empty and silent under every further call. */
  lemma {:induction false} KilledStaysFlat(g: Gate, st: State, ops: seq<Op>)
    requires Valid(st) && g.killed && st.live == map[]
    ensures var r := GateRun(g, st, ops); r.st.live == map[] && r.st.tape == st.tape
    decreases |ops|
  {
    hide State.ListedAt, StopsInBand, Step;
    if ops != [] {
      GateKeepsControls(g, st, ops[0]);
      var r := GateStep(g, st, ops[0]);
      if IsSubmit(ops[0]) || ops[0].Modify? {
        assert r.st == st;
      } else {
        FlatStays(st, ops[0]);
        ReductionIsNeverBlocked(g, st, ops[0]);
      }
      KilledStaysFlat(r.gate, r.st, ops[1..]);
    }
  }

  // ---- the open-order cap ---------------------------------------------

  /** The change adds no live id but `more`. */
  predicate Grows(a: State, t: State, more: set<nat>) { t.live.Keys <= a.live.Keys + more }

  lemma PlaceGrows(st: State, id: nat, side: Side, tick: nat, qty: nat, tif: TimeInForce, t: Terms)
    requires st.Indexed() && tick < st.width && qty > 0
    ensures Grows(st, PlaceLimit(st, id, side, tick, qty, tif, t), {id})
  {
    hide State.ListedAt, State.Bounded, Match;
    MatchFrame(st, AsTaker(id, side, tick, t), qty);
  }

  lemma ExecuteGrows(st: State, side: Side, o: Node)
    requires st.Indexed() && o.qty > 0 && (o.market || st.InBand(o.limit))
    ensures Grows(st, ExecuteStop(st, side, o), {o.id})
  {
    hide State.ListedAt, State.Bounded, Match, PlaceLimit;
    var t := Terms(o.owner, o.stp, 0);
    if o.market {
      MatchFrame(st, Sweeping(st, o.id, side, t), o.qty);
    } else {
      PlaceGrows(st, o.id, side, st.Tick(o.limit), o.qty, GTC, t);
    }
  }

  lemma {:induction false} PumpGrows(st: State)
    requires Valid(st)
    ensures Grows(st, Pump(st), {})
    decreases PendingStops(st)
  {
    hide State.ListedAt, StopsInBand, ExecuteStop;
    if !st.halted && NextStop(st).Some? {
      var p := NextStop(st).value;
      FireStopFrame(st, p);
      LeaveIndexed(st, p.shelf, p.tick, 0);
      ExecuteGrows(Leave(st, p.shelf, p.tick, 0), p.shelf.side, st.Get(p.shelf)[p.tick][0]);
      PumpGrows(FireStop(st, p));
    }
  }

  lemma EnterGrows(st: State, side: Side, price: int, qty: nat, tif: TimeInForce, t: Terms)
    requires Valid(st) && st.InBand(price) && qty > 0
    ensures Grows(st, Enter(st, side, price, qty, tif, t).st, {st.nextId})
  {
    hide State.ListedAt, StopsInBand, PlaceLimit;
    AcceptSteady(st, side, price, qty);
    PlaceGrows(Accept(st, side, price, qty), st.nextId, side, st.Tick(price), qty, tif, t);
  }

  lemma StopGrows(st: State, side: Side, trigger: int, limit: int, qty: nat, market: bool, owner: nat, stp: StpPolicy)
    requires Valid(st)
    ensures Grows(st, DoSubmitStop(st, side, trigger, limit, qty, market, owner, stp).st, {st.nextId})
  {
    hide State.ListedAt, StopsInBand, ExecuteStop;
    AcceptSteady(st, side, trigger, qty);
    if st.InBand(trigger) && qty > 0 && (market || st.InBand(limit)) {
      var o := Node(st.nextId, qty, owner, stp, 0, 0, market, if market then 0 else limit);
      ExecuteGrows(Accept(st, side, trigger, qty), side, o);
    }
  }

  lemma ModifyGrows(st: State, id: nat, price: int, qty: nat)
    requires Valid(st)
    ensures Grows(st, DoModify(st, id, price, qty).st, {})
  {
    hide State.ListedAt, StopsInBand, PlaceLimit, Remove;
    if id in st.live {
      RemoveValid(st, id);
      var o := OrderOf(st, id);
      var side := st.live[id].shelf.side;
      var r := Remove(st, id);
      var a := r.Emit(Cancelled(id)).Emit(Accepted(id, side, price, qty));
      TellFrame(r, r.last, [Cancelled(id)] + [Accepted(id, side, price, qty)], Resting(Buy));
      assert a.tape == r.tape + ([Cancelled(id)] + [Accepted(id, side, price, qty)]);
      if st.InBand(price) && qty > 0 {
        PlaceGrows(a, id, side, st.Tick(price), qty, GTC, Terms(o.owner, o.stp, o.peak));
      }
    }
  }

  /** Only a submission adds a live id, and only its own. */
  lemma StepGrows(st: State, op: Op)
    requires Valid(st)
    ensures Grows(st, Step(st, op).st, if IsSubmit(op) then {st.nextId} else {})
  {
    hide State.ListedAt, StopsInBand, Enter, DoSubmitStop, DoModify, Uncross, Remove, Match;
    DoValid(st, op);
    PumpGrows(Do(st, op).st);
    match op {
      case SubmitLimit(side, price, qty, tif, owner, stp) =>
        if st.InBand(price) && qty > 0 { EnterGrows(st, side, price, qty, tif, Terms(owner, stp, 0)); }
      case SubmitMarket(side, qty, owner, stp) =>
        var a := Accept(st, side, 0, qty);
        AcceptSteady(st, side, 0, qty);
        MatchFrame(a, Sweeping(a, st.nextId, side, Terms(owner, stp, 0)), qty);
      case SubmitIceberg(side, price, qty, display, tif, owner, stp) =>
        if st.InBand(price) && qty > 0 { EnterGrows(st, side, price, qty, tif, Terms(owner, stp, display)); }
      case SubmitStop(side, trigger, qty, owner, stp) => StopGrows(st, side, trigger, 0, qty, true, owner, stp);
      case SubmitStopLimit(side, trigger, limit, qty, owner, stp) =>
        StopGrows(st, side, trigger, limit, qty, false, owner, stp);
      case Cancel(id) => if id in st.live { RemoveValid(st, id); }
      case Reduce(id, delta) => if id in st.live { RemoveValid(st, id); }
      case Modify(id, price, qty) => ModifyGrows(st, id, price, qty);
      case Halt =>
      case Resume =>
      case UncrossBook => UncrossUncrosses(st);
    }
  }

  /** The number of open orders never exceeds the cap, stop cascades and replaces included. */
  lemma {:induction false} OpenOrdersCapped(g: Gate, st: State, ops: seq<Op>)
    requires Valid(st) && g.limits.maxOpen != 0 && OpenOrders(st) <= g.limits.maxOpen
    ensures OpenOrders(GateRun(g, st, ops).st) <= g.limits.maxOpen
    decreases |ops|
  {
    hide State.ListedAt, StopsInBand, GateStep, OpenOrders;
    if ops != [] {
      GateKeepsControls(g, st, ops[0]);
      GateStepCapped(g, st, ops[0]);
      var r := GateStep(g, st, ops[0]);
      OpenOrdersCapped(r.gate, r.st, ops[1..]);
    }
  }

  /** A gated call leaves the engine alone or is its own step; a submission passes only
      below the cap. */
  lemma GatePasses(g: Gate, st: State, op: Op)
    requires Valid(st) && g.limits.maxOpen != 0
    ensures var t := GateStep(g, st, op).st;
      t == st || (t == Step(st, op).st && (IsSubmit(op) ==> OpenOrders(st) < g.limits.maxOpen))
  {
    hide State.ListedAt, StopsInBand, Step, OpenOrders;
  }

  lemma GateStepCapped(g: Gate, st: State, op: Op)
    requires Valid(st) && g.limits.maxOpen != 0 && OpenOrders(st) <= g.limits.maxOpen
    ensures OpenOrders(GateStep(g, st, op).st) <= g.limits.maxOpen
  {
    hide State.ListedAt, StopsInBand, Step, OpenOrders, GateStep;
    GateKeepsControls(g, st, op);
    GatePasses(g, st, op);
    var t := GateStep(g, st, op).st;
    OpenIsLive(st);
    OpenIsLive(t);
    StepGrows(st, op);
    if t != st {
      var more := if IsSubmit(op) then {st.nextId} else {};
      SubsetSize(t.live.Keys, st.live.Keys + more);
    }
  }

  lemma {:induction false} SubsetSize(a: set<nat>, b: set<nat>)
    requires a <= b
    ensures |a| <= |b|
  {
    assert b == a + (b - a);
  }

  // ---- the gate itself ------------------------------------------------

  class RiskGate {
    const engine: MatchingEngine
    var limits: Limits
    var isKilled: bool
    var windowMsgs: nat
    var lastReject: Verdict
    var rejectCount: map<Verdict, nat>
    var pendingOwner: nat
    var ownerOf: map<nat, nat>
    var positions: map<nat, int>

    /** The gate's own state as a value. */
    ghost function Abs(): Gate
      reads this
    {
      Gate(limits, isKilled, windowMsgs, lastReject, rejectCount, pendingOwner, ownerOf, positions)
    }

    ghost predicate Ready()
      reads this, engine, engine.Repr()
    {
      engine.Idle() && Quiet(engine.Abs()) && this != engine as object && this !in engine.Repr()
    }

    constructor (minPrice: int, maxPrice: int, l: Limits)
      requires minPrice <= maxPrice
      ensures Ready() && fresh(engine) && fresh(engine.Repr())
      ensures Abs() == Gate(l, false, 0, Passed, map[], 0, map[], map[])
      ensures engine.Abs() == Fresh(minPrice, maxPrice - minPrice + 1)
    {
      hide MatchingEngine.Idle, MatchingEngine.Abs, Fresh, Quiet;
      FreshIsSafe(minPrice, maxPrice - minPrice + 1);
      engine := new MatchingEngine(minPrice, maxPrice);
      limits, isKilled, windowMsgs, lastReject, rejectCount := l, false, 0, Passed, map[];
      pendingOwner, ownerOf, positions := 0, map[], map[];
    }

    method NewWindow()
      modifies this`windowMsgs
      ensures Abs() == old(Abs()).NewWindow()
    {
      windowMsgs := 0;
    }

    method Fail(v: Verdict)
      modifies this`lastReject, this`rejectCount
      ensures Abs() == old(Abs()).Fail(v)
    {
      lastReject := v;
      rejectCount := rejectCount[v := 1 + if v in rejectCount then rejectCount[v] else 0];
    }

    ghost predicate Ruled(c: Gate, v: Verdict, ok: bool)
      reads this
    {
      ok == v.Passed? && Abs() == if ok then c else c.Fail(v)
    }

    /** Counts the message, then asks each check in order; the first to object is recorded. */
    method AdmitOrder(last: Option<int>, open: nat, owner: nat, side: Side, qty: nat, px: int, priced: bool)
      returns (ok: bool)
      modifies this`windowMsgs, this`lastReject, this`rejectCount
      ensures var c := old(Abs()).Counted(); Ruled(c, Admit(c, last, open, owner, side, qty, px, priced), ok)
    {
      hide Gate.NotionalOk, Gate.CollarOk, Gate.OpenOk, Gate.PositionOk, Gate.Fail;
      windowMsgs := windowMsgs + 1;
      var v := Passed;
      if isKilled { v := Killed; }
      else if limits.maxMessages != 0 && windowMsgs > limits.maxMessages { v := MsgBudget; }
      else if limits.maxQty != 0 && qty > limits.maxQty { v := OrderQty; }
      else {
        if priced { v := PriceCheck(last, px, qty); }
        if v.Passed? { v := ExposureCheck(open, owner, side, qty); }
      }
      ok := v.Passed?;
      if !ok { Fail(v); }
    }

    method PriceCheck(last: Option<int>, px: int, qty: nat) returns (v: Verdict)
      ensures v == if !Abs().NotionalOk(px, qty) then Notional else if !Abs().CollarOk(last, px) then Collar else Passed
    {
      if limits.maxNotional != 0 && px > 0 && qty > limits.maxNotional / px { return Notional; }
      if limits.collar != 0 && last.Some? {
        var d := px - last.value;
        if d < 0 { d := -d; }
        if d > limits.collar { return Collar; }
      }
      return Passed;
    }

    method ExposureCheck(open: nat, owner: nat, side: Side, qty: nat) returns (v: Verdict)
      ensures v == if !Abs().OpenOk(open) then OpenOrderCap
        else if !Abs().PositionOk(owner, side, qty) then Position else Passed
    {
      if limits.maxOpen != 0 && open >= limits.maxOpen { return OpenOrderCap; }
      if limits.maxPosition != 0 && owner != 0 {
        var worst := (if owner in positions then positions[owner] else 0) +
          (if side.Buy? then qty as int else -(qty as int));
        if worst < 0 { worst := -worst; }
        if worst > limits.maxPosition { return Position; }
      }
      return Passed;
    }

    method AdmitMarketOrder(last: Option<int>, open: nat, owner: nat, side: Side, qty: nat) returns (ok: bool)
      modifies this`windowMsgs, this`lastReject, this`rejectCount
      ensures var c := old(Abs()).Counted(); Ruled(c, AdmitMarket(c, last, open, owner, side, qty), ok)
    {
      hide Gate.NotionalOk, Gate.OpenOk, Gate.PositionOk, Gate.Fail;
      windowMsgs := windowMsgs + 1;
      var v := Passed;
      if isKilled { v := Killed; }
      else if limits.maxMessages != 0 && windowMsgs > limits.maxMessages { v := MsgBudget; }
      else if !limits.allowMarket { v := MarketBlocked; }
      else if limits.maxQty != 0 && qty > limits.maxQty { v := OrderQty; }
      else {
        if last.Some? { v := PriceCheck(None, last.value, qty); }
        if v.Passed? { v := ExposureCheck(open, owner, side, qty); }
      }
      ok := v.Passed?;
      if !ok { Fail(v); }
    }

    method AdmitReplace(last: Option<int>, price: int, qty: nat) returns (ok: bool)
      modifies this`windowMsgs, this`lastReject, this`rejectCount
      ensures var c := old(Abs()).Counted(); Ruled(c, AdmitModify(c, last, price, qty), ok)
    {
      windowMsgs := windowMsgs + 1;
      var v := Passed;
      if isKilled { v := Killed; }
      else if limits.maxMessages != 0 && windowMsgs > limits.maxMessages { v := MsgBudget; }
      else if qty != 0 {
        if limits.maxQty != 0 && qty > limits.maxQty { v := OrderQty; }
        else { v := PriceCheck(last, price, qty); }
      }
      ok := v.Passed?;
      if !ok { Fail(v); }
    }

    method Move(owner: nat, delta: int)
      modifies this`positions
      ensures Abs() == old(Abs()).Moved(owner, delta)
    {
      if owner != 0 { positions := positions[owner := (if owner in positions then positions[owner] else 0) + delta]; }
    }

    method NoteEvent(e: Event)
      modifies this`ownerOf, this`positions
      ensures Abs() == old(Abs()).Note(e)
    {
      hide Gate.Moved;
      match e {
        case Accepted(id, _, _, _) => ownerOf := ownerOf[id := pendingOwner];
        case Traded(taker, maker, _, qty, takerSide) =>
          var delta := if takerSide.Buy? then qty as int else -(qty as int);
          var to := if taker in ownerOf then ownerOf[taker] else 0;
          var mo := if maker in ownerOf then ownerOf[maker] else 0;
          Move(to, delta);
          Move(mo, -delta);
        case Cancelled(_) =>
        case Rejected(_) =>
        case Rested(_, _, _, _) =>
      }
    }

    /** Learns of events in order. */
    method NoteEvents(es: seq<Event>)
      modifies this`ownerOf, this`positions
      ensures Abs() == old(Abs()).NoteAll(es)
    {
      hide Gate.Note, RiskGate.Abs;
      ghost var start := Abs();
      NoteNone(start);
      for i := 0 to |es|
        invariant Abs() == start.NoteAll(es[..i])
      {
        NoteEvent(es[i]);
        NotePush(start, es[..i], es[i]);
        assert es[..i + 1] == es[..i] + [es[i]];
      }
      assert es[..|es|] == es;
    }

    /** Learns of the engine's events from position `from` of its tape on. */
    method NoteFrom(from: nat)
      requires from <= |engine.tape| && Ready()
      modifies this`ownerOf, this`positions
      ensures Ready() && engine.Abs() == old(engine.Abs())
      ensures Abs() == old(Abs()).NoteAll(engine.tape[from..])
    {
      hide MatchingEngine.Idle, MatchingEngine.Abs, MatchingEngine.Repr, MatchingEngine.Levels, MatchingEngine.Words,
        Quiet, Gate.NoteAll, RiskGate.Abs;
      EngineFacts(engine);
      assert allocated(engine.Repr());
      NoteEvents(engine.tape[from..]);
    }

    /** The engine's last trade and open-order count. */
    method Inputs() returns (last: Option<int>, open: nat)
      requires engine.Idle()
      ensures last == engine.Abs().last && open == OpenOrders(engine.Abs())
    {
      hide MatchingEngine.Valid, MatchingEngine.Abs, OpenOrders;
      engine.ValidFacts();
      engine.OpenCountIsExact();
      last, open := if engine.hasLast then Some(engine.lastPx) else None, engine.OpenCount();
    }

    /** Counts and judges a call; session control is neither counted nor judged. */
    method AdmitCall(op: Op, last: Option<int>, open: nat) returns (ok: bool)
      modifies this`windowMsgs, this`lastReject, this`rejectCount
      ensures var c := if Metered(op) then old(Abs()).Counted() else old(Abs());
        Ruled(c, Judge(c, last, open, op), ok)
    {
      hide Admit, AdmitMarket, AdmitModify, Gate.Fail;
      match op {
        case SubmitLimit(side, price, qty, _, owner, _) => ok := AdmitOrder(last, open, owner, side, qty, price, true);
        case SubmitMarket(side, qty, owner, _) => ok := AdmitMarketOrder(last, open, owner, side, qty);
        case SubmitIceberg(side, price, qty, _, _, owner, _) =>
          ok := AdmitOrder(last, open, owner, side, qty, price, true);
        case SubmitStop(side, _, qty, owner, _) => ok := AdmitOrder(last, open, owner, side, qty, 0, false);
        case SubmitStopLimit(side, _, limit, qty, owner, _) =>
          ok := AdmitOrder(last, open, owner, side, qty, limit, true);
        case Modify(_, price, qty) => ok := AdmitReplace(last, price, qty);
        case Cancel(_) => windowMsgs, ok := windowMsgs + 1, true;
        case Reduce(_, _) => windowMsgs, ok := windowMsgs + 1, true;
        case Halt => ok := true;
        case Resume => ok := true;
        case UncrossBook => ok := true;
      }
    }

    /** Judges a call on the engine as it stands, which judging does not touch. */
    method Ask(op: Op) returns (ok: bool)
      requires Ready()
      modifies this`windowMsgs, this`lastReject, this`rejectCount
      ensures Ready() && engine.Abs() == old(engine.Abs()) && Engine.Valid(engine.Abs())
      ensures var c := if Metered(op) then old(Abs()).Counted() else old(Abs());
        Ruled(c, Judge(c, engine.Abs().last, OpenOrders(engine.Abs()), op), ok)
    {
      hide MatchingEngine.Idle, MatchingEngine.Abs, MatchingEngine.Repr, MatchingEngine.Levels, MatchingEngine.Words,
        Engine.Valid, Judge, OpenOrders, Quiet, Metered, Gate.Fail;
      EngineFacts(engine);
      assert allocated(engine.Repr());
      var last, open := Inputs();
      ok := AdmitCall(op, last, open);
    }

    /** One call through the gate. */
    method Call(op: Op) returns (reply: Reply)
      requires Ready()
      modifies this, engine, engine.Repr()
      ensures Ready() && Engine.Valid(old(engine.Abs()))
      ensures Gated(Abs(), engine.Abs(), reply) == GateStep(old(Abs()), old(engine.Abs()), op)
    {
      hide MatchingEngine.Idle, MatchingEngine.Abs, MatchingEngine.Repr, MatchingEngine.Levels, MatchingEngine.Words,
        Engine.Valid, Step, Judge, OpenOrders, Gate.NoteAll, Quiet, Metered, IsSubmit, Refusal, Gate.Fail, Safe;
      assert allocated(engine.Repr());
      var ok := Ask(op);
      if ok { reply := PassOn(op); } else { reply := Refusal(op); }
    }

    /** Remembers whose order the call may enter. */
    method BeginCall(op: Op)
      requires Ready()
      modifies this`pendingOwner
      ensures Ready() && engine.Abs() == old(engine.Abs())
      ensures Abs() == if IsSubmit(op) then old(Abs()).(pendingOwner := OwnerOfCall(op)) else old(Abs())
    {
      hide MatchingEngine.Idle, MatchingEngine.Abs, MatchingEngine.Repr, MatchingEngine.Levels, MatchingEngine.Words,
        Quiet, IsSubmit, OwnerOfCall;
      EngineFacts(engine);
      assert allocated(engine.Repr());
      if IsSubmit(op) { pendingOwner := OwnerOfCall(op); }
    }

    /** The engine call, which leaves the gate alone. */
    method Send(op: Op) returns (reply: Reply)
      requires Ready()
      modifies engine, engine.Repr()
      ensures Ready() && Abs() == old(Abs()) && Engine.Valid(old(engine.Abs()))
      ensures Result(engine.Abs(), reply) == Step(old(engine.Abs()), op)
      ensures engine.tape == engine.Abs().tape && old(engine.tape) == old(engine.Abs()).tape <= engine.tape
    {
      hide MatchingEngine.Idle, MatchingEngine.Abs, MatchingEngine.Repr, MatchingEngine.Levels, MatchingEngine.Words,
        Engine.Valid, Step, Quiet, Safe;
      assert allocated(engine.Repr());
      EngineFacts(engine);
      StepValid(engine.Abs(), op);
      reply := engine.Apply(op);
      EngineFacts(engine);
    }

    /** An admitted call reaches the engine and its events come back. */
    method PassOn(op: Op) returns (reply: Reply)
      requires Ready()
      modifies this, engine, engine.Repr()
      ensures Ready() && Engine.Valid(old(engine.Abs())) && old(engine.Abs()).tape <= engine.Abs().tape
      ensures Result(engine.Abs(), reply) == Step(old(engine.Abs()), op)
      ensures var p := if IsSubmit(op) then old(Abs()).(pendingOwner := OwnerOfCall(op)) else old(Abs());
        Abs() == p.NoteAll(engine.Abs().tape[|old(engine.Abs()).tape|..])
    {
      hide MatchingEngine.Idle, MatchingEngine.Abs, MatchingEngine.Repr, MatchingEngine.Levels, MatchingEngine.Words,
        Engine.Valid, Step, Gate.NoteAll, IsSubmit, Quiet, Safe;
      assert allocated(engine.Repr());
      BeginCall(op);
      var from := |engine.tape|;
      reply := Send(op);
      NoteFrom(from);
    }

    method CollectIds() returns (ids: seq<nat>)
      requires engine.Idle()
      ensures ids == AllIds(engine.Abs())
    {
      hide MatchingEngine.Valid, MatchingEngine.Abs, Walk;
      engine.ValidFacts();
      assert allocated(engine.Repr());
      var bids := VisitOrders(engine, Buy);
      var asks := VisitOrders(engine, Sell);
      var stopBids := VisitStops(engine, Buy);
      var stopAsks := VisitStops(engine, Sell);
      ids := SpotIds(bids) + SpotIds(asks) + SpotIds(stopBids) + SpotIds(stopAsks);
    }

    method ThrowSwitch()
      requires Ready()
      modifies this`isKilled
      ensures Ready() && engine.Abs() == old(engine.Abs()) && Abs() == old(Abs()).(killed := true)
    {
      hide MatchingEngine.Idle, MatchingEngine.Abs, MatchingEngine.Repr, MatchingEngine.Levels, MatchingEngine.Words,
        Quiet;
      EngineFacts(engine);
      assert allocated(engine.Repr());
      isKilled := true;
    }

    /** Throws the switch and cancels everything: all resting orders, then all pending stops. */
    method KillAndCancelAll()
      requires Ready()
      modifies this, engine, engine.Repr()
      ensures Ready() && Abs() == old(Abs()).(killed := true)
      ensures engine.Abs().live == map[] && OpenOrders(engine.Abs()) == 0
      ensures Engine.Valid(old(engine.Abs())) && engine.Abs() == CancelAll(old(engine.Abs()), AllIds(old(engine.Abs())))
    {
      hide MatchingEngine.Idle, MatchingEngine.Abs, MatchingEngine.Repr, MatchingEngine.Levels, MatchingEngine.Words,
        Engine.Valid, OpenOrders, AllIds, CancelAll, Quiet, Safe;
      assert allocated(engine.Repr());
      EngineFacts(engine);
      KillFlattens(engine.Abs());
      ThrowSwitch();
      var ids := CollectIds();
      CancelEach(ids);
    }

    method CancelEach(ids: seq<nat>)
      requires Ready()
      modifies engine, engine.Repr()
      ensures Ready() && Engine.Valid(old(engine.Abs())) && engine.Abs() == CancelAll(old(engine.Abs()), ids)
    {
      hide MatchingEngine.Idle, MatchingEngine.Abs, MatchingEngine.Repr, MatchingEngine.Levels, MatchingEngine.Words,
        Engine.Valid, Step, CancelAll, Quiet, Safe;
      assert allocated(engine.Repr());
      EngineFacts(engine);
      ghost var st := engine.Abs();
      CancelNone(st);
      for i := 0 to |ids|
        invariant Ready() && engine.Abs() == CancelAll(st, ids[..i])
      {
        CancelPush(st, ids[..i], ids[i]);
        assert ids[..i + 1] == ids[..i] + [ids[i]];
        StepValid(engine.Abs(), Cancel(ids[i]));
        var ok := engine.Apply(Cancel(ids[i]));
      }
      assert ids[..|ids|] == ids;
    }
  }

  lemma CancelNone(st: State)
    requires Valid(st)
    ensures CancelAll(st, []) == st
  {}

  lemma {:induction false} CancelPush(st: State, ids: seq<nat>, id: nat)
    requires Valid(st)
    ensures Valid(CancelAll(st, ids)) && CancelAll(st, ids + [id]) == Step(CancelAll(st, ids), Cancel(id)).st
    decreases |ids|
  {
    hide Step, Valid;
    if ids == [] {
      StepValid(st, Cancel(id));
      assert ([] + [id])[1..] == [];
    } else {
      StepValid(st, Cancel(ids[0]));
      assert (ids + [id])[1..] == ids[1..] + [id];
      CancelPush(Step(st, Cancel(ids[0])).st, ids[1..], id);
    }
  }

  lemma NoteNone(g: Gate)
    ensures g.NoteAll([]) == g
  {}

  lemma {:induction false} NotePush(g: Gate, es: seq<Event>, e: Event)
    ensures g.NoteAll(es + [e]) == g.NoteAll(es).Note(e)
    decreases |es|
  {
    if es == [] {
      assert ([] + [e])[1..] == [];
    } else {
      assert (es + [e])[1..] == es[1..] + [e];
      NotePush(g.Note(es[0]), es[1..], e);
    }
  }
}
