/** What the risk gate lets through and what it refuses, by the call's own arguments. */
module GateOutcomes {
  import opened Types
  import opened Book
  import opened Engine
  import opened Safety
  import opened Walks
  import opened RiskGates

  /** The price a submission is valued at: its limit, the last trade for a market order, and
      none for a stop that becomes one. */
  function ValuedAt(op: Op, last: Option<int>): Option<int>
    requires IsSubmit(op)
  {
    match op
    case SubmitLimit(_, price, _, _, _, _) => Some(price)
    case SubmitIceberg(_, price, _, _, _, _, _) => Some(price)
    case SubmitStopLimit(_, _, limit, _, _, _) => Some(limit)
    case SubmitMarket(_, _, _, _) => last
    case SubmitStop(_, _, _, _, _) => None
  }

  predicate QtyWithin(l: Limits, qty: nat) { l.maxQty == 0 || qty <= l.maxQty }

  predicate ValueWithin(l: Limits, price: int, qty: nat) {
    l.maxNotional == 0 || price <= 0 || price * qty <= l.maxNotional
  }

  predicate PriceWithin(l: Limits, price: int, last: Option<int>) {
    l.collar == 0 || last.None? || (last.value - l.collar <= price <= last.value + l.collar)
  }

  /** Net fills of the owner, were the whole order to fill, buys counting up and sells down. */
  predicate PositionWithin(l: Limits, held: int, op: Op)
    requires IsSubmit(op)
  {
    || l.maxPosition == 0 || op.owner == 0
    || -l.maxPosition <= (if op.side.Buy? then held + op.qty else held - op.qty) <= l.maxPosition
  }

  /** The checks in the order they are made. */
  function Rank(v: Verdict): nat {
    match v
    case Killed => 1
    case MsgBudget => 2
    case MarketBlocked => 3
    case OrderQty => 4
    case Notional => 5
    case Collar => 6
    case OpenOrderCap => 7
    case Position => 8
    case Passed => 9
  }

  /** The submission, as the gate's next message, fails that check. */
  predicate Breaches(v: Verdict, g: Gate, last: Option<int>, open: nat, op: Op)
    requires IsSubmit(op)
  {
    var l, value := g.limits, ValuedAt(op, last);
    match v
    case Passed => false
    case Killed => g.killed
    case MsgBudget => l.maxMessages != 0 && g.window + 1 > l.maxMessages
    case MarketBlocked => op.SubmitMarket? && !l.allowMarket
    case OrderQty => !QtyWithin(l, op.qty)
    case Notional => value.Some? && !ValueWithin(l, value.value, op.qty)
    case Collar => value.Some? && !op.SubmitMarket? && !PriceWithin(l, value.value, last)
    case OpenOrderCap => l.maxOpen != 0 && open >= l.maxOpen
    case Position => !PositionWithin(l, g.PositionOf(op.owner), op)
  }

  predicate Allowed(g: Gate, last: Option<int>, open: nat, op: Op)
    requires IsSubmit(op)
  {
    forall v: Verdict :: !Breaches(v, g, last, open, op)
  }

  lemma ValueDecides(g: Gate, px: int, qty: nat)
    ensures g.NotionalOk(px, qty) <==> ValueWithin(g.limits, px, qty)
  {
    if px > 0 { NotionalIsExact(g, px, qty); }
  }

  /** The verdict is the first check that fails; a submission passes when none does. */
  ghost predicate NamesFirst(v: Verdict, g: Gate, last: Option<int>, open: nat, op: Op)
    requires IsSubmit(op)
  {
    if v.Passed? then Allowed(g, last, open, op)
    else
      Breaches(v, g, last, open, op) && forall w: Verdict :: Rank(w) < Rank(v) ==> !Breaches(w, g, last, open, op)
  }

  /** The gate's own checks, on a message it has counted. */
  lemma ChecksAgree(g: Gate, last: Option<int>, open: nat, op: Op)
    requires IsSubmit(op)
    ensures var c := g.Counted();
      && (c.killed <==> Breaches(Killed, g, last, open, op))
      && (c.OverBudget() <==> Breaches(MsgBudget, g, last, open, op))
      && (c.QtyOk(op.qty) <==> !Breaches(OrderQty, g, last, open, op))
      && (c.OpenOk(open) <==> !Breaches(OpenOrderCap, g, last, open, op))
      && !Breaches(Passed, g, last, open, op)
  {
    hide Gate.PositionOf, ValueWithin, PriceWithin, PositionWithin;
  }

  lemma PositionAgrees(g: Gate, last: Option<int>, open: nat, op: Op)
    requires IsSubmit(op)
    ensures g.Counted().PositionOk(op.owner, op.side, op.qty) <==> !Breaches(Position, g, last, open, op)
  {}

  lemma PricesAgree(g: Gate, last: Option<int>, open: nat, op: Op, px: int)
    requires IsSubmit(op) && !op.SubmitMarket? && ValuedAt(op, last) == (if op.SubmitStop? then None else Some(px))
    ensures var c := g.Counted();
      && (op.SubmitStop? || c.NotionalOk(px, op.qty) <==> !Breaches(Notional, g, last, open, op))
      && (op.SubmitStop? || c.CollarOk(last, px) <==> !Breaches(Collar, g, last, open, op))
      && !Breaches(MarketBlocked, g, last, open, op)
  {
    hide Gate.NotionalOk, ValueWithin;
    ValueDecides(g.Counted(), px, op.qty);
  }

  lemma PricedNamesFirst(g: Gate, last: Option<int>, open: nat, op: Op, px: int)
    requires IsSubmit(op) && !op.SubmitMarket? && ValuedAt(op, last) == (if op.SubmitStop? then None else Some(px))
    ensures NamesFirst(Admit(g.Counted(), last, open, op.owner, op.side, op.qty, px, !op.SubmitStop?), g, last, open,
      op)
  {
    hide Breaches, Gate.OverBudget, Gate.QtyOk, Gate.OpenOk, Gate.PositionOk, Gate.NotionalOk, Gate.CollarOk, ValuedAt;
    ChecksAgree(g, last, open, op);
    PositionAgrees(g, last, open, op);
    PricesAgree(g, last, open, op, px);
    var v := Admit(g.Counted(), last, open, op.owner, op.side, op.qty, px, !op.SubmitStop?);
    forall w: Verdict | Rank(w) < Rank(v) ensures !Breaches(w, g, last, open, op) {
      match w { case Killed => case MsgBudget => case MarketBlocked => case _ => }
    }
  }

  lemma MarketNamesFirst(g: Gate, last: Option<int>, open: nat, op: Op)
    requires op.SubmitMarket?
    ensures NamesFirst(AdmitMarket(g.Counted(), last, open, op.owner, op.side, op.qty), g, last, open, op)
  {
    hide Gate.NotionalOk, ValueWithin;
    if last.Some? { ValueDecides(g.Counted(), last.value, op.qty); }
  }

  lemma JudgeNamesFirst(g: Gate, last: Option<int>, open: nat, op: Op)
    requires IsSubmit(op)
    ensures NamesFirst(Judge(g.Counted(), last, open, op), g, last, open, op)
  {
    hide Admit, AdmitMarket, NamesFirst;
    match op {
      case SubmitLimit(_, price, _, _, _, _) => PricedNamesFirst(g, last, open, op, price);
      case SubmitIceberg(_, price, _, _, _, _, _) => PricedNamesFirst(g, last, open, op, price);
      case SubmitStopLimit(_, _, limit, _, _, _) => PricedNamesFirst(g, last, open, op, limit);
      case SubmitMarket(_, _, _, _) => MarketNamesFirst(g, last, open, op);
      case SubmitStop(_, _, _, _, _) => PricedNamesFirst(g, last, open, op, 0);
    }
  }

  /** A submission reaches the engine exactly when it is allowed; refused, the engine never
      hears of it, the sender is told in the engine's own way, and the first limit it breaches is counted. */
  lemma SubmissionOutcome(g: Gate, st: State, op: Op)
    requires Valid(st) && IsSubmit(op)
    ensures var r := GateStep(g, st, op);
      && r.gate.window == g.window + 1
      && if Allowed(g, st.last, OpenOrders(st), op)
         then r.st == Step(st, op).st && r.reply == Step(st, op).reply
         else
           && r.st == st && r.reply == (if op.SubmitMarket? then Unfilled(op.qty) else Assigned(0))
           && !r.gate.lastReject.Passed? && NamesFirst(r.gate.lastReject, g, st.last, OpenOrders(st), op)
           && r.gate.lastReject in r.gate.rejects
           && r.gate.rejects[r.gate.lastReject] ==
             1 + (if r.gate.lastReject in g.rejects then g.rejects[r.gate.lastReject] else 0)
           && r.gate.positions == g.positions && r.gate.owners == g.owners
  {
    hide Valid, Step, Judge, Breaches, OpenOrders, Gate.NoteAll, Quiet;
    JudgeNamesFirst(g, st.last, OpenOrders(st), op);
    GateKeepsControls(g, st, op);
  }

  /** A modify is judged on its new terms, its quantity, value and price, unless it asks for
      nothing; neither the open-order cap nor the position limit is looked at. */
  lemma ModifyOutcome(g: Gate, st: State, id: nat, price: int, qty: nat)
    requires Valid(st)
    ensures var r, op, l := GateStep(g, st, Modify(id, price, qty)), Modify(id, price, qty), g.limits;
      if && !g.killed && (l.maxMessages == 0 || g.window + 1 <= l.maxMessages)
         && (qty > 0 ==> QtyWithin(l, qty) && ValueWithin(l, price, qty) && PriceWithin(l, price, st.last))
      then r.st == Step(st, op).st && r.reply == Step(st, op).reply
      else r.st == st && r.reply == Answer(false) && r.gate.lastReject != Passed
  {
    hide Valid, Step, OpenOrders, Gate.NoteAll, Quiet, ValueWithin, Gate.NotionalOk;
    ValueDecides(g.Counted(), price, qty);
    GateKeepsControls(g, st, Modify(id, price, qty));
  }
}
