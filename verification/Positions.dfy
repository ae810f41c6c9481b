/** Whose fills the risk gate counts: the sender's, unless another sender's order was
    submitted last before a cancel-replace. */
module Positions {
  import opened Types
  import opened Ladders
  import opened Book
  import opened Matching
  import opened Auction
  import opened Engine
  import opened Safety
  import opened Walks
  import FeedRuns
  import opened Ouch
  import opened RiskGates

  // ---- what a call says -----------------------------------------------

  /** From `a` to `t` the handler hears `first`, and then only of fills and cancellations of
      ids already given out. */
  ghost predicate Unfolds(a: State, t: State, first: seq<Event>) {
    && a.tape + first <= t.tape
    && forall i :: |a.tape| + |first| <= i < |t.tape| ==> Plain(t.tape[i], t.nextId)
  }

  lemma ThenPlain(a: State, m: State, t: State, first: seq<Event>)
    requires Unfolds(a, m, first) && AddsPlain(m, t)
    ensures Unfolds(a, t, first)
  {
    hide Plain;
    forall i | |a.tape| + |first| <= i < |t.tape| ensures Plain(t.tape[i], t.nextId) {
      if i < |m.tape| { assert t.tape[i] == m.tape[i]; }
    }
  }

  /** A call that gives out an id accepts it first of all; a refused submission is rejected; a
      modify that re-enters accepts its own order again; nothing else accepts anything. */
  ghost predicate Opens(st: State, op: Op, nextId: nat, first: seq<Event>) {
    if nextId != st.nextId then
      nextId == st.nextId + 1 && IsSubmit(op) && |first| == 1 && first[0].Accepted? && first[0].id == st.nextId
    else if op.Modify? then
      first == [] || (|first| == 2 && first[0] == Cancelled(op.id) && first[1].Accepted? && first[1].id == op.id)
    else first == [] || first == [Rejected(0)]
  }

  lemma EnterUnfolds(st: State, side: Side, price: int, qty: nat, tif: TimeInForce, t: Terms)
    requires Valid(st) && st.InBand(price) && qty > 0
    ensures var r := Enter(st, side, price, qty, tif, t).st;
      Unfolds(st, r, [Accepted(st.nextId, side, price, qty)]) && r.nextId == st.nextId + 1
  {
    hide State.ListedAt, StopsInBand, Enter, Plain;
    EnterNews(st, side, price, qty, tif, t);
    EnterNextId(st, side, price, qty, tif, t);
    var r := Enter(st, side, price, qty, tif, t).st;
    assert r.tape[|st.tape|] == Accepted(st.nextId, side, price, qty);
  }

  lemma AcceptUnfolds(st: State, side: Side, price: int, qty: nat, t: State)
    requires Valid(st) && AddsPlain(Accept(st, side, price, qty), t)
    ensures Unfolds(st, t, [Accepted(st.nextId, side, price, qty)]) && t.nextId == st.nextId + 1
  {
    hide Plain;
    var a := Accept(st, side, price, qty);
    assert a.tape == st.tape + [Accepted(st.nextId, side, price, qty)];
  }

  lemma SubmitUnfolds(st: State, op: Op) returns (first: seq<Event>)
    requires Valid(st) && IsSubmit(op)
    ensures Unfolds(st, Do(st, op).st, first) && Opens(st, op, Do(st, op).st.nextId, first)
  {
    hide State.ListedAt, StopsInBand, Enter, Match, ExecuteStop, Unfolds, AddsPlain;
    first := [Rejected(0)];
    RejectUnfolds(st);
    match op {
      case SubmitLimit(side, price, qty, tif, owner, stp) =>
        if st.InBand(price) && qty > 0 {
          EnterUnfolds(st, side, price, qty, tif, Terms(owner, stp, 0));
          first := [Accepted(st.nextId, side, price, qty)];
        }
      case SubmitIceberg(side, price, qty, display, tif, owner, stp) =>
        if st.InBand(price) && qty > 0 && display > 0 {
          EnterUnfolds(st, side, price, qty, tif, Terms(owner, stp, display));
          first := [Accepted(st.nextId, side, price, qty)];
        }
      case SubmitMarket(side, qty, owner, stp) =>
        if !st.halted {
          var a := Accept(st, side, 0, qty);
          AcceptSteady(st, side, 0, qty);
          MatchPlain(a, Sweeping(a, st.nextId, side, Terms(owner, stp, 0)), qty);
          AcceptUnfolds(st, side, 0, qty, Do(st, op).st);
          first := [Accepted(st.nextId, side, 0, qty)];
        }
      case SubmitStop(side, trigger, qty, owner, stp) =>
        first := StopUnfolds(st, side, trigger, 0, qty, true, owner, stp);
      case SubmitStopLimit(side, trigger, limit, qty, owner, stp) =>
        first := StopUnfolds(st, side, trigger, limit, qty, false, owner, stp);
    }
  }

  lemma RejectUnfolds(st: State)
    ensures Unfolds(st, st.Emit(Rejected(0)), [Rejected(0)])
  {}

  lemma StopUnfolds(st: State, side: Side, trigger: int, limit: int, qty: nat, market: bool, owner: nat,
                    stp: StpPolicy) returns (first: seq<Event>)
    requires Valid(st)
    ensures var r := DoSubmitStop(st, side, trigger, limit, qty, market, owner, stp).st;
      && Unfolds(st, r, first)
      && (if r.nextId == st.nextId then first == [Rejected(0)]
          else r.nextId == st.nextId + 1 && first == [Accepted(st.nextId, side, trigger, qty)])
  {
    hide State.ListedAt, StopsInBand, ExecuteStop, Unfolds, AddsPlain;
    first := [Rejected(0)];
    RejectUnfolds(st);
    if st.InBand(trigger) && qty > 0 && (market || st.InBand(limit)) {
      var a := Accept(st, side, trigger, qty);
      var o := Node(st.nextId, qty, owner, stp, 0, 0, market, if market then 0 else limit);
      AcceptSteady(st, side, trigger, qty);
      ExecutePlain(a, side, o);
      PlainSelf(a);
      PlainMoved(a, Join(a, Pending(side), a.Tick(trigger), o));
      AcceptUnfolds(st, side, trigger, qty, DoSubmitStop(st, side, trigger, limit, qty, market, owner, stp).st);
      first := [Accepted(st.nextId, side, trigger, qty)];
    }
  }

  lemma PlainMoved(a: State, t: State)
    requires t.tape == a.tape && t.nextId == a.nextId
    ensures AddsPlain(a, t)
  {}

  lemma SilentUnfolds(a: State, t: State)
    requires AddsPlain(a, t)
    ensures Unfolds(a, t, [])
  {
    assert a.tape + [] == a.tape;
  }

  lemma UncrossPlain(st: State)
    requires Valid(st)
    ensures AddsPlain(st, Uncross(st).st)
  {
    hide State.ListedAt, StopsInBand, Uncross;
    UncrossUncrosses(st);
    var t := Uncross(st).st;
    forall i | |st.tape| <= i < |t.tape| ensures Plain(t.tape[i], st.nextId) {
      UncrossPrints(st, i);
    }
  }

  lemma OtherUnfolds(st: State, op: Op)
    requires Valid(st) && !IsSubmit(op) && !op.Modify?
    ensures Unfolds(st, Do(st, op).st, []) && Do(st, op).st.nextId == st.nextId
  {
    hide State.ListedAt, StopsInBand, Uncross, Remove, Unfolds;
    match op {
      case Cancel(id) => if id in st.live { RemoveValid(st, id); LiveIsDated(st, id); }
      case Reduce(id, _) => if id in st.live { RemoveValid(st, id); }
      case Halt =>
      case Resume =>
      case UncrossBook => UncrossPlain(st);
    }
    SilentUnfolds(st, Do(st, op).st);
  }

  lemma LiveIsDated(st: State, id: nat)
    requires st.Indexed() && id in st.live
    ensures 0 < id < st.nextId
  {
    hide State.ListedAt;
  }

  lemma ModifyUnfolds(st: State, id: nat, price: int, qty: nat) returns (first: seq<Event>)
    requires Valid(st)
    ensures var t := Do(st, Modify(id, price, qty)).st;
      && Unfolds(st, t, first) && t.nextId == st.nextId && Opens(st, Modify(id, price, qty), t.nextId, first)
      && (qty > 0 && t.tape != st.tape ==> |first| == 2) && (qty == 0 || t.tape == st.tape ==> first == [])
  {
    hide State.ListedAt, StopsInBand, CancelReplace, Remove, DoReduce, Unfolds, AddsPlain;
    first := [];
    var t := Do(st, Modify(id, price, qty)).st;
    PlainSelf(st);
    if id in st.live {
      RemoveValid(st, id);
      LiveIsDated(st, id);
      var o, side := OrderOf(st, id), st.live[id].shelf.side;
      if qty > 0 && st.InBand(price) {
        if qty <= Size(o) { ReduceKeepsIds(st, id, Size(o) - qty); }
        ReplaceNews(st, id, price, qty);
        if t.tape != st.tape {
          first := [Cancelled(id), Accepted(id, side, price, qty)];
          ReentryUnfolds(st, Reentered(st, id, price, qty), t, first);
        }
      } else if qty == 0 {
        CancelPlain(st, t, id);
      }
    }
    if t.tape == st.tape { PlainMoved(st, t); }
    if first == [] { SilentUnfolds(st, t); }
  }

  lemma CancelPlain(st: State, t: State, id: nat)
    requires t.tape == st.tape + [Cancelled(id)] && t.nextId == st.nextId && 0 < id < st.nextId
    ensures AddsPlain(st, t)
  {}

  lemma ReentryUnfolds(st: State, a: State, t: State, first: seq<Event>)
    requires a.tape == st.tape + first && a.nextId == st.nextId && AddsPlain(a, t)
    ensures Unfolds(st, t, first) && t.nextId == st.nextId
  {}

  /** How the handler hears a whole call, its stop cascade included. */
  lemma CallUnfolds(st: State, op: Op) returns (first: seq<Event>)
    requires Valid(st) && Quiet(st)
    ensures var t := Step(st, op).st; Unfolds(st, t, first) && Opens(st, op, t.nextId, first)
    ensures op.Modify? ==> (|first| == 2 <==> op.qty > 0 && Step(st, op).st.tape != st.tape)
  {
    hide State.ListedAt, StopsInBand, Do, Pump, Unfolds, AddsPlain, Quiet;
    DoValid(st, op);
    var d := Do(st, op).st;
    if IsSubmit(op) {
      first := SubmitUnfolds(st, op);
    } else if op.Modify? {
      first := ModifyUnfolds(st, op.id, op.price, op.qty);
      SilentModify(st, op.id, op.price, op.qty);
    } else {
      OtherUnfolds(st, op);
      first := [];
    }
    PumpPlain(d);
    PumpSettles(d);
    ThenPlain(st, d, Pump(d), first);
  }

  /** A modify that says nothing sets nothing off. */
  lemma SilentModify(st: State, id: nat, price: int, qty: nat)
    requires Valid(st) && Quiet(st)
    ensures var d := Do(st, Modify(id, price, qty)).st; Valid(d) && (d.tape == st.tape ==> Pump(d) == d)
  {
    hide State.ListedAt, StopsInBand, CancelReplace, Remove, DoReduce, Quiet, Pump, OrderOf, Seat;
    DoValid(st, Modify(id, price, qty));
    PumpNothing(st, st);
    if id in st.live && !st.live[id].shelf.stop && qty > 0 && st.InBand(price) {
      var o := OrderOf(st, id);
      if st.Tick(price) == st.live[id].tick && qty <= Size(o) {
        ReducePumpsNothing(st, id, Size(o) - qty);
      } else {
        ReplaceNews(st, id, price, qty);
        SaysMore(st, Reentered(st, id, price, qty), CancelReplace(st, id, price, qty));
      }
    } else if id in st.live && qty == 0 {
      RemoveValid(st, id);
    }
  }

  lemma SaysMore(st: State, a: State, t: State)
    requires |a.tape| > |st.tape| && AddsPlain(a, t)
    ensures t.tape != st.tape
  {}

  lemma ReducePumpsNothing(st: State, id: nat, delta: nat)
    requires Valid(st) && Quiet(st) && id in st.live && !st.live[id].shelf.stop
    ensures Valid(DoReduce(st, id, delta).st) && Pump(DoReduce(st, id, delta).st) == DoReduce(st, id, delta).st
    ensures DoReduce(st, id, delta).st.tape == st.tape
  {
    FeedRuns.ReduceSilent(st, id, delta);
  }

  // ---- the gate's table and its positions -----------------------------

  /** The sender of each order, by what was submitted. */
  type Senders = map<nat, nat>

  function Behind(h: Senders, id: nat): nat { if id in h then h[id] else 0 }

  /** What an event moves the net fills of `owner` by: buys count up, sells down. */
  function Move(h: Senders, e: Event, owner: nat): int {
    match e
    case Traded(taker, maker, _, qty, side) =>
      var n := if side.Buy? then qty as int else -(qty as int);
      (if Behind(h, taker) == owner then n else 0) - (if Behind(h, maker) == owner then n else 0)
    case _ => 0
  }

  function Net(h: Senders, es: seq<Event>, owner: nat): int {
    if es == [] then 0 else Move(h, es[0], owner) + Net(h, es[1..], owner)
  }

  lemma {:induction false} NetAppend(h: Senders, a: seq<Event>, b: seq<Event>, owner: nat)
    ensures Net(h, a + b, owner) == Net(h, a, owner) + Net(h, b, owner)
  {
    if a == [] {
      assert a + b == b;
    } else {
      assert (a + b)[1..] == a[1..] + b;
      NetAppend(h, a[1..], b, owner);
    }
  }

  /** Ids given out later do not change what earlier fills were. */
  lemma {:induction false} NetKept(h: Senders, k: Senders, es: seq<Event>, n: nat, owner: nat)
    requires forall e :: e in es ==> Dated(e, n)
    requires forall id :: 0 < id < n ==> Behind(h, id) == Behind(k, id)
    ensures Net(h, es, owner) == Net(k, es, owner)
  {
    if es != [] {
      assert Dated(es[0], n);
      NetKept(h, k, es[1..], n, owner);
    }
  }

  lemma NoteMoves(g: Gate, e: Event, owner: nat)
    requires owner != 0 && !e.Accepted?
    ensures var k := g.Note(e);
      && k.owners == g.owners && k.pendingOwner == g.pendingOwner
      && k.PositionOf(owner) == g.PositionOf(owner) + Move(g.owners, e, owner)
  {}

  lemma {:induction false} NotesMove(g: Gate, es: seq<Event>, owner: nat)
    requires owner != 0 && forall e :: e in es ==> !e.Accepted?
    ensures var k := g.NoteAll(es);
      k.owners == g.owners && k.PositionOf(owner) == g.PositionOf(owner) + Net(g.owners, es, owner)
    decreases |es|
  {
    hide Gate.Note, Gate.PositionOf, Move;
    if es != [] {
      NoteMoves(g, es[0], owner);
      NotesMove(g.Note(es[0]), es[1..], owner);
    }
  }

  lemma {:induction false} NotesAppend(g: Gate, a: seq<Event>, b: seq<Event>)
    ensures g.NoteAll(a + b) == g.NoteAll(a).NoteAll(b)
    decreases |a|
  {
    if a == [] {
      assert a + b == b;
    } else {
      assert (a + b)[1..] == a[1..] + b;
      NotesAppend(g.Note(a[0]), a[1..], b);
    }
  }

  lemma OneNoted(g: Gate, e: Event)
    ensures g.NoteAll([e]) == g.Note(e)
  {
    assert [e][1..] == [];
  }

  /** The opening of a call sets at most the table entry of the id it accepts. */
  lemma OpeningNotes(g: Gate, st: State, op: Op, nextId: nat, first: seq<Event>)
    requires Opens(st, op, nextId, first) && |first| <= 2
    ensures var k := g.NoteAll(first);
      && k.positions == g.positions
      && k.owners == (if nextId != st.nextId then g.owners[st.nextId := g.pendingOwner]
                      else if op.Modify? && |first| == 2 then g.owners[op.id := g.pendingOwner] else g.owners)
  {
    if |first| == 1 {
      assert first == [first[0]];
      OneNoted(g, first[0]);
    } else if |first| == 2 {
      assert first[1..] == [first[1]];
      OneNoted(g, first[1]);
    }
  }

  // ---- calls and runs through the gate --------------------------------

  /** Who has sent what so far: an id given out belongs to the sender of that call. */
  function Sent(h: Senders, st: State, t: State, op: Op): Senders {
    if t.nextId != st.nextId && IsSubmit(op) then h[st.nextId := OwnerOfCall(op)] else h
  }

  /** The gate's table names the senders, and its positions are their net fills. */
  ghost predicate Tallied(g: Gate, st: State, h: Senders) {
    && g.owners == h && (forall id :: 0 < id < st.nextId ==> id in h)
    && (forall e :: e in st.tape ==> Dated(e, st.nextId))
    && (forall owner :: owner != 0 ==> g.PositionOf(owner) == Net(h, st.tape, owner))
  }

  /** A modify re-enters its order while the last submission was somebody else's. */
  predicate Misreads(g: Gate, st: State, op: Op)
    requires Valid(st)
  {
    op.Modify? && op.qty > 0 && GateStep(g, st, op).st.tape != st.tape && g.pendingOwner != Behind(g.owners, op.id)
  }

  lemma UnfoldedNews(st: State, t: State, first: seq<Event>) returns (rest: seq<Event>)
    requires Unfolds(st, t, first)
    ensures st.tape <= t.tape && News(st, t) == first + rest
    ensures forall e :: e in rest ==> Plain(e, t.nextId)
  {
    rest := t.tape[|st.tape| + |first|..];
    forall e | e in rest ensures Plain(e, t.nextId) {
      var i :| 0 <= i < |rest| && rest[i] == e;
      assert t.tape[|st.tape| + |first| + i] == e;
    }
  }

  /** What the gate notes of a passed call. */
  lemma PassedNotes(p: Gate, st: State, op: Op)
    requires Valid(st) && Quiet(st)
    ensures var t := Step(st, op).st;
      && st.tape <= t.tape && (t.nextId != st.nextId ==> t.nextId == st.nextId + 1 && IsSubmit(op))
      && (forall e :: e in News(st, t) ==> Dated(e, t.nextId))
      && var k := p.NoteAll(News(st, t));
      && k.owners == (if t.nextId != st.nextId then p.owners[st.nextId := p.pendingOwner]
                      else if op.Modify? && op.qty > 0 && t.tape != st.tape then p.owners[op.id := p.pendingOwner]
                      else p.owners)
      && (forall owner :: owner != 0 ==> k.PositionOf(owner) == p.PositionOf(owner) + Net(k.owners, News(st, t), owner))
  {
    hide Valid, Quiet, Step, Unfolds, Gate.Note, Move;
    var first := CallUnfolds(st, op);
    var t := Step(st, op).st;
    var rest := UnfoldedNews(st, t, first);
    ModifyNamesKnown(st, op);
    OpeningNotes(p, st, op, t.nextId, first);
    NotesAppend(p, first, rest);
    var q := p.NoteAll(first);
    forall owner | owner != 0
      ensures p.NoteAll(News(st, t)).PositionOf(owner) == p.PositionOf(owner) + Net(q.owners, News(st, t), owner)
      ensures p.NoteAll(News(st, t)).owners == q.owners
    {
      NotesMove(q, rest, owner);
      NetAppend(q.owners, first, rest, owner);
      OpeningMovesNothing(q.owners, first, owner);
    }
    NotesMove(q, rest, 1);
  }

  lemma ModifyNamesKnown(st: State, op: Op)
    requires Valid(st) && Quiet(st)
    ensures op.Modify? && op.qty > 0 && Step(st, op).st.tape != st.tape ==> 0 < op.id < st.nextId
  {
    hide State.ListedAt, StopsInBand, Quiet, CancelReplace, Remove, DoReduce;
    if op.Modify? {
      if op.id in st.live { LiveIsDated(st, op.id); } else { PumpNothing(st, st); }
    }
  }

  lemma {:induction false} OpeningMovesNothing(h: Senders, first: seq<Event>, owner: nat)
    requires forall e :: e in first ==> !e.Traded?
    ensures Net(h, first, owner) == 0
  {
    if first != [] { OpeningMovesNothing(h, first[1..], owner); }
  }

  lemma TallyGrows(g: Gate, st: State, h: Senders, k: Gate, t: State, news: seq<Event>, w: Senders)
    requires Tallied(g, st, h) && t.tape == st.tape + news && t.nextId >= st.nextId && k.owners == w
    requires forall id :: 0 < id < t.nextId ==> id in w
    requires forall id :: 0 < id < st.nextId ==> Behind(h, id) == Behind(w, id)
    requires forall e :: e in news ==> Dated(e, t.nextId)
    requires forall owner :: owner != 0 ==> k.PositionOf(owner) == g.PositionOf(owner) + Net(w, news, owner)
    ensures Tallied(k, t, w)
  {
    hide Gate.PositionOf, Move;
    forall e | e in t.tape ensures Dated(e, t.nextId) {
      if e in st.tape { assert Dated(e, st.nextId); }
    }
    forall owner | owner != 0 ensures k.PositionOf(owner) == Net(w, t.tape, owner) {
      NetAppend(w, st.tape, news, owner);
      NetKept(h, w, st.tape, st.nextId, owner);
    }
  }

  /** A call through the gate keeps its positions the senders' net fills exactly when it is
      not a modify that re-enters another sender's order than the last one's. */
  lemma CallTalliesIff(g: Gate, st: State, op: Op, h: Senders)
    requires Valid(st) && Quiet(st) && Tallied(g, st, h)
    ensures var r := GateStep(g, st, op);
      && Valid(r.st) && Quiet(r.st)
      && (Tallied(r.gate, r.st, Sent(h, st, r.st, op)) <==> !Misreads(g, st, op))
  {
    hide Valid, Quiet, Step, Judge, Tallied, Gate.NoteAll, OpenOrders, Gate.PositionOf;
    GateKeepsControls(g, st, op);
    var r, c := GateStep(g, st, op), if Metered(op) then g.Counted() else g;
    var w := Sent(h, st, r.st, op);
    TalliedTable(g, st, h);
    if Judge(c, st.last, OpenOrders(st), op).Passed? {
      var p := if IsSubmit(op) then c.(pendingOwner := OwnerOfCall(op)) else c;
      PassedNotes(p, st, op);
      ModifyNamesKnown(st, op);
      SamePositions(g, p);
      var news := News(st, r.st);
      if Misreads(g, st, op) {
        NotTallied(r.gate, r.st, w);
      } else {
        TallyGrows(g, st, h, r.gate, r.st, news, w);
      }
    } else {
      SamePositions(g, r.gate);
      NothingNetted(w);
      TallyGrows(g, st, h, r.gate, r.st, [], w);
    }
  }

  lemma TalliedTable(g: Gate, st: State, h: Senders)
    requires Tallied(g, st, h)
    ensures g.owners == h && forall id :: 0 < id < st.nextId ==> id in h
  {}

  lemma NotTallied(k: Gate, t: State, w: Senders)
    requires k.owners != w
    ensures !Tallied(k, t, w)
  {}

  lemma SamePositions(g: Gate, p: Gate)
    requires p.positions == g.positions
    ensures forall owner :: p.PositionOf(owner) == g.PositionOf(owner)
  {}

  lemma NothingNetted(w: Senders)
    ensures forall owner :: Net(w, [], owner) == 0
  {}

  function SentRun(h: Senders, g: Gate, st: State, ops: seq<Op>): Senders
    requires Valid(st)
    decreases |ops|
  {
    if ops == [] then h
    else
      GateKeepsControls(g, st, ops[0]);
      var r := GateStep(g, st, ops[0]);
      SentRun(Sent(h, st, r.st, ops[0]), r.gate, r.st, ops[1..])
  }

  /** No call of the run is such a modify. */
  predicate NeverMisreads(g: Gate, st: State, ops: seq<Op>)
    requires Valid(st)
    decreases |ops|
  {
    ops == [] ||
    (GateKeepsControls(g, st, ops[0]);
     var r := GateStep(g, st, ops[0]);
     !Misreads(g, st, ops[0]) && NeverMisreads(r.gate, r.st, ops[1..]))
  }

  lemma {:induction false} RunTallies(g: Gate, st: State, ops: seq<Op>, h: Senders)
    requires Valid(st) && Quiet(st) && Tallied(g, st, h) && NeverMisreads(g, st, ops)
    ensures var r := GateRun(g, st, ops); Tallied(r.gate, r.st, SentRun(h, g, st, ops))
    decreases |ops|
  {
    hide Valid, Quiet, GateStep, Tallied, Misreads, Sent;
    if ops != [] {
      GateKeepsControls(g, st, ops[0]);
      CallTalliesIff(g, st, ops[0], h);
      var r := GateStep(g, st, ops[0]);
      RunTallies(r.gate, r.st, ops[1..], Sent(h, st, r.st, ops[0]));
    }
  }

  function NewGate(limits: Limits): Gate { Gate(limits, false, 0, Passed, map[], 0, map[], map[]) }

  /** Over every run through a new gate with no such modify, whatever its limits, each
      owner's position is the net of the fills of the orders that owner sent. */
  lemma PositionsAreNetFills(limits: Limits, min: int, width: nat, ops: seq<Op>, owner: nat)
    requires width > 0 && owner != 0
    ensures Valid(Fresh(min, width))
    ensures var g, st := NewGate(limits), Fresh(min, width);
      NeverMisreads(g, st, ops) ==>
        var r := GateRun(g, st, ops);
        r.gate.PositionOf(owner) == Net(SentRun(map[], g, st, ops), r.st.tape, owner)
  {
    hide Valid, Quiet, GateRun, NeverMisreads, SentRun, Tallied, Net, Gate.PositionOf;
    FreshIsSafe(min, width);
    var g, st := NewGate(limits), Fresh(min, width);
    NewTallied(limits, min, width);
    if NeverMisreads(g, st, ops) {
      RunTallies(g, st, ops, map[]);
      TalliedPosition(GateRun(g, st, ops).gate, GateRun(g, st, ops).st, SentRun(map[], g, st, ops), owner);
    }
  }

  lemma NewTallied(limits: Limits, min: int, width: nat)
    ensures Tallied(NewGate(limits), Fresh(min, width), map[])
  {}

  lemma TalliedPosition(g: Gate, st: State, h: Senders, owner: nat)
    requires Tallied(g, st, h) && owner != 0
    ensures g.PositionOf(owner) == Net(h, st.tape, owner)
  {}

  // ---- such a modify is reachable -------------------------------------

  lemma {:induction false} NotesKeepPending(g: Gate, es: seq<Event>)
    ensures g.NoteAll(es).pendingOwner == g.pendingOwner
    decreases |es|
  {
    if es != [] { NotesKeepPending(g.Note(es[0]), es[1..]); }
  }

  /** A bid at the only tick passes an unlimited gate, rests, and is its sender's. */
  lemma BidPasses(g: Gate, st: State, qty: nat, owner: nat)
    requires Valid(st) && Quiet(st) && g.limits == UNLIMITED && !g.killed && st.min == 0 && st.width == 1
    requires qty > 0 && (st.halted || !WouldCross(st, Buy, 0))
    ensures var op := SubmitLimit(Buy, 0, qty, GTC, owner, CancelTaker); var r := GateStep(g, st, op);
      && Valid(r.st) && Quiet(r.st) && r.gate.limits == UNLIMITED && !r.gate.killed && r.gate.pendingOwner == owner
      && r.gate.owners == g.owners[st.nextId := owner]
      && r.st == Rest(Accept(st, Buy, 0, qty), st.nextId, Buy, 0, qty, Terms(owner, CancelTaker, 0))
  {
    hide State.ListedAt, StopsInBand, Quiet, Step, Judge, Gate.NoteAll, OpenOrders, WouldCross, Rest;
    var op := SubmitLimit(Buy, 0, qty, GTC, owner, CancelTaker);
    EntryRests(st, Buy, 0, qty, owner, CancelTaker);
    UnlimitedPasses(g, st, op);
    GateKeepsControls(g, st, op);
    UnlimitedJudges(g.Counted(), st, op);
    RestBook(Accept(st, Buy, 0, qty), st.nextId, Buy, 0, qty, Terms(owner, CancelTaker, 0));
    var p := g.Counted().(pendingOwner := owner);
    PassedNotes(p, st, op);
    NotesKeepPending(p, News(st, Step(st, op).st));
  }

  lemma UnlimitedJudges(g: Gate, st: State, op: Op)
    requires g.limits == UNLIMITED && !g.killed && op.SubmitLimit?
    ensures Judge(g, st.last, OpenOrders(st), op) == Passed
  {}

  /** Order 1 of size 5 stands first at the only bid level. */
  ghost predicate FirstBid(st: State) {
    && Valid(st) && Quiet(st) && !st.halted && st.min == 0 && st.width == 1
    && st.Get(Resting(Buy))[0] != [] && st.Get(Resting(Buy))[0][0] == Node(1, 5, 7, CancelTaker, 0, 0, false, 0)
  }

  /** Asked to grow, it re-enters, which is heard. */
  lemma GrowingIsHeard(st: State)
    requires FirstBid(st)
    ensures Step(st, Modify(1, 0, 6)).st.tape != st.tape
  {
    hide State.ListedAt, StopsInBand, CancelReplace, Pump, Quiet;
    Locate(st, Resting(Buy), 0, 0);
    ReplaceNews(st, 1, 0, 6);
    SaysMore(st, Reentered(st, 1, 0, 6), CancelReplace(st, 1, 0, 6));
    DoValid(st, Modify(1, 0, 6));
    PumpSettles(Do(st, Modify(1, 0, 6)).st);
    assert |CancelReplace(st, 1, 0, 6).tape| > |st.tape|;
  }

  /** Owner 7 bids, owner 8 bids behind, and 7's bid is asked to grow: from then on its fills
      would count as owner 8's. */
  lemma MisreadReached()
    ensures Valid(Fresh(0, 1))
    ensures var ops := [SubmitLimit(Buy, 0, 5, GTC, 7, CancelTaker), SubmitLimit(Buy, 0, 1, GTC, 8, CancelTaker)];
      var r := GateRun(NewGate(UNLIMITED), Fresh(0, 1), ops);
      Valid(r.st) && Misreads(r.gate, r.st, Modify(1, 0, 6))
  {
    hide State.ListedAt, StopsInBand, GateStep, Quiet, Step;
    var o1, o2 := SubmitLimit(Buy, 0, 5, GTC, 7, CancelTaker), SubmitLimit(Buy, 0, 1, GTC, 8, CancelTaker);
    var g, st := NewGate(UNLIMITED), Fresh(0, 1);
    FreshIsSafe(0, 1);
    BidPasses(g, st, 5, 7);
    var r1 := GateStep(g, st, o1);
    RestBook(Accept(st, Buy, 0, 5), 1, Buy, 0, 5, Terms(7, CancelTaker, 0));
    BidPasses(r1.gate, r1.st, 1, 8);
    var r2 := GateStep(r1.gate, r1.st, o2);
    RestBook(Accept(r1.st, Buy, 0, 1), 2, Buy, 0, 1, Terms(8, CancelTaker, 0));
    GrowingIsHeard(r2.st);
    UnlimitedPasses(r2.gate, r2.st, Modify(1, 0, 6));
    assert [o1, o2][1..] == [o2] && [o2][1..] == [];
  }
}
