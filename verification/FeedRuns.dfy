/** The round trip over publisher calls and whole runs. */
module FeedRuns {
  import opened Types
  import opened Ladders
  import opened Book
  import opened Matching
  import opened Auction
  import opened Engine
  import opened Safety
  import opened Feed
  import opened FeedMirror
  import opened FeedSync
  import opened FeedCross

  // ---- calls that only speak through events ---------------------------

  lemma AcceptFollows(st: State, p: Publisher, b: Builder, side: Side, price: int, qty: nat)
    requires InStep(st, p, b) && Valid(st)
    ensures Follows(st, Accept(st, side, price, qty), p, b)
  {
    hide State.ListedAt, InStep, Heard, StopsInBand;
    AcceptSteady(st, side, price, qty);
    FollowsQuietly(st, Accept(st, side, price, qty), p, b, [Accepted(st.nextId, side, price, qty)]);
  }

  lemma KillFollows(st: State, p: Publisher, b: Builder, id: nat)
    requires InStep(st, p, b) && id !in st.live
    ensures Follows(st, st.Emit(Cancelled(id)), p, b)
  {
    hide State.ListedAt, InStep, Heard;
    InStepIndexed(st, p, b);
    TellSteady(st, [Cancelled(id)]);
    StrangerIsHidden(st, p, b, id);
    FollowsQuietly(st, st.Emit(Cancelled(id)), p, b, [Cancelled(id)]);
  }

  lemma RejectFollows(st: State, p: Publisher, b: Builder)
    requires InStep(st, p, b)
    ensures Follows(st, st.Emit(Rejected(0)), p, b)
  {
    hide State.ListedAt, InStep, Heard;
    InStepIndexed(st, p, b);
    TellSteady(st, [Rejected(0)]);
    FollowsQuietly(st, st.Emit(Rejected(0)), p, b, [Rejected(0)]);
  }

  lemma EnterFollows(st: State, p: Publisher, b: Builder, side: Side, price: int, qty: nat, tif: TimeInForce, t: Terms)
    requires InStep(st, p, b) && Valid(st) && Safe(st) && st.InBand(price) && qty > 0
    ensures Follows(st, Enter(st, side, price, qty, tif, t).st, p, b)
  {
    hide State.ListedAt, InStep, Heard, PlaceLimit, StopsInBand;
    var a, id := Accept(st, side, price, qty), st.nextId;
    AcceptFollows(st, p, b, side, price, qty);
    AcceptSteady(st, side, price, qty);
    KillFollows(a, Heard(st, a, p), b, id);
    FollowsTrans(st, a, a.Emit(Cancelled(id)), p, b);
    PlaceFollows(a, Heard(st, a, p), b, id, side, a.Tick(price), qty, tif, t);
    FollowsTrans(st, a, PlaceLimit(a, id, side, a.Tick(price), qty, tif, t), p, b);
  }

  lemma MarketFollows(st: State, p: Publisher, b: Builder, side: Side, qty: nat, owner: nat, stp: StpPolicy)
    requires InStep(st, p, b) && Valid(st) && Safe(st)
    ensures Follows(st, DoSubmitMarket(st, side, qty, owner, stp).st, p, b)
  {
    hide State.ListedAt, InStep, Heard, Match, StopsInBand;
    if st.halted {
      RejectFollows(st, p, b);
    } else {
      var a := Accept(st, side, 0, qty);
      var k := Sweeping(a, st.nextId, side, Terms(owner, stp, 0));
      AcceptFollows(st, p, b, side, 0, qty);
      AcceptSteady(st, side, 0, qty);
      MatchFollows(a, Heard(st, a, p), b, k, qty);
      FollowsTrans(st, a, Match(a, k, qty).st, p, b);
    }
  }

  lemma StopJoinFollows(st: State, p: Publisher, b: Builder, side: Side, i: nat, o: Order)
    requires InStep(st, p, b) && i < st.width && 0 < o.id < st.nextId && o.id !in st.live
    ensures Follows(st, Join(st, Pending(side), i, o), p, b)
  {
    hide State.ListedAt, Synced, Heard;
    JoinIndexed(st, Pending(side), i, o);
    FollowsQuietly(st, Join(st, Pending(side), i, o), p, b, []);
  }

  lemma StopFollows(st: State, p: Publisher, b: Builder, side: Side, trigger: int, limit: int, qty: nat, market: bool,
                    owner: nat, stp: StpPolicy)
    requires InStep(st, p, b) && Valid(st) && Safe(st)
    ensures Follows(st, DoSubmitStop(st, side, trigger, limit, qty, market, owner, stp).st, p, b)
  {
    hide State.ListedAt, InStep, Heard, ExecuteStop, StopsInBand;
    RejectFollows(st, p, b);
    if st.InBand(trigger) && qty > 0 && (market || st.InBand(limit)) {
      var a := Accept(st, side, trigger, qty);
      var o := Node(st.nextId, qty, owner, stp, 0, 0, market, if market then 0 else limit);
      AcceptFollows(st, p, b, side, trigger, qty);
      AcceptSteady(st, side, trigger, qty);
      if !a.halted && Armed(a, side, trigger) {
        ExecuteFollows(a, Heard(st, a, p), b, side, o);
        FollowsTrans(st, a, ExecuteStop(a, side, o), p, b);
      } else {
        StopJoinFollows(a, Heard(st, a, p), b, side, a.Tick(trigger), o);
        FollowsTrans(st, a, Join(a, Pending(side), a.Tick(trigger), o), p, b);
      }
    }
  }

  /** A live order leaves and its cancellation is heard, whether it was displayed or not. */
  lemma CancelFollows(st: State, p: Publisher, b: Builder, id: nat)
    requires InStep(st, p, b) && Valid(st) && id in st.live
    ensures Follows(st, Remove(st, id).Emit(Cancelled(id)), p, b)
  {
    hide State.ListedAt, Synced, Heard, StopsInBand, OnCancel;
    RemoveValid(st, id);
    var r, t := Remove(st, id), Remove(st, id).Emit(Cancelled(id));
    TellSteady(r, [Cancelled(id)]);
    var at, k := st.live[id], Seat(st, id);
    if at.shelf.stop {
      StrangerIsHidden(st, p, b, id);
      FollowsQuietly(st, t, p, b, [Cancelled(id)]);
    } else {
      assert at.shelf == Resting(at.shelf.side);
      SyncedDelete(st, p, b, at.shelf.side, at.tick, k);
      SyncedQuiet(r, t, OnCancel(p, id), b);
      HeardOne(st, t, p, Cancelled(id));
      ModeKept(p, t.tape[|st.tape|..]);
    }
  }

  lemma ReplaceFollows(st: State, p: Publisher, b: Builder, id: nat, price: int, qty: nat)
    requires InStep(st, p, b) && Valid(st) && Safe(st) && id in st.live && st.InBand(price) && qty > 0
    ensures Follows(st, CancelReplace(st, id, price, qty), p, b)
    ensures st.tape + [Cancelled(id)] <= CancelReplace(st, id, price, qty).tape
    ensures Valid(CancelReplace(st, id, price, qty)) && Safe(CancelReplace(st, id, price, qty))
  {
    hide State.ListedAt, InStep, Heard, PlaceLimit, StopsInBand, Remove;
    var o, side := OrderOf(st, id), st.live[id].shelf.side;
    RemoveValid(st, id);
    RemoveSafe(st, id);
    var c := Remove(st, id).Emit(Cancelled(id));
    var a := c.Emit(Accepted(id, side, price, qty));
    CancelFollows(st, p, b, id);
    TellSteady(Remove(st, id), [Cancelled(id)]);
    TellSteady(c, [Accepted(id, side, price, qty)]);
    FollowsQuietly(c, a, Heard(st, c, p), b, [Accepted(id, side, price, qty)]);
    FollowsTrans(st, c, a, p, b);
    var t := PlaceLimit(a, id, side, st.Tick(price), qty, GTC, Terms(o.owner, o.stp, o.peak));
    PlaceFollows(a, Heard(st, a, p), b, id, side, st.Tick(price), qty, GTC, Terms(o.owner, o.stp, o.peak));
    FollowsTrans(st, a, t, p, b);
    SteadyValid(Remove(st, id), c);
    SteadyValid(c, a);
    PlaceSteady(a, id, side, st.Tick(price), qty, GTC, Terms(o.owner, o.stp, o.peak));
    SteadyValid(a, t);
    if !st.halted { PlaceUncrossed(a, id, side, st.Tick(price), qty, GTC, Terms(o.owner, o.stp, o.peak)); }
  }

  lemma DoFollows(st: State, p: Publisher, b: Builder, op: Op)
    requires InStep(st, p, b) && Valid(st) && Safe(st)
    requires !op.Reduce? && !op.Modify? && !op.Halt? && !op.Resume? && !op.UncrossBook?
    ensures Follows(st, Do(st, op).st, p, b)
  {
    hide State.ListedAt, StopsInBand, InStep, Heard, Enter, DoSubmitStop, DoSubmitMarket, Remove;
    RejectFollows(st, p, b);
    FollowsSelf(st, p, b);
    match op {
      case SubmitLimit(side, price, qty, tif, owner, stp) =>
        if st.InBand(price) && qty > 0 { EnterFollows(st, p, b, side, price, qty, tif, Terms(owner, stp, 0)); }
      case SubmitMarket(side, qty, owner, stp) => MarketFollows(st, p, b, side, qty, owner, stp);
      case SubmitIceberg(side, price, qty, display, tif, owner, stp) =>
        if st.InBand(price) && qty > 0 { EnterFollows(st, p, b, side, price, qty, tif, Terms(owner, stp, display)); }
      case SubmitStop(side, trigger, qty, owner, stp) => StopFollows(st, p, b, side, trigger, 0, qty, true, owner, stp);
      case SubmitStopLimit(side, trigger, limit, qty, owner, stp) =>
        StopFollows(st, p, b, side, trigger, limit, qty, false, owner, stp);
      case Cancel(id) => if id in st.live { CancelFollows(st, p, b, id); }
    }
  }

  /** The engine call without its pump is followed by the pump. */
  lemma PumpedFollows(st: State, t: State, p: Publisher, b: Builder)
    requires Follows(st, t, p, b) && Valid(t) && Safe(t)
    ensures Follows(st, Pump(t), p, b)
  {
    hide State.ListedAt, StopsInBand, InStep, Heard, Pump;
    PumpFollows(t, Heard(st, t, p), b);
    FollowsTrans(st, t, Pump(t), p, b);
  }

  // ---- silent amends --------------------------------------------------

  lemma OrderQtyAt(st: State, s: Side, i: nat, k: nat)
    requires st.Indexed() && i < st.width && k < |st.Get(Resting(s))[i]|
    ensures OrderQty(st, st.Get(Resting(s))[i][k].id) == st.Get(Resting(s))[i][k].qty
  {
    Locate(st, Resting(s), i, k);
  }

  /** The wrapper's diff of the displayed quantity recovers a silent amend. */
  lemma SyncedAmend(st: State, p: Publisher, b: Builder, s: Side, i: nat, k: nat, o: Order)
    requires st.Indexed() && Synced(st, p, b) && i < st.width && k < |st.Get(Resting(s))[i]|
    requires o.id == st.Get(Resting(s))[i][k].id && o.qty <= st.Get(Resting(s))[i][k].qty
    ensures Amend(st, Resting(s), i, k, o).Indexed()
    ensures Synced(Amend(st, Resting(s), i, k, o), PublishShrink(p, o.id, st.Get(Resting(s))[i][k].qty, o.qty), b)
  {
    hide State.ListedAt, Mirrors, Replay, ApplyReduce;
    var before := st.Get(Resting(s))[i][k].qty;
    ShownIsReferenced(st, p, b, s, i, k);
    if o.qty < before {
      SyncedShrink(st, p, b, s, i, k, o, before - o.qty, Shrink(p.refs[o.id].ref, before - o.qty));
    } else {
      MirrorReserve(st, p.refs, Replay(b, p.out), s, i, k, o);
    }
  }

  lemma SyncedReduce(st: State, p: Publisher, b: Builder, id: nat, delta: nat)
    requires InStep(st, p, b) && Valid(st) && id in st.live && !st.live[id].shelf.stop
    ensures var t := DoReduce(st, id, delta).st;
      && t.Indexed() && OrderQty(st, id) > 0
      && InStep(t, PublishShrink(p, id, OrderQty(st, id), OrderQty(t, id)), b)
  {
    hide State.ListedAt, StopsInBand, Synced, OnCancel;
    ReduceValid(st, id, delta);
    var at, k, o := st.live[id], Seat(st, id), OrderOf(st, id);
    var s := at.shelf.side;
    assert at.shelf == Resting(s);
    var t := DoReduce(st, id, delta).st;
    if delta >= Size(o) {
      RemoveValid(st, id);
      SyncedDelete(st, p, b, s, at.tick, k);
      assert PublishShrink(p, id, OrderQty(st, id), 0) == OnCancel(p, id) by {
        RetractedByName(p, id, OrderQty(st, id));
      }
    } else {
      var o' := Shave(o, delta);
      SyncedAmend(st, p, b, s, at.tick, k, o');
      assert t.Get(Resting(s))[at.tick][k] == o';
      OrderQtyAt(t, s, at.tick, k);
    }
  }

  lemma RetractedByName(p: Publisher, id: nat, before: nat)
    ensures PublishShrink(p, id, before, 0) == OnCancel(p, id)
  {}

  lemma ReduceSilent(st: State, id: nat, delta: nat)
    requires Valid(st) && Quiet(st)
    ensures var r := DoReduce(st, id, delta);
      && Valid(r.st) && r.st.tape == st.tape && Pump(r.st) == r.st
      && (r.reply == Answer(true) <==> id in st.live && !st.live[id].shelf.stop)
      && (r.reply != Answer(true) ==> r.st == st)
  {
    hide State.ListedAt, StopsInBand;
    ReduceValid(st, id, delta);
    PumpNothing(st, DoReduce(st, id, delta).st);
  }

  // ---- one publisher call ---------------------------------------------

  /** The publisher after wrapping one engine call. */
  function Publish(p: Publisher, st: State, op: Op): Publisher
    requires Valid(st)
  {
    StepValid(st, op);
    PubStep(p, st, op, Step(st, op).st, Step(st, op).reply)
  }

  lemma PlainCall(st: State, p: Publisher, b: Builder, op: Op)
    requires InStep(st, p, b) && Valid(st) && Safe(st)
    requires !op.Reduce? && !op.Modify? && !op.Halt? && !op.Resume? && !op.UncrossBook?
    ensures InStep(Step(st, op).st, Publish(p, st, op), b)
  {
    hide State.ListedAt, StopsInBand, InStep, Do, Pump;
    DoFollows(st, p, b, op);
    DoValid(st, op);
    DoSafe(st, op);
    PumpedFollows(st, Do(st, op).st, p, b);
    StepValid(st, op);
  }

  lemma ReduceCall(st: State, p: Publisher, b: Builder, id: nat, delta: nat)
    requires InStep(st, p, b) && Valid(st) && Quiet(st)
    ensures InStep(Step(st, Reduce(id, delta)).st, Publish(p, st, Reduce(id, delta)), b)
  {
    hide State.ListedAt, StopsInBand, InStep, DoReduce, Pump, PublishShrink, OrderQty;
    StepValid(st, Reduce(id, delta));
    ReduceSilent(st, id, delta);
    assert st.tape[|st.tape|..] == [];
    if id in st.live && !st.live[id].shelf.stop { SyncedReduce(st, p, b, id, delta); }
  }

  lemma ReplaceCall(st: State, p: Publisher, b: Builder, id: nat, price: int, qty: nat)
    requires InStep(st, p, b) && Valid(st) && Safe(st) && id in st.live && !st.live[id].shelf.stop
    requires st.InBand(price) && qty > 0 && !(st.Tick(price) == st.live[id].tick && qty <= Size(OrderOf(st, id)))
    ensures InStep(Step(st, Modify(id, price, qty)).st, Publish(p, st, Modify(id, price, qty)), b)
  {
    hide State.ListedAt, StopsInBand, InStep, CancelReplace, Pump, PublishShrink, OrderQty, SawBookEvent;
    var c := CancelReplace(st, id, price, qty);
    StepValid(st, Modify(id, price, qty));
    ReplaceFollows(st, p, b, id, price, qty);
    PumpedFollows(st, c, p, b);
    PumpSettles(c);
    CancelIsSeen(st, Pump(c), id);
  }

  lemma CancelIsSeen(st: State, t: State, id: nat)
    requires st.tape + [Cancelled(id)] <= t.tape
    ensures SawBookEvent(t.tape[|st.tape|..])
  {
    assert t.tape[|st.tape|..][0] == Cancelled(id);
    assert BookEvent(Cancelled(id));
  }

  lemma CancelCall(st: State, p: Publisher, b: Builder, id: nat, price: int)
    requires InStep(st, p, b) && Valid(st) && Safe(st) && id in st.live
    ensures InStep(Step(st, Modify(id, price, 0)).st, Publish(p, st, Modify(id, price, 0)), b)
  {
    hide State.ListedAt, StopsInBand, InStep, Remove, Pump, PublishShrink, OrderQty, SawBookEvent;
    var t := Remove(st, id).Emit(Cancelled(id));
    StepValid(st, Modify(id, price, 0));
    RemoveValid(st, id);
    CancelValid(st, id);
    RemoveSafe(st, id);
    CancelFollows(st, p, b, id);
    PumpedFollows(st, t, p, b);
    PumpSettles(t);
    CancelIsSeen(st, Pump(t), id);
  }

  /** A modify at the same price and no larger: the silent in-place amend. */
  lemma AmendCall(st: State, p: Publisher, b: Builder, id: nat, price: int, qty: nat)
    requires InStep(st, p, b) && Valid(st) && Quiet(st) && id in st.live && !st.live[id].shelf.stop
    requires st.InBand(price) && qty > 0 && st.Tick(price) == st.live[id].tick && qty <= Size(OrderOf(st, id))
    ensures InStep(Step(st, Modify(id, price, qty)).st, Publish(p, st, Modify(id, price, qty)), b)
  {
    hide State.ListedAt, StopsInBand, InStep, Remove, CancelReplace, DoReduce, Pump, PublishShrink, OrderQty;
    StepValid(st, Modify(id, price, qty));
    assert st.tape[|st.tape|..] == [];
    ReduceSilent(st, id, Size(OrderOf(st, id)) - qty);
    SyncedReduce(st, p, b, id, Size(OrderOf(st, id)) - qty);
  }

  /** A modify the engine refuses says and changes nothing. */
  lemma RefusedCall(st: State, p: Publisher, b: Builder, id: nat, price: int, qty: nat)
    requires InStep(st, p, b) && Valid(st) && Quiet(st)
    requires id !in st.live || (qty != 0 && (st.live[id].shelf.stop || !st.InBand(price)))
    ensures InStep(Step(st, Modify(id, price, qty)).st, Publish(p, st, Modify(id, price, qty)), b)
  {
    hide State.ListedAt, StopsInBand, InStep, Remove, CancelReplace, DoReduce, Pump, PublishShrink, OrderQty;
    StepValid(st, Modify(id, price, qty));
    assert st.tape[|st.tape|..] == [];
    PumpNothing(st, st);
  }

  lemma ModifyCall(st: State, p: Publisher, b: Builder, id: nat, price: int, qty: nat)
    requires InStep(st, p, b) && Valid(st) && Safe(st) && Quiet(st)
    ensures InStep(Step(st, Modify(id, price, qty)).st, Publish(p, st, Modify(id, price, qty)), b)
  {
    hide State.ListedAt, State.Bounded, StopsInBand, InStep, Step, Publish;
    if id !in st.live || (st.live[id].shelf.stop && qty != 0) {
      RefusedCall(st, p, b, id, price, qty);
    } else if qty == 0 {
      CancelCall(st, p, b, id, price);
    } else if !st.InBand(price) {
      RefusedCall(st, p, b, id, price, qty);
    } else if st.Tick(price) == st.live[id].tick && qty <= Size(OrderOf(st, id)) {
      AmendCall(st, p, b, id, price, qty);
    } else {
      ReplaceCall(st, p, b, id, price, qty);
    }
  }

  /** A trading action switches both engines to the same phase. */
  lemma SyncedPhase(st: State, p: Publisher, b: Builder, h: bool)
    requires InStep(st, p, b) && Valid(st)
    ensures InStep(st.(halted := h), p.Send(Action(h)), b) && Valid(st.(halted := h))
  {
    hide State.ListedAt, StopsInBand, Replay, Copies;
    HaltValid(st, h);
    Sent(b, p, Action(h));
    MirrorPhase(st, p.refs, Replay(b, p.out), h);
  }

  lemma PhaseStep(e: State, h: bool)
    requires Valid(e) && e.last.None?
    ensures Valid(e.(halted := h)) && Step(e, if h then Op.Halt else Op.Resume).st == e.(halted := h)
  {
    hide State.ListedAt, StopsInBand;
    HaltValid(e, h);
    assert NextStop(e.(halted := h)).None?;
  }

  lemma MirrorPhase(st: State, refs: Refs, b: Builder, h: bool)
    requires st.Indexed() && Mirrors(st, refs, b)
    ensures Mirrors(st.(halted := h), refs, Apply(b, Action(h)))
  {
    hide State.ListedAt, StopsInBand, Copies, Step;
    PhaseStep(b.engine, h);
    var e := b.engine.(halted := h);
    forall s: Side, i | 0 <= i < st.width
      ensures Copies(st.Get(Resting(s))[i], e.Get(Resting(s))[i], refs, b.refmap)
    {
      assert Copies(st.Get(Resting(s))[i], b.engine.Get(Resting(s))[i], refs, b.refmap);
    }
  }

  lemma PhaseCall(st: State, p: Publisher, b: Builder, h: bool)
    requires InStep(st, p, b) && Valid(st) && (!h ==> st.Uncrossed())
    ensures var op := if h then Op.Halt else Op.Resume;
      InStep(Step(st, op).st, Publish(p, st, op), b)
  {
    hide State.ListedAt, StopsInBand, InStep, Pump;
    var op := if h then Op.Halt else Op.Resume;
    StepValid(st, op);
    SyncedPhase(st, p, b, h);
    PumpFollows(st.(halted := h), p.Send(Action(h)), b);
  }

  lemma CrossPrintIgnored(st: State, p: Publisher, b: Builder, qty: nat, price: int)
    requires st.Indexed() && BuilderValid(b)
    ensures Synced(st, p.Send(CrossPrint(qty, price)), b) <==> Synced(st, p, b)
  {
    hide State.ListedAt, Mirrors, Apply, Replay, Step;
    Sent(b, p, CrossPrint(qty, price));
    CrossPrintSkipped(Replay(b, p.out), qty, price);
  }

  lemma CrossPrintSkipped(b: Builder, qty: nat, price: int)
    requires BuilderValid(b)
    ensures Apply(b, CrossPrint(qty, price)) == b
  {
    hide Step, BuilderValid;
  }

  lemma UncrossQuiet(st: State)
    requires Valid(st) && Safe(st) && Quiet(st)
    ensures Step(st, UncrossBook).st == Uncross(st).st
    ensures !st.halted ==> !Overlaps(st) && Uncross(st).st == st
  {
    hide State.ListedAt, StopsInBand;
    UncrossValid(st);
    UncrossMin(st);
    if !st.halted { PumpNothing(st, st); }
  }

  /** The uncross keeps the feed true exactly when no surviving clip was shown off its limit. */
  lemma UncrossCall(st: State, p: Publisher, b: Builder)
    requires InStep(st, p, b) && Valid(st) && Safe(st) && Quiet(st)
    ensures InStep(Step(st, UncrossBook).st, Publish(p, st, UncrossBook), b) <==> ClipsAtLimit(st)
  {
    hide State.ListedAt, StopsInBand, Uncross, Synced, ClipsAtLimit, Pump, Heard;
    InStepIndexed(st, p, b);
    StepValid(st, UncrossBook);
    UncrossQuiet(st);
    UncrossValid(st);
    var t := Uncross(st).st;
    var q := HeardUncross(st, p);
    HeardIs(st, t, p.(inCross := true));
    if t.last.Some? { CrossPrintIgnored(t, q, b, Uncross(st).crossed, t.last.value); }
    if st.halted {
      UncrossMirrorsIff(st, p, b);
    } else {
      NoNews(st);
      HeardSelf(st, p.(inCross := true));
      ModeAside(st, p, b);
    }
  }

  lemma HeardIs(st: State, t: State, p: Publisher)
    requires st.tape <= t.tape
    ensures Heard(st, t, p) == OnEvents(p, t.tape[|st.tape|..])
  {}

  lemma ModeAside(st: State, p: Publisher, b: Builder)
    requires InStep(st, p, b)
    ensures Synced(st, p.(inCross := true).(inCross := false), b)
  {}

  /** Every publisher call keeps the rebuilt book equal to the displayed one, except an
      uncross that leaves a clip shown away from its own limit: then it does not. */
  lemma CallMirrorsIff(st: State, p: Publisher, b: Builder, op: Op)
    requires InStep(st, p, b) && Valid(st) && Safe(st) && Quiet(st) && (op.Resume? ==> st.Uncrossed())
    ensures InStep(Step(st, op).st, Publish(p, st, op), b) <==> (op.UncrossBook? ==> ClipsAtLimit(st))
  {
    hide State.ListedAt, StopsInBand, InStep, Step, Publish, ClipsAtLimit;
    match op {
      case Reduce(id, delta) => ReduceCall(st, p, b, id, delta);
      case Modify(id, price, qty) => ModifyCall(st, p, b, id, price, qty);
      case Halt => PhaseCall(st, p, b, true);
      case Resume => PhaseCall(st, p, b, false);
      case UncrossBook => UncrossCall(st, p, b);
      case _ => PlainCall(st, p, b, op);
    }
  }

  // ---- whole runs -----------------------------------------------------

  /** What the publisher has become after a run of calls. */
  function PublishRun(p: Publisher, st: State, ops: seq<Op>): Publisher
    requires Valid(st)
    decreases |ops|
  {
    if ops == [] then p
    else StepValid(st, ops[0]); PublishRun(Publish(p, st, ops[0]), Step(st, ops[0]).st, ops[1..])
  }

  /** No uncross of the run leaves a clip shown away from its own limit. */
  ghost predicate AuctionsAtLimit(st: State, ops: seq<Op>)
    requires Valid(st)
    decreases |ops|
  {
    ops == [] ||
    (StepValid(st, ops[0]);
     (ops[0].UncrossBook? ==> ClipsAtLimit(st)) && AuctionsAtLimit(Step(st, ops[0]).st, ops[1..]))
  }

  /** The consumer's book is the displayed book before, between and after all calls. */
  ghost predicate InStepThroughout(st: State, p: Publisher, b: Builder, ops: seq<Op>)
    requires Valid(st)
    decreases |ops|
  {
    InStep(st, p, b) &&
    (ops == [] ||
     (StepValid(st, ops[0]);
      InStepThroughout(Step(st, ops[0]).st, Publish(p, st, ops[0]), b, ops[1..])))
  }

  lemma {:induction false} RunMirrorsIff(st: State, p: Publisher, b: Builder, ops: seq<Op>)
    requires InStep(st, p, b) && Valid(st) && Safe(st) && Quiet(st) && ResumesUncrossed(st, ops)
    ensures InStepThroughout(st, p, b, ops) <==> AuctionsAtLimit(st, ops)
    decreases |ops|
  {
    hide State.ListedAt, StopsInBand, InStep, Step, Publish, ClipsAtLimit;
    if ops != [] {
      StepValid(st, ops[0]);
      CallMirrorsIff(st, p, b, ops[0]);
      if InStep(Step(st, ops[0]).st, Publish(p, st, ops[0]), b) {
        RunMirrorsIff(Step(st, ops[0]).st, Publish(p, st, ops[0]), b, ops[1..]);
      } else {
        NotThroughout(st, p, b, ops);
      }
    }
  }

  lemma NotThroughout(st: State, p: Publisher, b: Builder, ops: seq<Op>)
    requires Valid(st) && ops != [] && Valid(Step(st, ops[0]).st)
    requires !InStep(Step(st, ops[0]).st, Publish(p, st, ops[0]), b)
    ensures !InStepThroughout(st, p, b, ops)
  {
    hide InStep, Step, Publish, Valid;
  }

  lemma {:induction false} ThroughoutEnds(st: State, p: Publisher, b: Builder, ops: seq<Op>)
    requires Valid(st) && InStepThroughout(st, p, b, ops)
    ensures Valid(Run(st, ops)) && InStep(Run(st, ops), PublishRun(p, st, ops), b)
    decreases |ops|
  {
    hide State.ListedAt, StopsInBand, InStep, Step, Publish;
    if ops != [] {
      StepValid(st, ops[0]);
      ThroughoutEnds(Step(st, ops[0]).st, Publish(p, st, ops[0]), b, ops[1..]);
    }
  }
}
