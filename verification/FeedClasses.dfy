/** The publisher and the book builder as objects around the flat-array engine. */
module FeedClasses {
  import opened Types
  import opened Ladders
  import opened Book
  import opened Engine
  import opened Safety
  import opened Feed
  import opened FeedSync
  import opened FeedRuns
  import opened FeedJoin
  import opened FastEngine
  import opened Slabs
  import opened Visitors
  import opened Walks

  /** Displayed quantity of a resting order; 0 when dead or pending. */
  method DisplayedQty(e: MatchingEngine, id: nat) returns (qty: nat)
    requires e.Valid()
    ensures e.Abs().Indexed() && qty == OrderQty(e.Abs(), id)
  {
    hide MatchingEngine.Valid, MatchingEngine.Abs, MatchingEngine.SlotIs, State.Indexed, OrderOf, Slab.Valid;
    e.ValidFacts();
    var x := e.Lookup(id);
    if x == NIL || e.slab.cells[x].stop { return 0; }
    var o, k := e.NodeOf(id, x);
    return o.qty;
  }

  class BookBuilder {
    /** ITCH reference to engine order id. */
    var refmap: map<nat, nat>

    constructor ()
      ensures refmap == map[]
    {
      refmap := map[];
    }

    /** Applies one message to the engine; references it does not know are dropped. */
    method Apply(e: MatchingEngine, m: Message)
      requires e.Idle() && this != e as object && this !in e.Repr()
      modifies this, e, e.Repr()
      ensures e.Idle() && Engine.Valid(old(e.Abs()))
      ensures Builder(e.Abs(), refmap) == Feed.Apply(Builder(old(e.Abs()), old(refmap)), m)
    {
      hide MatchingEngine.Idle, MatchingEngine.Abs, MatchingEngine.Repr, MatchingEngine.Levels, MatchingEngine.Words,
        Engine.Valid, Step, Quiet, Safe;
      assert allocated(e.Repr());
      EngineFacts(e);
      match m {
        case Add(ref, side, qty, price) =>
          var r := e.Apply(SubmitLimit(side, price, qty, GTC, 0, CancelTaker));
          if r.Assigned? && r.id != 0 { refmap := refmap[ref := r.id]; }
        case Execute(ref, qty) => ReduceRef(e, ref, qty);
        case ExecuteAt(ref, qty, _) => ReduceRef(e, ref, qty);
        case Shrink(ref, qty) => ReduceRef(e, ref, qty);
        case Delete(ref) =>
          if ref in refmap {
            var r := e.Apply(Op.Cancel(refmap[ref]));
            refmap := refmap - {ref};
          }
        case Replace(ref, newRef, qty, price) =>
          if ref in refmap {
            var id := refmap[ref];
            var r := e.Apply(Op.Modify(id, price, qty));
            if r == Answer(true) { refmap := (refmap - {ref})[newRef := id]; }
          }
        case CrossPrint(_, _) =>
        case Action(h) => var r := e.Apply(if h then Op.Halt else Op.Resume);
      }
    }

    method ReduceRef(e: MatchingEngine, ref: nat, qty: nat)
      requires e.Idle() && this != e as object && this !in e.Repr()
      modifies this, e, e.Repr()
      ensures e.Idle() && Engine.Valid(old(e.Abs()))
      ensures Builder(e.Abs(), refmap) == ApplyReduce(Builder(old(e.Abs()), old(refmap)), ref, qty)
    {
      hide MatchingEngine.Idle, MatchingEngine.Abs, MatchingEngine.Repr, MatchingEngine.Levels, MatchingEngine.Words,
        Engine.Valid, Step, Quiet, Safe;
      assert allocated(e.Repr());
      EngineFacts(e);
      if ref in refmap {
        var r := e.Apply(Op.Reduce(refmap[ref], qty));
        if r != Answer(true) { refmap := refmap - {ref}; }
      }
    }
  }

  class FeedPublisher {
    const engine: MatchingEngine
    var refs: map<nat, Ref>
    /** Messages not yet taken. */
    var out: seq<Message>
    var nextRef: nat
    /** Sequence number of the next message. */
    var seqNo: nat
    var inCross: bool
    var sawBookEvent: bool
    /** Everything published since the start. */
    ghost var sent: seq<Message>

    ghost function Abs(): Publisher
      reads this
    {
      Publisher(refs, nextRef, sent, inCross)
    }

    /** What is not yet taken is the end of what was published; messages are numbered from 1. */
    ghost predicate Tidy()
      reads this`seqNo, this`sent, this`out
    {
      seqNo == |sent| + 1 && |out| <= |sent| && sent[|sent| - |out|..] == out
    }

    ghost predicate Ready()
      reads this, engine, engine.Repr()
    {
      Tidy() && engine.Idle() && this != engine as object && this !in engine.Repr()
    }

    constructor (minPrice: int, maxPrice: int)
      requires minPrice <= maxPrice
      ensures Ready() && Abs() == NEW_PUBLISHER && fresh(engine) && fresh(engine.Repr())
      ensures engine.Abs() == Fresh(minPrice, maxPrice - minPrice + 1)
    {
      hide MatchingEngine.Idle, MatchingEngine.Abs, Fresh;
      engine := new MatchingEngine(minPrice, maxPrice);
      refs, out, nextRef, seqNo, inCross, sawBookEvent := map[], [], 1, 1, false, false;
      sent := [];
    }

    method Send(m: Message)
      requires Tidy()
      modifies this`out, this`seqNo, this`sent
      ensures Tidy() && Abs() == old(Abs()).Send(m)
    {
      out, seqNo := out + [m], seqNo + 1;
      sent := sent + [m];
    }

    /** Hands over what was published since the last call; takes concatenate to everything published. */
    method TakeMessages() returns (ms: seq<Message>)
      requires Tidy()
      modifies this`out
      ensures Tidy() && Abs() == old(Abs()) && out == []
      ensures |ms| <= |sent| && sent == sent[..|sent| - |ms|] + ms && ms == old(out)
    {
      ms := out;
      out := [];
    }

    /** Takes `qty` off a displayed order; at zero its reference dies. */
    method TakeOff(id: nat, qty: nat)
      requires id in refs
      modifies this`refs
      ensures Abs() == Take(old(Abs()), id, qty)
    {
      var r := refs[id];
      var left := r.displayed - if qty < r.displayed then qty else r.displayed;
      refs := if left == 0 then refs - {id} else refs[id := r.(displayed := left)];
    }

    method ExecCross(id: nat, fill: nat, price: int)
      requires Tidy()
      modifies this`refs, this`out, this`seqNo, this`sent
      ensures Tidy() && Abs() == Feed.ExecCross(old(Abs()), id, fill, price)
    {
      if id !in refs { return; }
      var part := if fill < refs[id].displayed then fill else refs[id].displayed;
      if part == 0 { return; }
      Send(ExecuteAt(refs[id].ref, part, price));
      TakeOff(id, part);
    }

    method OnEvent(e: Event)
      requires Tidy()
      modifies this`refs, this`nextRef, this`out, this`seqNo, this`sent, this`sawBookEvent
      ensures Tidy() && Abs() == Feed.OnEvent(old(Abs()), e)
      ensures sawBookEvent == (old(sawBookEvent) || BookEvent(e))
    {
      hide Take, Feed.ExecCross, FeedPublisher.Tidy;
      match e {
        case Rested(id, side, price, qty) =>
          sawBookEvent := true;
          refs := refs[id := Ref(nextRef, qty)];
          nextRef := nextRef + 1;
          Send(Add(nextRef - 1, side, qty, price));
        case Traded(taker, maker, price, qty, _) =>
          if inCross {
            ExecCross(taker, qty, price);
            ExecCross(maker, qty, price);
          } else if maker in refs {
            Send(Execute(refs[maker].ref, qty));
            TakeOff(maker, qty);
          }
        case Cancelled(id) =>
          sawBookEvent := true;
          if id in refs {
            Send(Delete(refs[id].ref));
            refs := refs - {id};
          }
        case Accepted(_, _, _, _) =>
        case Rejected(_) =>
      }
    }

    /** Hears the engine's events from position `from` of its tape on. */
    method HearFrom(from: nat)
      requires Tidy() && from <= |engine.tape|
      modifies this`refs, this`nextRef, this`out, this`seqNo, this`sent, this`sawBookEvent
      ensures Tidy() && Abs() == OnEvents(old(Abs()), engine.tape[from..])
      ensures sawBookEvent == (old(sawBookEvent) || SawBookEvent(engine.tape[from..]))
    {
      hide FeedPublisher.Tidy, FeedPublisher.Abs, Feed.OnEvent, BookEvent, SawBookEvent;
      ghost var start, saw := Abs(), sawBookEvent;
      NoEvents(start);
      for i := from to |engine.tape|
        invariant Tidy() && Abs() == OnEvents(start, engine.tape[from..i])
        invariant sawBookEvent == (saw || SawBookEvent(engine.tape[from..i]))
      {
        OnEvent(engine.tape[i]);
        EventPush(start, engine.tape[from..i], engine.tape[i]);
        assert engine.tape[from..i + 1] == engine.tape[from..i] + [engine.tape[i]];
      }
      assert engine.tape[from..|engine.tape|] == engine.tape[from..];
    }

    /** After a silent in-place amend: X for a shrink, D when gone, nothing for a reserve-only shave. */
    method PublishShrink(id: nat, before: nat, after: nat)
      requires Tidy()
      modifies this`refs, this`out, this`seqNo, this`sent
      ensures Tidy() && Abs() == Feed.PublishShrink(old(Abs()), id, before, after)
    {
      hide FeedPublisher.Tidy;
      if id !in refs { return; }
      if after == 0 {
        Send(Delete(refs[id].ref));
        refs := refs - {id};
      } else if after < before {
        Send(Shrink(refs[id].ref, before - after));
        refs := refs[id := refs[id].(displayed := after)];
      }
    }

    /** Publishes a message of the publisher's own; the engine does not hear of it. */
    method Announce(m: Message)
      requires Ready()
      modifies this`out, this`seqNo, this`sent
      ensures Ready() && engine.Abs() == old(engine.Abs()) && Abs() == old(Abs()).Send(m)
    {
      hide MatchingEngine.Idle, MatchingEngine.Abs, MatchingEngine.Repr, MatchingEngine.Levels, MatchingEngine.Words,
        FeedPublisher.Tidy;
      EngineFacts(engine);
      assert allocated(engine.Repr());
      Send(m);
    }

    method MarkCross(b: bool)
      requires Ready()
      modifies this`inCross
      ensures Ready() && engine.Abs() == old(engine.Abs()) && Abs() == old(Abs()).(inCross := b)
    {
      hide MatchingEngine.Idle, MatchingEngine.Abs, MatchingEngine.Repr, MatchingEngine.Levels, MatchingEngine.Words,
        FeedPublisher.Tidy;
      EngineFacts(engine);
      assert allocated(engine.Repr());
      inCross := b;
    }

    method ForgetEvents()
      requires Ready()
      modifies this`sawBookEvent
      ensures Ready() && engine.Abs() == old(engine.Abs()) && Abs() == old(Abs()) && !sawBookEvent
    {
      hide MatchingEngine.Idle, MatchingEngine.Abs, MatchingEngine.Repr, MatchingEngine.Levels, MatchingEngine.Words,
        FeedPublisher.Tidy;
      EngineFacts(engine);
      assert allocated(engine.Repr());
      sawBookEvent := false;
    }

    /** The engine call, which leaves the publisher alone. */
    method Pass(op: Op) returns (reply: Reply)
      requires Ready()
      modifies engine, engine.Repr()
      ensures Ready() && Abs() == old(Abs()) && sawBookEvent == old(sawBookEvent) && Engine.Valid(old(engine.Abs()))
      ensures Result(engine.Abs(), reply) == Step(old(engine.Abs()), op)
      ensures engine.tape == engine.Abs().tape && old(engine.tape) == old(engine.Abs()).tape <= engine.tape
    {
      hide MatchingEngine.Idle, MatchingEngine.Abs, MatchingEngine.Repr, MatchingEngine.Levels, MatchingEngine.Words,
        Engine.Valid, Step, Quiet, Safe, FeedPublisher.Tidy;
      assert allocated(engine.Repr());
      EngineFacts(engine);
      StepValid(engine.Abs(), op);
      reply := engine.Apply(op);
      EngineFacts(engine);
    }

    /** The wrapped engine call, its events heard as they were emitted. */
    method Relay(op: Op) returns (reply: Reply)
      requires Ready()
      modifies this`refs, this`nextRef, this`out, this`seqNo, this`sent, this`sawBookEvent, engine, engine.Repr()
      ensures Ready() && Engine.Valid(old(engine.Abs())) && old(engine.Abs()).tape <= engine.Abs().tape
      ensures Result(engine.Abs(), reply) == Step(old(engine.Abs()), op)
      ensures Abs() == OnEvents(old(Abs()), engine.Abs().tape[|old(engine.Abs()).tape|..])
      ensures sawBookEvent == (old(sawBookEvent) || SawBookEvent(engine.Abs().tape[|old(engine.Abs()).tape|..]))
    {
      hide MatchingEngine.Idle, MatchingEngine.Abs, MatchingEngine.Repr, MatchingEngine.Levels, MatchingEngine.Words,
        Engine.Valid, Step, OnEvents, SawBookEvent, FeedPublisher.Tidy, Quiet, Safe;
      assert allocated(engine.Repr());
      EngineFacts(engine);
      var from := |engine.tape|;
      reply := Pass(op);
      HearFrom(from);
    }

    /** Calls whose whole story is in the engine's events. */
    method Forward(op: Op) returns (reply: Reply)
      requires Ready()
      requires !op.Reduce? && !op.Modify? && !op.Halt? && !op.Resume? && !op.UncrossBook?
      modifies this, engine, engine.Repr()
      ensures Ready() && Engine.Valid(old(engine.Abs()))
      ensures Result(engine.Abs(), reply) == Step(old(engine.Abs()), op)
      ensures Abs() == Publish(old(Abs()), old(engine.Abs()), op)
    {
      hide MatchingEngine.Idle, MatchingEngine.Abs, MatchingEngine.Repr, MatchingEngine.Levels, MatchingEngine.Words,
        Engine.Valid, Step, OnEvents, SawBookEvent, FeedPublisher.Tidy, Quiet, Safe;
      assert allocated(engine.Repr());
      reply := Relay(op);
    }

    /** The engine's modify with its events heard, and the displayed quantity before it. */
    method HearModify(id: nat, price: int, qty: nat) returns (ok: bool, before: nat)
      requires Ready()
      modifies this, engine, engine.Repr()
      ensures Ready() && Engine.Valid(old(engine.Abs())) && old(engine.Abs()).tape <= engine.Abs().tape
      ensures Result(engine.Abs(), Answer(ok)) == Step(old(engine.Abs()), Modify(id, price, qty))
      ensures before == OrderQty(old(engine.Abs()), id)
      ensures Abs() == OnEvents(old(Abs()), engine.Abs().tape[|old(engine.Abs()).tape|..])
      ensures sawBookEvent == SawBookEvent(engine.Abs().tape[|old(engine.Abs()).tape|..])
    {
      hide MatchingEngine.Idle, MatchingEngine.Abs, MatchingEngine.Repr, MatchingEngine.Levels, MatchingEngine.Words,
        Engine.Valid, Step, OnEvents, SawBookEvent, FeedPublisher.Tidy, Feed.PublishShrink, OrderQty, Quiet, Safe;
      assert allocated(engine.Repr());
      EngineFacts(engine);
      ModifyAnswers(engine.Abs(), id, price, qty);
      before := DisplayedQty(engine, id);
      ForgetEvents();
      var reply := Relay(Modify(id, price, qty));
      ok := reply == Answer(true);
    }

    /** Diffs the displayed quantity across the call unless book events already told the story. */
    method ModifyOrder(id: nat, price: int, qty: nat) returns (ok: bool)
      requires Ready()
      modifies this, engine, engine.Repr()
      ensures Ready() && Engine.Valid(old(engine.Abs()))
      ensures Result(engine.Abs(), Answer(ok)) == Step(old(engine.Abs()), Modify(id, price, qty))
      ensures Abs() == Publish(old(Abs()), old(engine.Abs()), Modify(id, price, qty))
    {
      hide MatchingEngine.Idle, MatchingEngine.Abs, MatchingEngine.Repr, MatchingEngine.Levels, MatchingEngine.Words,
        Engine.Valid, Step, OnEvents, SawBookEvent, FeedPublisher.Tidy, Feed.PublishShrink, OrderQty, Quiet, Safe;
      assert allocated(engine.Repr());
      var before;
      ok, before := HearModify(id, price, qty);
      if ok && !sawBookEvent && before > 0 { DiffDisplayed(id, before); }
    }

    method ReduceOrder(id: nat, delta: nat) returns (ok: bool)
      requires Ready()
      modifies this, engine, engine.Repr()
      ensures Ready() && Engine.Valid(old(engine.Abs()))
      ensures Result(engine.Abs(), Answer(ok)) == Step(old(engine.Abs()), Reduce(id, delta))
      ensures Abs() == Publish(old(Abs()), old(engine.Abs()), Reduce(id, delta))
    {
      hide MatchingEngine.Idle, MatchingEngine.Abs, MatchingEngine.Repr, MatchingEngine.Levels, MatchingEngine.Words,
        Engine.Valid, Step, OnEvents, SawBookEvent, FeedPublisher.Tidy,
        Feed.PublishShrink, OrderQty, Quiet, Safe;
      assert allocated(engine.Repr());
      EngineFacts(engine);
      ReduceAnswers(engine.Abs(), id, delta);
      var before := DisplayedQty(engine, id);
      var reply := Relay(Reduce(id, delta));
      ok := reply == Answer(true);
      if ok && before > 0 {
        DiffDisplayed(id, before);
      }
    }

    /** The action is published before the engine moves, so fills it causes follow it. */
    method SetPhase(h: bool)
      requires Ready()
      modifies this, engine, engine.Repr()
      ensures Ready() && Engine.Valid(old(engine.Abs()))
      ensures engine.Abs() == Step(old(engine.Abs()), if h then Op.Halt else Op.Resume).st
      ensures Abs() == Publish(old(Abs()), old(engine.Abs()), if h then Op.Halt else Op.Resume)
    {
      hide MatchingEngine.Idle, MatchingEngine.Abs, MatchingEngine.Repr, MatchingEngine.Levels, MatchingEngine.Words,
        Engine.Valid, Step, OnEvents, SawBookEvent, FeedPublisher.Tidy, Quiet, Safe;
      assert allocated(engine.Repr());
      Announce(Action(h));
      var reply := Relay(if h then Op.Halt else Op.Resume);
    }

    /** The engine's uncross, heard in crossing mode. */
    method HearCross() returns (total: nat)
      requires Ready()
      modifies this, engine, engine.Repr()
      ensures Ready() && Engine.Valid(old(engine.Abs())) && old(engine.Abs()).tape <= engine.Abs().tape
      ensures Result(engine.Abs(), Crossed(total)) == Step(old(engine.Abs()), UncrossBook)
      ensures Abs() == OnEvents(old(Abs()).(inCross := true),
        engine.Abs().tape[|old(engine.Abs()).tape|..]).(inCross := false)
    {
      hide MatchingEngine.Idle, MatchingEngine.Abs, MatchingEngine.Repr, MatchingEngine.Levels, MatchingEngine.Words,
        Engine.Valid, Step, OnEvents, SawBookEvent, FeedPublisher.Tidy, Quiet, Safe, Feed.PublishShrink, OrderQty;
      assert allocated(engine.Repr());
      EngineFacts(engine);
      UncrossReplies(engine.Abs());
      MarkCross(true);
      var reply := Relay(UncrossBook);
      MarkCross(false);
      total := reply.qty;
    }

    method UncrossOrders() returns (total: nat)
      requires Ready()
      modifies this, engine, engine.Repr()
      ensures Ready() && Engine.Valid(old(engine.Abs()))
      ensures Result(engine.Abs(), Crossed(total)) == Step(old(engine.Abs()), UncrossBook)
      ensures Abs() == Publish(old(Abs()), old(engine.Abs()), UncrossBook)
    {
      hide MatchingEngine.Idle, MatchingEngine.Abs, MatchingEngine.Repr, MatchingEngine.Levels, MatchingEngine.Words,
        Engine.Valid, Step, OnEvents, SawBookEvent, FeedPublisher.Tidy, Quiet, Safe, Feed.PublishShrink, OrderQty;
      assert allocated(engine.Repr());
      total := HearCross();
      CloseCross(total);
    }

    /** Any publisher call. */
    method Call(op: Op) returns (reply: Reply)
      requires Ready()
      modifies this, engine, engine.Repr()
      ensures Ready() && Engine.Valid(old(engine.Abs()))
      ensures Result(engine.Abs(), reply) == Step(old(engine.Abs()), op)
      ensures Abs() == Publish(old(Abs()), old(engine.Abs()), op)
    {
      hide MatchingEngine.Idle, MatchingEngine.Abs, MatchingEngine.Repr, MatchingEngine.Levels, MatchingEngine.Words,
        Engine.Valid, Step, Publish, FeedPublisher.Tidy, FeedPublisher.Abs, Quiet, Safe;
      assert allocated(engine.Repr());
      EngineFacts(engine);
      match op {
        case Modify(id, price, qty) => var ok := ModifyOrder(id, price, qty); reply := Answer(ok);
        case Reduce(id, delta) => var ok := ReduceOrder(id, delta); reply := Answer(ok);
        case Halt => PhaseReplies(engine.Abs(), true); SetPhase(true); reply := Silent;
        case Resume => PhaseReplies(engine.Abs(), false); SetPhase(false); reply := Silent;
        case UncrossBook => var total := UncrossOrders(); reply := Crossed(total);
        case _ => reply := Forward(op);
      }
    }

    /** One aggregate cross trade closes an uncross that executed something. */
    method CloseCross(total: nat)
      requires Ready()
      modifies this`out, this`seqNo, this`sent
      ensures Ready() && engine.Abs() == old(engine.Abs())
      ensures Abs() == if total > 0 && engine.Abs().last.Some?
        then old(Abs()).Send(CrossPrint(total, engine.Abs().last.value)) else old(Abs())
    {
      hide MatchingEngine.Valid, MatchingEngine.Abs, MatchingEngine.Repr, MatchingEngine.Levels, MatchingEngine.Words,
        FeedPublisher.Tidy;
      assert allocated(engine.Repr());
      EngineFacts(engine);
      engine.ValidFacts();
      if total > 0 && engine.hasLast { Send(CrossPrint(total, engine.lastPx)); }
    }

    /** Publishes how the displayed quantity of an order has changed from `before`. */
    method DiffDisplayed(id: nat, before: nat)
      requires Ready()
      modifies this`refs, this`out, this`seqNo, this`sent
      ensures Ready() && engine.Abs() == old(engine.Abs()) && engine.Abs().Indexed()
      ensures Abs() == Feed.PublishShrink(old(Abs()), id, before, OrderQty(engine.Abs(), id))
    {
      hide MatchingEngine.Idle, MatchingEngine.Abs, MatchingEngine.Repr, MatchingEngine.Levels, MatchingEngine.Words,
        Feed.PublishShrink, OrderQty, FeedPublisher.Tidy, Quiet, Safe;
      assert allocated(engine.Repr());
      EngineFacts(engine);
      var after := DisplayedQty(engine, id);
      PublishShrink(id, before, after);
    }

    /** The displayed book as out-of-band Adds, and the live sequence number to splice in at. */
    method TakeSnapshot() returns (ms: seq<Message>, next: nat)
      requires Ready()
      ensures engine.Abs().Shaped() && ms == Snapshot(engine.Abs(), refs) && next == |sent| + 1
    {
      hide MatchingEngine.Valid, MatchingEngine.Abs, Walk, AddsOf;
      engine.ValidFacts();
      assert allocated(engine.Repr());
      var bids := VisitOrders(engine, Buy);
      var asks := VisitOrders(engine, Sell);
      BidsWalk(engine.Abs(), refs, engine.n);
      AsksWalk(engine.Abs(), refs, 0);
      WalkIs(engine.Abs());
      ms := (if engine.halted then [Action(true)] else [])
        + AddsOf(refs, Buy, engine.min, bids) + AddsOf(refs, Sell, engine.min, asks);
      next := seqNo;
    }
  }

  /** Adds for the orders of a walk. */
  function AddsOf(refs: map<nat, Ref>, s: Side, min: int, spots: seq<Spot>): seq<Message> {
    if spots == [] then []
    else [AddOf(refs, s, min + spots[0].tick, spots[0].order)] + AddsOf(refs, s, min, spots[1..])
  }

  lemma {:induction false} AddsAppend(refs: map<nat, Ref>, s: Side, min: int, a: seq<Spot>, b: seq<Spot>)
    ensures AddsOf(refs, s, min, a + b) == AddsOf(refs, s, min, a) + AddsOf(refs, s, min, b)
  {
    if a == [] {
      assert a + b == b;
    } else {
      assert (a + b)[1..] == a[1..] + b;
      AddsAppend(refs, s, min, a[1..], b);
    }
  }

  lemma {:induction false} QueueAdds(refs: map<nat, Ref>, s: Side, min: int, i: nat, q: Queue)
    ensures AddsOf(refs, s, min, Spots(q, i)) == AddQueue(refs, s, min + i, q)
  {
    if q != [] {
      assert Spots(q, i)[1..] == Spots(q[1..], i);
      QueueAdds(refs, s, min, i, q[1..]);
    }
  }

  lemma NoAdds(refs: map<nat, Ref>, s: Side, min: int)
    ensures AddsOf(refs, s, min, []) == []
  {}

  lemma {:induction false} BidsWalk(st: State, refs: map<nat, Ref>, n: nat)
    requires n <= |st.Get(Resting(Buy))|
    ensures AddBids(st, refs, n) == AddsOf(refs, Buy, st.min, Downward(st.Get(Resting(Buy)), n))
  {
    hide AddsOf, AddQueue;
    if n == 0 {
      NoAdds(refs, Buy, st.min);
    } else {
      var l := st.Get(Resting(Buy));
      BidsWalk(st, refs, n - 1);
      QueueAdds(refs, Buy, st.min, n - 1, l[n - 1]);
      AddsAppend(refs, Buy, st.min, Spots(l[n - 1], n - 1), Downward(l, n - 1));
      assert Downward(l, n) == Spots(l[n - 1], n - 1) + Downward(l, n - 1);
    }
  }

  lemma {:induction false} AsksWalk(st: State, refs: map<nat, Ref>, n: nat)
    requires n <= |st.Get(Resting(Sell))|
    ensures AddAsks(st, refs, n) == AddsOf(refs, Sell, st.min, Upward(st.Get(Resting(Sell)), n))
    decreases |st.Get(Resting(Sell))| - n
  {
    hide AddsOf, AddQueue;
    var l := st.Get(Resting(Sell));
    if n < |l| {
      AsksWalk(st, refs, n + 1);
      QueueAdds(refs, Sell, st.min, n, l[n]);
      AddsAppend(refs, Sell, st.min, Spots(l[n], n), Upward(l, n + 1));
      assert Upward(l, n) == Spots(l[n], n) + Upward(l, n + 1);
    } else {
      NoAdds(refs, Sell, st.min);
    }
  }

  lemma WalkIs(st: State)
    ensures Walk(Buy, st.Get(Resting(Buy))) == Downward(st.Get(Resting(Buy)), |st.Get(Resting(Buy))|)
    ensures Walk(Sell, st.Get(Resting(Sell))) == Upward(st.Get(Resting(Sell)), 0)
  {}

  lemma ModifyAnswers(st: State, id: nat, price: int, qty: nat)
    requires Engine.Valid(st)
    ensures Step(st, Modify(id, price, qty)).reply.Answer?
  {
    hide Pump, Remove, PlaceLimit, Engine.Valid, StopsInBand, State.ListedAt;
    DoValid(st, Modify(id, price, qty));
  }

  lemma ReduceAnswers(st: State, id: nat, delta: nat)
    requires Engine.Valid(st)
    ensures Step(st, Reduce(id, delta)).reply.Answer?
  {
    hide Pump, Remove;
    DoValid(st, Reduce(id, delta));
  }

  lemma PhaseReplies(st: State, h: bool)
    requires Engine.Valid(st)
    ensures Step(st, if h then Op.Halt else Op.Resume).reply == Silent
  {
    hide Pump;
  }

  lemma UncrossReplies(st: State)
    requires Engine.Valid(st)
    ensures Step(st, UncrossBook).reply.Crossed?
  {
    hide Pump;
    DoValid(st, UncrossBook);
  }

  lemma NoEvents(p: Publisher)
    ensures OnEvents(p, []) == p && !SawBookEvent([])
  {}

  lemma EventPush(p: Publisher, es: seq<Event>, e: Event)
    ensures OnEvents(p, es + [e]) == Feed.OnEvent(OnEvents(p, es), e)
    ensures SawBookEvent(es + [e]) == (SawBookEvent(es) || BookEvent(e))
  {
    OnEventsAppend(p, es, [e]);
    OneEvent(OnEvents(p, es), e);
    if SawBookEvent(es) {
      var x :| x in es && BookEvent(x);
      assert x in es + [e];
    }
    assert e in es + [e];
  }

  // ---- the round trip, driven -----------------------------------------

  /** Applies every message in order. */
  method ApplyAll(builder: BookBuilder, e: MatchingEngine, ms: seq<Message>)
    requires e.Idle() && builder != e as object && builder !in e.Repr()
    modifies builder, e, e.Repr()
    ensures e.Idle() && Engine.Valid(old(e.Abs()))
    ensures Builder(e.Abs(), builder.refmap) == Replay(Builder(old(e.Abs()), old(builder.refmap)), ms)
  {
    hide MatchingEngine.Idle, MatchingEngine.Abs, MatchingEngine.Repr, MatchingEngine.Levels, MatchingEngine.Words,
        Engine.Valid, Feed.Apply, Replay, Quiet, Safe;
    assert allocated(e.Repr());
    EngineFacts(e);
    ghost var b := Builder(e.Abs(), builder.refmap);
    ReplayNone(b);
    for i := 0 to |ms|
      invariant e.Idle() && Builder(e.Abs(), builder.refmap) == Replay(b, ms[..i])
    {
      ReplayAppend(b, ms[..i], [ms[i]]);
      ReplayOne(Replay(b, ms[..i]), ms[i]);
      assert ms[..i + 1] == ms[..i] + [ms[i]];
      builder.Apply(e, ms[i]);
    }
    assert ms[..|ms|] == ms;
  }
}
