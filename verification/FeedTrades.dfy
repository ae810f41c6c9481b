/** The trades a consumer of the feed sees are the trades the engine made. */
module FeedTrades {
  import opened Types
  import opened Ladders
  import opened Book
  import opened SweepLaws
  import opened Auction
  import opened Engine
  import opened Safety
  import opened Feed
  import opened FeedSync
  import opened FeedShadow
  import opened FeedCross
  import opened FeedRuns
  import opened FeedServe
  import opened AuctionCall

  // ---- continuous trading ---------------------------------------------

  /** An execution as the feed prints it. */
  datatype Print = Print(ref: nat, qty: nat)

  /** The executions among the messages. */
  function Prints(out: seq<Message>): seq<Print> {
    if out == [] then []
    else
      var m := out[|out| - 1];
      Prints(out[..|out| - 1]) + if m.Execute? then [Print(m.ref, m.qty)] else []
  }

  /** Every trade, under the reference its maker then has. */
  function Owed(p: Publisher, es: seq<Event>): seq<Print>
    requires MakersNamed(p, es)
    decreases |es|
  {
    if es == [] then []
    else (if es[0].Traded? then [Print(p.refs[es[0].maker].ref, es[0].qty)] else []) + Owed(OnEvent(p, es[0]), es[1..])
  }

  lemma PrintsPush(out: seq<Message>, m: Message)
    ensures Prints(out + [m]) == Prints(out) + if m.Execute? then [Print(m.ref, m.qty)] else []
  {
    assert (out + [m])[..|out|] == out;
  }

  lemma EventPrints(p: Publisher, e: Event)
    requires !p.inCross && (e.Traded? ==> e.maker in p.refs)
    ensures Prints(OnEvent(p, e).out) ==
      Prints(p.out) + if e.Traded? then [Print(p.refs[e.maker].ref, e.qty)] else []
    ensures !OnEvent(p, e).inCross
  {
    hide Prints;
    match e {
      case Rested(id, side, price, qty) => PrintsPush(p.out, Add(p.nextRef, side, qty, price));
      case Traded(_, maker, _, qty, _) => PrintsPush(p.out, Execute(p.refs[maker].ref, qty));
      case Cancelled(id) => if id in p.refs { PrintsPush(p.out, Delete(p.refs[id].ref)); }
      case _ =>
    }
  }

  lemma {:induction false} EventsPrint(p: Publisher, es: seq<Event>)
    requires !p.inCross && MakersNamed(p, es)
    ensures Prints(OnEvents(p, es).out) == Prints(p.out) + Owed(p, es)
    decreases |es|
  {
    hide Prints, OnEvent;
    if es != [] {
      EventPrints(p, es[0]);
      EventsPrint(OnEvent(p, es[0]), es[1..]);
    }
  }

  /** What has been sent does not matter to what is owed. */
  lemma {:induction false} OwedAnyway(p: Publisher, q: Publisher, es: seq<Event>)
    requires q.refs == p.refs && q.nextRef == p.nextRef && !p.inCross && !q.inCross
    ensures MakersNamed(p, es) == MakersNamed(q, es)
    ensures MakersNamed(p, es) ==> Owed(p, es) == Owed(q, es)
    decreases |es|
  {
    hide OnEvent;
    if es != [] {
      EventAnyway(p, q, es[0]);
      OwedAnyway(OnEvent(p, es[0]), OnEvent(q, es[0]), es[1..]);
    }
  }

  lemma EventAnyway(p: Publisher, q: Publisher, e: Event)
    requires q.refs == p.refs && q.nextRef == p.nextRef && !p.inCross && !q.inCross
    ensures var a, b := OnEvent(p, e), OnEvent(q, e);
      b.refs == a.refs && b.nextRef == a.nextRef && !a.inCross && !b.inCross
  {}

  // ---- whole calls ----------------------------------------------------

  lemma PlainNames(st: State, p: Publisher, op: Op)
    requires Told(st, p) && Valid(st) && !p.inCross
    requires !op.Reduce? && !op.Modify? && !op.Halt? && !op.Resume? && !op.UncrossBook?
    ensures st.tape <= Step(st, op).st.tape && MakersNamed(p, News(st, Step(st, op).st))
  {
    hide State.ListedAt, StopsInBand, Told, Do, Pump;
    DoTells(st, p, op);
    DoValid(st, op);
    PumpedTells(st, Do(st, op).st, p);
  }

  lemma ModifyNames(st: State, p: Publisher, id: nat, price: int, qty: nat)
    requires Told(st, p) && Valid(st) && Quiet(st) && !p.inCross
    ensures var t := Step(st, Modify(id, price, qty)).st; st.tape <= t.tape && MakersNamed(p, News(st, t))
  {
    hide State.ListedAt, State.Bounded, StopsInBand, Told, CancelReplace, Remove, Pump;
    StepValid(st, Modify(id, price, qty));
    PumpNothing(st, st);
    var d := Do(st, Modify(id, price, qty)).st;
    if id in st.live && qty == 0 {
      LeaveTells(st, p, id);
      CancelValid(st, id);
      PumpedTells(st, d, p);
    } else if id in st.live && !st.live[id].shelf.stop && st.InBand(price) {
      var o := OrderOf(st, id);
      if st.Tick(price) == st.live[id].tick && qty <= Size(o) {
        ReduceSilent(st, id, Size(o) - qty);
        SilentNames(st, Step(st, Modify(id, price, qty)).st, p);
      } else {
        ModifyValid(st, id, price, qty);
        ReplaceTells(st, p, id, price, qty);
        PumpedTells(st, d, p);
      }
    } else {
      SilentNames(st, st, p);
    }
  }

  lemma ReduceNames(st: State, p: Publisher, id: nat, delta: nat)
    requires Valid(st) && Quiet(st)
    ensures var t := Step(st, Reduce(id, delta)).st; st.tape <= t.tape && MakersNamed(p, News(st, t))
  {
    hide State.ListedAt, StopsInBand, DoReduce, Pump;
    ReduceSilent(st, id, delta);
    SilentNames(st, Step(st, Reduce(id, delta)).st, p);
  }

  lemma SilentNames(st: State, t: State, p: Publisher)
    requires t.tape == st.tape
    ensures MakersNamed(p, News(st, t))
  {
    assert News(st, t) == [];
  }

  lemma PhaseNames(st: State, p: Publisher, h: bool)
    requires Told(st, p) && Valid(st) && !p.inCross
    ensures var t := Step(st, if h then Op.Halt else Op.Resume).st;
      st.tape <= t.tape && MakersNamed(p, News(st, t))
  {
    hide State.ListedAt, StopsInBand, Told, Pump;
    var t := st.(halted := h);
    HaltValid(st, h);
    ToldSame(st, t, p);
    PumpTells(t, p);
    PumpSettles(t);
  }

  /** Whatever the call, an uncross apart, the publisher can name the maker of each trade. */
  lemma CallNames(st: State, p: Publisher, op: Op)
    requires Servable(st, p) && Valid(st) && Quiet(st) && !op.UncrossBook?
    ensures st.tape <= Step(st, op).st.tape && MakersNamed(p, News(st, Step(st, op).st))
  {
    hide State.ListedAt, StopsInBand, Told, Step, Quiet;
    match op {
      case Reduce(id, delta) =>
        ReduceNames(st, p, id, delta);
      case Modify(id, price, qty) => ModifyNames(st, p, id, price, qty);
      case Halt => PhaseNames(st, p, true);
      case Resume => PhaseNames(st, p, false);
      case _ => PlainNames(st, p, op);
    }
  }

  lemma ShrinkPrints(p: Publisher, id: nat, before: nat, after: nat)
    ensures Prints(PublishShrink(p, id, before, after).out) == Prints(p.out)
  {
    hide Prints;
    if id in p.refs {
      PrintsPush(p.out, Delete(p.refs[id].ref));
      PrintsPush(p.out, Shrink(p.refs[id].ref, before - Min(before, after)));
    }
  }

  /** The executions one call publishes are its trades, one for one, in order, each for its
      quantity under its maker's reference. Reductions and cancellations print none. */
  lemma CallPrints(st: State, p: Publisher, op: Op)
    requires Servable(st, p) && Valid(st) && Quiet(st) && !op.UncrossBook?
    ensures st.tape <= Step(st, op).st.tape && MakersNamed(p, News(st, Step(st, op).st))
    ensures Prints(Publish(p, st, op).out) == Prints(p.out) + Owed(p, News(st, Step(st, op).st))
  {
    hide State.ListedAt, StopsInBand, Told, Step, Quiet, Prints, PublishShrink, SawBookEvent, OrderQty;
    CallNames(st, p, op);
    StepValid(st, op);
    var t := Step(st, op).st;
    var news := News(st, t);
    EventsPrint(p, news);
    match op {
      case Reduce(id, _) => ShrinkPrints(OnEvents(p, news), id, OrderQty(st, id), OrderQty(t, id));
      case Modify(id, _, _) => ShrinkPrints(OnEvents(p, news), id, OrderQty(st, id), OrderQty(t, id));
      case Halt => ActionPrints(p, true, news);
      case Resume => ActionPrints(p, false, news);
      case _ =>
    }
  }

  lemma ActionPrints(p: Publisher, h: bool, news: seq<Event>)
    requires !p.inCross && MakersNamed(p, news)
    ensures Prints(OnEvents(p.Send(Action(h)), news).out) == Prints(p.out) + Owed(p, news)
  {
    hide Prints;
    OwedAnyway(p, p.Send(Action(h)), news);
    EventsPrint(p.Send(Action(h)), news);
    PrintsPush(p.out, Action(h));
  }

  // ---- volume ---------------------------------------------------------

  function Volume(ps: seq<Print>): nat { if ps == [] then 0 else Volume(ps[..|ps| - 1]) + ps[|ps| - 1].qty }

  lemma {:induction false} VolumeAppend(a: seq<Print>, b: seq<Print>)
    ensures Volume(a + b) == Volume(a) + Volume(b)
  {
    if b == [] {
      assert a + b == a;
    } else {
      assert (a + b)[..|a + b| - 1] == a + b[..|b| - 1];
      VolumeAppend(a, b[..|b| - 1]);
    }
  }

  lemma {:induction false} OwedVolume(p: Publisher, tape: seq<Event>, es: seq<Event>)
    requires MakersNamed(p, es)
    ensures TradedQty(tape + es) == TradedQty(tape) + Volume(Owed(p, es))
    decreases |es|
  {
    if es == [] {
      assert tape + es == tape;
    } else {
      var first := if es[0].Traded? then [Print(p.refs[es[0].maker].ref, es[0].qty)] else [];
      assert tape + es == (tape + [es[0]]) + es[1..];
      TradedQtyPush(tape, es[0]);
      OwedVolume(OnEvent(p, es[0]), tape + [es[0]], es[1..]);
      VolumeAppend(first, Owed(OnEvent(p, es[0]), es[1..]));
      assert first != [] ==> first[..0] == [];
    }
  }

  lemma CallVolume(st: State, p: Publisher, op: Op)
    requires Servable(st, p) && Valid(st) && Quiet(st) && !op.UncrossBook?
    ensures Volume(Prints(Publish(p, st, op).out)) - Volume(Prints(p.out)) ==
      TradedQty(Step(st, op).st.tape) - TradedQty(st.tape)
  {
    hide State.ListedAt, StopsInBand, Told, Step, Quiet, Prints, Owed, Publish, TradedQty, Volume;
    CallPrints(st, p, op);
    var news := News(st, Step(st, op).st);
    OwedVolume(p, st.tape, news);
    VolumeAppend(Prints(p.out), Owed(p, news));
    assert Step(st, op).st.tape == st.tape + news;
  }

  /** Over every run without an auction, the volume the feed has printed is the volume the
      engine has traded. */
  lemma {:induction false} RunVolume(st: State, p: Publisher, ops: seq<Op>)
    requires Servable(st, p) && Valid(st) && Quiet(st) && forall op :: op in ops ==> !op.UncrossBook?
    ensures Valid(Run(st, ops))
    ensures Volume(Prints(PublishRun(p, st, ops).out)) - Volume(Prints(p.out)) ==
      TradedQty(Run(st, ops).tape) - TradedQty(st.tape)
    decreases |ops|
  {
    hide State.ListedAt, StopsInBand, Told, Step, Publish, Quiet, Prints, TradedQty, Volume;
    if ops != [] {
      StepValid(st, ops[0]);
      CallVolume(st, p, ops[0]);
      CallTold(st, p, ops[0]);
      CallMode(st, p, ops[0]);
      RunVolume(Step(st, ops[0]).st, Publish(p, st, ops[0]), ops[1..]);
    }
  }

  // ---- the auction ----------------------------------------------------

  /** A clip shown or an execution printed at `price`. */
  predicate AtPrice(m: Message, price: int) { (m.Add? || (m.ExecuteAt? && m.qty > 0)) && m.price == price }

  /** From `p` to `q` nothing was sent but at `price`. */
  ghost predicate SendsAt(p: Publisher, q: Publisher, price: int) {
    p.out <= q.out && q.inCross && forall i :: |p.out| <= i < |q.out| ==> AtPrice(q.out[i], price)
  }

  lemma ExecSendsAt(p: Publisher, id: nat, fill: nat, price: int)
    requires p.inCross
    ensures SendsAt(p, ExecCross(p, id, fill, price), price)
  {}

  lemma SendsAtTrans(p: Publisher, q: Publisher, r: Publisher, price: int)
    requires SendsAt(p, q, price) && SendsAt(q, r, price)
    ensures SendsAt(p, r, price)
  {
    forall i | |p.out| <= i < |r.out| ensures AtPrice(r.out[i], price) {
      if i < |q.out| { assert r.out[i] == q.out[i]; }
    }
  }

  lemma {:induction false} EventsSendAt(p: Publisher, es: seq<Event>, price: int)
    requires p.inCross && forall e :: e in es ==> (e.Traded? || e.Rested?) && e.price == price
    ensures SendsAt(p, OnEvents(p, es), price)
    decreases |es|
  {
    hide ExecCross, SendsAt;
    if es == [] {
      SendsNothing(p, price);
    } else {
      var e, q := es[0], OnEvent(p, es[0]);
      EventSendsAt(p, e, price);
      SentInCross(p, q, price);
      EventsSendAt(q, es[1..], price);
      SendsAtTrans(p, q, OnEvents(p, es), price);
    }
  }

  lemma SendsNothing(p: Publisher, price: int)
    requires p.inCross
    ensures SendsAt(p, p, price)
  {}

  lemma SentInCross(p: Publisher, q: Publisher, price: int)
    requires SendsAt(p, q, price)
    ensures q.inCross
  {}

  lemma EventSendsAt(p: Publisher, e: Event, price: int)
    requires p.inCross && (e.Traded? || e.Rested?) && e.price == price
    ensures SendsAt(p, OnEvent(p, e), price)
  {
    hide ExecCross;
    if e.Traded? {
      var q := ExecCross(p, e.taker, e.qty, price);
      ExecSendsAt(p, e.taker, e.qty, price);
      ExecSendsAt(q, e.maker, e.qty, price);
      SendsAtTrans(p, q, ExecCross(q, e.maker, e.qty, price), price);
    }
  }

  /** An uncross during a halt that trades nothing publishes nothing. One that trades prints
      every execution and shows every fresh clip at the price it cleared at, and closes with
      one cross print of the quantity it returns, at that price. */
  lemma AuctionPrints(st: State, p: Publisher)
    requires Valid(st) && st.halted
    ensures var r, q := Step(st, UncrossBook), Publish(p, st, UncrossBook);
      && r.reply.Crossed?
      && (r.reply.qty == 0 ==> q.out == p.out)
      && (r.reply.qty > 0 ==>
        && r.st.last.Some? && p.out < q.out && q.out[|q.out| - 1] == CrossPrint(r.reply.qty, r.st.last.value)
        && forall i :: |p.out| <= i < |q.out| - 1 ==> AtPrice(q.out[i], r.st.last.value))
  {
    hide State.ListedAt, StopsInBand, Step, Uncross, AtPrice, OnEvents;
    StepValid(st, UncrossBook);
    HaltedUncross(st);
    var r, p' := Step(st, UncrossBook), p.(inCross := true);
    var news := News(st, r.st);
    if r.reply.qty > 0 {
      AuctionNews(st, r.st.last.value);
      EventsSendAt(p', news, r.st.last.value);
    } else {
      assert news == [];
      HeardSelf(st, p');
    }
  }

  lemma HaltedUncross(st: State)
    requires Valid(st) && st.halted
    ensures var r := Step(st, UncrossBook);
      && r == Result(Uncross(st).st, Crossed(Uncross(st).crossed))
      && (r.reply.qty == 0 ==> r.st == st) && (r.reply.qty > 0 ==> r.st.last.Some?)
  {
    hide State.ListedAt, StopsInBand, CrossLoop, Best, TradedQty, Total, Span;
    UncrossOutcome(st, 0);
    UncrossUncrosses(st);
    UncrossValid(st);
  }

  lemma AuctionNews(st: State, price: int)
    requires st.Indexed() && st.tape <= Uncross(st).st.tape && Uncross(st).st.last == Some(price) &&
      Uncross(st).crossed > 0
    ensures forall e :: e in News(st, Uncross(st).st) ==> (e.Traded? || e.Rested?) && e.price == price
  {
    hide State.ListedAt, CrossLoop, Best, TradedQty;
    var t := Uncross(st).st;
    CrossLoopLast(st, ClearingTick(st), 0);
    UncrossExecutesMaximum(st, 0);
    ClearingIsOptimal(st, 0);
    forall e | e in News(st, t) ensures (e.Traded? || e.Rested?) && e.price == price {
      var i :| 0 <= i < |News(st, t)| && News(st, t)[i] == e;
      UncrossPrints(st, |st.tape| + i);
    }
  }

  // ---- amends, cancels and phases -------------------------------------

  /** A cancelled order is told by a delete of its reference; one that was not displayed, or
      no order at all, by nothing. */
  lemma CancelIsTold(st: State, p: Publisher, id: nat)
    requires Servable(st, p) && Valid(st) && Quiet(st)
    ensures Publish(p, st, Cancel(id)).out == p.out + if id in p.refs then [Delete(p.refs[id].ref)] else []
  {
    hide State.ListedAt, StopsInBand, Quiet, Pump, Remove, Told;
    ToldIndexed(st, p);
    StepValid(st, Cancel(id));
    if id in st.live {
      CancelArmsNothing(st, id);
      RemoveValid(st, id);
      HeardOne(st, Step(st, Cancel(id)).st, p, Cancelled(id));
    } else {
      PumpNothing(st, st);
      HeardSelf(st, p);
    }
  }

  /** A reduction of a displayed order by all it has is told by a delete; one that reaches its
      displayed clip by a shrink of what the clip lost; one the hidden reserve absorbs, and
      one refused, by nothing. */
  lemma ReduceIsTold(st: State, p: Publisher, id: nat, delta: nat)
    requires Servable(st, p) && Valid(st) && Quiet(st)
    ensures id in p.refs <==> Displayed(st, id)
    ensures Publish(p, st, Reduce(id, delta)).out == p.out +
      if id !in p.refs then []
      else
        var o := OrderOf(st, id);
        if delta >= o.qty + o.reserve then [Delete(p.refs[id].ref)]
        else if delta > o.reserve then [Shrink(p.refs[id].ref, delta - o.reserve)]
        else []
  {
    hide State.ListedAt, StopsInBand, Quiet, DoReduce, Pump, Told;
    ToldIndexed(st, p);
    StepValid(st, Reduce(id, delta));
    ReduceSilent(st, id, delta);
    var t := DoReduce(st, id, delta).st;
    HeardSelf(st, p);
    if Displayed(st, id) {
      ToldOf(st, p, id);
      ReducedQty(st, id, delta);
    }
  }

  lemma ReducedQty(st: State, id: nat, delta: nat)
    requires Valid(st) && Displayed(st, id)
    ensures var o, t := OrderOf(st, id), DoReduce(st, id, delta).st;
      && t.Indexed() && OrderQty(st, id) == o.qty
      && OrderQty(t, id) ==
        if delta >= o.qty + o.reserve then 0 else if delta > o.reserve then o.qty - (delta - o.reserve) else o.qty
  {
    hide State.ListedAt, StopsInBand;
    ReduceValid(st, id, delta);
    var o, at, k := OrderOf(st, id), st.live[id], Seat(st, id);
    if delta < Size(o) { AmendOthers(st, id, Shave(o, delta)); } else { RemoveValid(st, id); }
  }

  /** A halt or a resume is told before anything it sets off. */
  lemma PhaseIsToldFirst(st: State, p: Publisher, h: bool)
    requires Valid(st)
    ensures p.out + [Action(h)] <= Publish(p, st, if h then Op.Halt else Op.Resume).out
  {
    hide State.ListedAt, StopsInBand, Step, OnEvents;
    var op := if h then Op.Halt else Op.Resume;
    StepValid(st, op);
    OnlySends(p.Send(Action(h)), News(st, Step(st, op).st));
  }

  lemma {:induction false} OnlySends(p: Publisher, es: seq<Event>)
    ensures p.out <= OnEvents(p, es).out
    decreases |es|
  {
    hide OnEvent;
    if es != [] {
      OneSends(p, es[0]);
      OnlySends(OnEvent(p, es[0]), es[1..]);
    }
  }

  lemma OneSends(p: Publisher, e: Event)
    ensures p.out <= OnEvent(p, e).out
  {}
}
