/** What the publisher knows of the displayed orders, through every call and every run,
    whatever the consumers of its messages rebuilt. */
module FeedServe {
  import opened Types
  import opened Ladders
  import opened Book
  import opened Matching
  import opened Auction
  import opened Engine
  import opened Safety
  import opened Feed
  import opened FeedSync
  import opened FeedShadow
  import opened FeedCross
  import opened FeedRuns

  // ---- what the publisher has been told -------------------------------

  /** No two displayed orders share a reference. */
  ghost predicate OwnRefs(p: Publisher) {
    RefsBelow(p) && forall i, j :: i in p.refs && j in p.refs && p.refs[i].ref == p.refs[j].ref ==> i == j
  }

  /** References name exactly the displayed orders, each its own, with the displayed quantities. */
  ghost predicate Told(st: State, p: Publisher) {
    && st.Indexed() && OwnRefs(p)
    && (forall id :: id in p.refs <==> Displayed(st, id))
    && (forall id :: id in p.refs ==> p.refs[id].displayed == OrderOf(st, id).qty)
  }

  /** Nothing displayed has changed. */
  lemma ToldSame(a: State, t: State, p: Publisher)
    requires Told(a, p) && t.Indexed() && t.width == a.width
    requires t.Get(Resting(Buy)) == a.Get(Resting(Buy)) && t.Get(Resting(Sell)) == a.Get(Resting(Sell))
    ensures Told(t, p)
  {
    hide State.ListedAt;
    forall id ensures Displayed(t, id) <==> Displayed(a, id)
      ensures Displayed(a, id) ==> OrderOf(t, id) == OrderOf(a, id)
    {
      if Displayed(a, id) { StandsStill(a, t, id); }
      if Displayed(t, id) { StandsStill(t, a, id); }
    }
  }

  lemma StandsStill(a: State, t: State, id: nat)
    requires t.Indexed() && t.width == a.width && Displayed(a, id)
    requires t.Get(Resting(Buy)) == a.Get(Resting(Buy)) && t.Get(Resting(Sell)) == a.Get(Resting(Sell))
    ensures Displayed(t, id) && OrderOf(t, id) == OrderOf(a, id)
  {
    hide State.ListedAt;
    var at := a.live[id];
    ShelfCases(at.shelf);
    assert OrderOf(a, id) in Home(a, id);
    InQueue(t, at, OrderOf(a, id));
  }

  /** What was published is beside the point. */
  lemma ToldAnyway(st: State, p: Publisher, q: Publisher)
    requires Told(st, p) && q.refs == p.refs && q.nextRef == p.nextRef
    ensures Told(st, q)
  {}

  /** A displayed order loses `f` of its clip. */
  lemma ToldHit(st: State, p: Publisher, id: nat, f: nat)
    requires Told(st, p) && Displayed(st, id) && f > 0
    ensures id in p.refs && Told(Hit(st, id, f), Take(p, id, f))
  {
    hide State.ListedAt, OrderOf, Seat, Hit;
    HitOthers(st, id, f);
  }

  lemma ToldExecCross(st: State, p: Publisher, id: nat, f: nat, price: int)
    requires Told(st, p) && Displayed(st, id) && f > 0
    ensures Told(Hit(st, id, f), ExecCross(p, id, f, price))
  {
    hide State.ListedAt, OrderOf, Seat, Hit, Told;
    assert id in p.refs && p.refs[id].displayed > 0 by { ToldOf(st, p, id); }
    ToldHit(st, p, id, f);
    ToldAnyway(Hit(st, id, f), Take(p, id, f), ExecCross(p, id, f, price));
  }

  lemma ToldOf(st: State, p: Publisher, id: nat)
    requires Told(st, p) && Displayed(st, id)
    ensures id in p.refs && p.refs[id].displayed == OrderOf(st, id).qty > 0
  {}

  lemma ToldJoin(st: State, p: Publisher, s: Side, i: nat, o: Order, price: int)
    requires Told(st, p) && i < st.width && 0 < o.id < st.nextId && o.id !in st.live
    ensures Told(Join(st, Resting(s), i, o), OnRest(p, o.id, s, price, o.qty))
  {
    hide State.ListedAt, OrderOf, Seat;
    JoinOthers(st, s, i, o);
  }

  /** The next clip of an order, announced anywhere. */
  lemma ToldClip(st: State, p: Publisher, o: Order, f: nat, s: Side, i: nat, price: int)
    requires Told(st, p) && i < st.width
    requires Reshown(o, f).Some? ==> 0 < o.id < st.nextId && o.id !in st.live
    ensures Told(Show(st, s, i, Reshown(o, f)), OnEvents(p, ClipNews(o, f, s, price)))
  {
    hide State.ListedAt, Told;
    if Reshown(o, f).Some? {
      ToldJoin(st, p, s, i, Reshown(o, f).value, price);
      OneEvent(p, Rested(o.id, s, price, Reshown(o, f).value.qty));
    }
  }

  // ---- from one state to the next -------------------------------------

  /** At every trade the publisher still has a reference for the maker. */
  predicate MakersNamed(p: Publisher, es: seq<Event>)
    decreases |es|
  {
    es == [] || ((es[0].Traded? ==> es[0].maker in p.refs) && MakersNamed(OnEvent(p, es[0]), es[1..]))
  }

  lemma {:induction false} MakersAppend(p: Publisher, a: seq<Event>, b: seq<Event>)
    ensures MakersNamed(p, a + b) <==> MakersNamed(p, a) && MakersNamed(OnEvents(p, a), b)
    decreases |a|
  {
    if a == [] {
      assert a + b == b;
    } else {
      assert (a + b)[1..] == a[1..] + b;
      MakersAppend(OnEvent(p, a[0]), a[1..], b);
    }
  }

  /** Where nothing trades there is no maker to name. */
  lemma {:induction false} NoMakers(p: Publisher, es: seq<Event>)
    requires forall e :: e in es ==> !e.Traded?
    ensures MakersNamed(p, es)
    decreases |es|
  {
    if es != [] { NoMakers(OnEvent(p, es[0]), es[1..]); }
  }

  /** From `a` to `t` the publisher, starting at `p`, is told everything, and outside an
      auction it can name every maker. */
  ghost predicate Tells(a: State, t: State, p: Publisher) {
    && a.tape <= t.tape && t.width == a.width && Told(t, Heard(a, t, p))
    && (!p.inCross ==> MakersNamed(p, t.tape[|a.tape|..]))
  }

  lemma TellsTrans(a: State, m: State, t: State, p: Publisher)
    requires Tells(a, m, p) && Tells(m, t, Heard(a, m, p))
    ensures Tells(a, t, p)
  {
    hide Told;
    HeardTrans(a, m, t, p);
    HeardMode(a, m, p);
    assert t.tape[|a.tape|..] == m.tape[|a.tape|..] + t.tape[|m.tape|..];
    MakersAppend(p, m.tape[|a.tape|..], t.tape[|m.tape|..]);
  }

  lemma TellsSelf(st: State, p: Publisher)
    requires Told(st, p)
    ensures Tells(st, st, p) && st.Indexed()
  {
    hide Told;
    HeardSelf(st, p);
    ToldIndexed(st, p);
  }

  lemma ToldIndexed(st: State, p: Publisher)
    requires Told(st, p)
    ensures st.Indexed() && forall id :: id in p.refs <==> Displayed(st, id)
  {}

  /** Nothing displayed changed and nothing was heard about a displayed order. */
  lemma TellsQuietly(a: State, t: State, p: Publisher, news: seq<Event>)
    requires Told(a, p) && t.Indexed() && t.width == a.width && t.tape == a.tape + news && |news| <= 1
    requires forall e :: e in news ==> Hidden(p, e)
    requires t.Get(Resting(Buy)) == a.Get(Resting(Buy)) && t.Get(Resting(Sell)) == a.Get(Resting(Sell))
    ensures Tells(a, t, p)
  {
    hide State.ListedAt, Told;
    ToldSame(a, t, p);
    NoMakers(p, news);
    assert t.tape[|a.tape|..] == news;
    if |news| == 1 {
      assert news == [news[0]] && news[0] in news;
      HeardOne(a, t, p, news[0]);
    } else {
      assert t.tape[|a.tape|..] == [];
    }
  }

  /** The head of tick `i` loses `f`, its next clip shown if that spends it. */
  lemma ToldFill(st: State, p: Publisher, s: Side, i: nat, f: nat, price: int)
    requires Told(st, p) && i < st.width && st.Get(Resting(s))[i] != [] && 0 < f <= Size(st.Get(Resting(s))[i][0])
    ensures var o, t := st.Get(Resting(s))[i][0], CrossFill(st, s, i, f, price);
      && t.tape == st.tape + ClipNews(o, f, s, price) && t.width == st.width
      && o.id in p.refs && Told(t, OnEvents(Take(p, o.id, f), ClipNews(o, f, s, price)))
  {
    hide State.ListedAt, State.Bounded, Told, Hit, Reshown, ClipNews, OrderOf, Seat, Take, CrossFill;
    ToldIndexed(st, p);
    CrossFillMoves(st, s, i, f, price);
    var o, t := st.Get(Resting(s))[i][0], CrossFill(st, s, i, f, price);
    HeadIsLive(st, s, i);
    HitOthers(st, o.id, f);
    ToldHit(st, p, o.id, f);
    ToldClip(Hit(st, o.id, f), Take(p, o.id, f), o, f, s, i, price);
    ToldSame(Show(Hit(st, o.id, f), s, i, Reshown(o, f)), t, OnEvents(Take(p, o.id, f), ClipNews(o, f, s, price)));
  }

  lemma HeadIsLive(st: State, s: Side, i: nat)
    requires st.Indexed() && i < st.width && st.Get(Resting(s))[i] != []
    ensures var o := st.Get(Resting(s))[i][0]; Displayed(st, o.id) && 0 < o.id < st.nextId && OrderOf(st, o.id) == o
  {
    hide State.ListedAt;
    Locate(st, Resting(s), i, 0);
  }

  lemma FillTells(st: State, p: Publisher, k: Taker, i: nat, f: nat)
    requires Told(st, p) && k.id !in st.live
    requires i < st.width && st.Get(k.Shelf())[i] != [] && 0 < f <= st.Get(k.Shelf())[i][0].qty
    ensures Tells(st, Fill(st, k, i, f), p)
  {
    hide State.ListedAt, State.Bounded, Told, Take, CrossFill, Fill, ClipNews, OnTrade;
    ToldIndexed(st, p);
    var o, s, price := st.Get(k.Shelf())[i][0], k.Against(), st.min + i;
    var trade := Traded(k.id, o.id, price, f, k.side);
    var s0, t := st.Print(price, trade), Fill(st, k, i, f);
    TellFrame(st, Some(price), [trade], k.Shelf());
    ToldSame(st, s0, p);
    FillIsCrossFill(st, k, i, f);
    ToldFill(s0, p, s, i, f, price);
    var q := OnEvents(Take(p, o.id, f), ClipNews(o, f, s, price));
    assert t.tape[|st.tape|..] == [trade] + ClipNews(o, f, s, price);
    OnEventsAppend(p, [trade], ClipNews(o, f, s, price));
    OneEvent(p, trade);
    HeadIsLive(st, s, i);
    ToldOf(st, p, o.id);
    TradeRefs(p, k.id, o.id, price, f);
    ClipNewsRefs(Take(p, o.id, f), OnTrade(p, k.id, o.id, price, f), o, f, s, price);
    ToldAnyway(t, q, Heard(st, t, p));
    FillMakers(p, trade, o, f, s, price);
  }

  lemma FillMakers(p: Publisher, trade: Event, o: Order, f: nat, s: Side, price: int)
    requires trade.Traded? && trade.maker in p.refs
    ensures MakersNamed(p, [trade] + ClipNews(o, f, s, price))
  {
    var clips := ClipNews(o, f, s, price);
    assert ([trade] + clips)[1..] == clips;
    NoMakers(OnEvent(p, trade), clips);
  }

  /** A print takes its quantity off the maker, in an auction or not; the taker is not displayed. */
  lemma TradeRefs(p: Publisher, taker: nat, maker: nat, price: int, f: nat)
    requires taker !in p.refs && maker in p.refs && 0 < f <= p.refs[maker].displayed
    ensures var q, r := Take(p, maker, f), OnTrade(p, taker, maker, price, f);
      r.refs == q.refs && r.nextRef == q.nextRef
  {}

  /** What a publisher knows after a clip does not depend on what it has sent. */
  lemma ClipNewsRefs(p: Publisher, q: Publisher, o: Order, f: nat, s: Side, price: int)
    requires q.refs == p.refs && q.nextRef == p.nextRef
    ensures var a, b := OnEvents(p, ClipNews(o, f, s, price)), OnEvents(q, ClipNews(o, f, s, price));
      b.refs == a.refs && b.nextRef == a.nextRef
  {
    if Reshown(o, f).Some? {
      OneEvent(p, Rested(o.id, s, price, Reshown(o, f).value.qty));
      OneEvent(q, Rested(o.id, s, price, Reshown(o, f).value.qty));
    }
  }

  /** A live order leaves, and its cancellation is heard whether it was displayed or not. */
  lemma LeaveTells(st: State, p: Publisher, id: nat)
    requires Told(st, p) && id in st.live
    ensures Tells(st, Remove(st, id).Emit(Cancelled(id)), p)
  {
    hide State.ListedAt, Told, Hit, OrderOf, Seat;
    ToldIndexed(st, p);
    var at, r, t := st.live[id], Remove(st, id), Remove(st, id).Emit(Cancelled(id));
    LeaveIndexed(st, at.shelf, at.tick, Seat(st, id));
    TellSteady(r, [Cancelled(id)]);
    if at.shelf.stop {
      TellsQuietly(st, t, p, [Cancelled(id)]);
    } else {
      var qty := OrderOf(st, id).qty;
      ToldHit(st, p, id, qty);
      assert Hit(st, id, qty) == r by { HitAll(st, id); }
      ToldSame(r, t, Take(p, id, qty));
      ToldOf(st, p, id);
      ToldAnyway(t, Take(p, id, qty), OnCancel(p, id));
      HeardOne(st, t, p, Cancelled(id));
      NoMakers(p, [Cancelled(id)]);
    }
  }

  lemma HitAll(st: State, id: nat)
    requires Displayed(st, id)
    ensures Hit(st, id, OrderOf(st, id).qty) == Remove(st, id)
  {}

  lemma CancelHeadTells(st: State, p: Publisher, s: Side, i: nat)
    requires Told(st, p) && i < st.width && st.Get(Resting(s))[i] != []
    ensures Tells(st, CancelHead(st, s, i), p)
  {
    hide State.ListedAt, Told, Tells;
    ToldIndexed(st, p);
    Locate(st, Resting(s), i, 0);
    LeaveTells(st, p, st.Get(Resting(s))[i][0].id);
  }

  lemma TurnTells(st: State, p: Publisher, k: Taker, qty: nat)
    requires Told(st, p) && k.id !in st.live
    ensures Tells(st, TakeTurn(st, k, qty).st, p)
  {
    hide State.ListedAt, Told, Tells, Fill, CancelHead;
    ToldIndexed(st, p);
    TellsSelf(st, p);
    var i := Best(k.Against(), st.Get(k.Shelf()));
    if qty > 0 && i >= 0 && k.Reaches(i) {
      var o := st.Get(k.Shelf())[i][0];
      if k.Own(o) { CancelHeadTells(st, p, k.Against(), i); } else { FillTells(st, p, k, i, Min(qty, o.qty)); }
    }
  }

  lemma TellsEnds(a: State, t: State, p: Publisher)
    requires Tells(a, t, p)
    ensures a.tape <= t.tape && Told(t, Heard(a, t, p)) && t.Indexed() && t.width == a.width
  {}

  lemma {:induction false} MatchTells(st: State, p: Publisher, k: Taker, qty: nat)
    requires Told(st, p) && k.id !in st.live
    ensures Tells(st, Match(st, k, qty).st, p)
    decreases qty, Count(st.Get(k.Shelf()))
  {
    hide State.ListedAt, State.Bounded, Told, Tells, Heard, TakeTurn;
    ToldIndexed(st, p);
    TurnFrame(st, k, qty);
    TurnTells(st, p, k, qty);
    var r := TakeTurn(st, k, qty);
    if r.Go? {
      TellsEnds(st, r.st, p);
      MatchTells(r.st, Heard(st, r.st, p), k, r.left);
      TellsTrans(st, r.st, Match(st, k, qty).st, p);
    }
  }

  lemma RestTells(st: State, p: Publisher, id: nat, side: Side, tick: nat, qty: nat, t: Terms)
    requires Told(st, p) && tick < st.width && qty > 0 && 0 < id < st.nextId && id !in st.live
    ensures Tells(st, Rest(st, id, side, tick, qty, t), p)
  {
    hide State.ListedAt, Told, OnRest;
    ToldIndexed(st, p);
    var o := Shape(id, qty, t);
    var j, r := Join(st, Resting(side), tick, o), Rest(st, id, side, tick, qty, t);
    RestSteady(st, id, side, tick, qty, t);
    ToldJoin(st, p, side, tick, o, st.min + tick);
    ToldSame(j, r, OnRest(p, id, side, st.min + tick, o.qty));
    HeardOne(st, r, p, Rested(id, side, st.min + tick, o.qty));
    NoMakers(p, r.tape[|st.tape|..]);
  }

  /** The cancel of an order that never rested. */
  lemma KillTells(st: State, p: Publisher, id: nat)
    requires Told(st, p) && id !in st.live
    ensures Tells(st, st.Emit(Cancelled(id)), p)
  {
    hide State.ListedAt, Told, Tells;
    ToldIndexed(st, p);
    TellSteady(st, [Cancelled(id)]);
    TellsQuietly(st, st.Emit(Cancelled(id)), p, [Cancelled(id)]);
  }

  lemma PlaceTells(st: State, p: Publisher, id: nat, side: Side, tick: nat, qty: nat, tif: TimeInForce, t: Terms)
    requires Told(st, p) && tick < st.width && qty > 0 && 0 < id < st.nextId && id !in st.live
    ensures Tells(st, PlaceLimit(st, id, side, tick, qty, tif, t), p)
  {
    hide State.ListedAt, Told, Tells, Heard, Match, Rest;
    ToldIndexed(st, p);
    if st.halted {
      RestTells(st, p, id, side, tick, qty, t);
    } else {
      var m := Match(st, AsTaker(id, side, tick, t), qty);
      MatchSteady(st, AsTaker(id, side, tick, t), qty);
      MatchTells(st, p, AsTaker(id, side, tick, t), qty);
      TellsEnds(st, m.st, p);
      var q := Heard(st, m.st, p);
      if m.left == 0 {
      } else if m.halt || tif.IOC? || tif.FOK? {
        KillTells(m.st, q, id);
        TellsTrans(st, m.st, m.st.Emit(Cancelled(id)), p);
      } else {
        RestTells(m.st, q, id, side, tick, m.left, t);
        TellsTrans(st, m.st, Rest(m.st, id, side, tick, m.left, t), p);
      }
    }
  }

  // ---- stops ----------------------------------------------------------

  lemma ExecuteTells(st: State, p: Publisher, side: Side, o: Node)
    requires Told(st, p) && st.Shaped() && o.qty > 0 && (o.market || st.InBand(o.limit))
    requires 0 < o.id < st.nextId && o.id !in st.live
    ensures Tells(st, ExecuteStop(st, side, o), p)
  {
    hide State.ListedAt, Told, Tells, Match, PlaceLimit;
    var t := Terms(o.owner, o.stp, 0);
    if o.market {
      MatchTells(st, p, Sweeping(st, o.id, side, t), o.qty);
    } else {
      PlaceTells(st, p, o.id, side, st.Tick(o.limit), o.qty, GTC, t);
    }
  }

  lemma FireTells(st: State, p: Publisher, at: Place)
    requires Told(st, p) && Valid(st) && at.shelf.stop && at.tick < st.width && st.Get(at.shelf)[at.tick] != []
    ensures var o := st.Get(at.shelf)[at.tick][0]; o.market || st.InBand(o.limit)
    ensures Tells(st, FireStop(st, at), p)
  {
    hide State.ListedAt, Told, Tells, Heard, ExecuteStop;
    FireStopFrame(st, at);
    var l := Leave(st, at.shelf, at.tick, 0);
    LeaveIndexed(st, at.shelf, at.tick, 0);
    TellsQuietly(st, l, p, []);
    TellsEnds(st, l, p);
    ExecuteTells(l, Heard(st, l, p), at.shelf.side, st.Get(at.shelf)[at.tick][0]);
    TellsTrans(st, l, FireStop(st, at), p);
  }

  lemma {:induction false} PumpTells(st: State, p: Publisher)
    requires Told(st, p) && Valid(st)
    ensures Tells(st, Pump(st), p)
    decreases PendingStops(st)
  {
    hide State.ListedAt, Told, Tells, Heard, FireStop, StopsInBand;
    TellsSelf(st, p);
    if !st.halted && NextStop(st).Some? {
      FireStopFrame(st, NextStop(st).value);
      var t := FireStop(st, NextStop(st).value);
      FireTells(st, p, NextStop(st).value);
      TellsEnds(st, t, p);
      PumpTells(t, Heard(st, t, p));
      TellsTrans(st, t, Pump(st), p);
    }
  }

  // ---- the operations -------------------------------------------------

  lemma AcceptTells(st: State, p: Publisher, side: Side, price: int, qty: nat)
    requires Told(st, p) && Valid(st)
    ensures Tells(st, Accept(st, side, price, qty), p)
  {
    hide State.ListedAt, Told, Tells, StopsInBand;
    AcceptSteady(st, side, price, qty);
    TellsQuietly(st, Accept(st, side, price, qty), p, [Accepted(st.nextId, side, price, qty)]);
  }

  lemma RejectTells(st: State, p: Publisher)
    requires Told(st, p)
    ensures Tells(st, st.Emit(Rejected(0)), p)
  {
    hide State.ListedAt, Told, Tells;
    ToldIndexed(st, p);
    TellSteady(st, [Rejected(0)]);
    TellsQuietly(st, st.Emit(Rejected(0)), p, [Rejected(0)]);
  }

  lemma EnterTells(st: State, p: Publisher, side: Side, price: int, qty: nat, tif: TimeInForce, t: Terms)
    requires Told(st, p) && Valid(st) && st.InBand(price) && qty > 0
    ensures Tells(st, Enter(st, side, price, qty, tif, t).st, p)
  {
    hide State.ListedAt, Told, Tells, Heard, PlaceLimit, StopsInBand, WouldCross;
    var a, id := Accept(st, side, price, qty), st.nextId;
    AcceptTells(st, p, side, price, qty);
    AcceptSteady(st, side, price, qty);
    TellsEnds(st, a, p);
    KillTells(a, Heard(st, a, p), id);
    TellsTrans(st, a, a.Emit(Cancelled(id)), p);
    PlaceTells(a, Heard(st, a, p), id, side, a.Tick(price), qty, tif, t);
    TellsTrans(st, a, PlaceLimit(a, id, side, a.Tick(price), qty, tif, t), p);
  }

  lemma MarketTells(st: State, p: Publisher, side: Side, qty: nat, owner: nat, stp: StpPolicy)
    requires Told(st, p) && Valid(st)
    ensures Tells(st, DoSubmitMarket(st, side, qty, owner, stp).st, p)
  {
    hide State.ListedAt, Told, Tells, Heard, Match, StopsInBand;
    if st.halted {
      RejectTells(st, p);
    } else {
      var a := Accept(st, side, 0, qty);
      var k := Sweeping(a, st.nextId, side, Terms(owner, stp, 0));
      AcceptTells(st, p, side, 0, qty);
      TellsEnds(st, a, p);
      MatchTells(a, Heard(st, a, p), k, qty);
      TellsTrans(st, a, Match(a, k, qty).st, p);
    }
  }

  lemma StopTells(st: State, p: Publisher, side: Side, trigger: int, limit: int, qty: nat, market: bool,
                  owner: nat, stp: StpPolicy)
    requires Told(st, p) && Valid(st)
    ensures Tells(st, DoSubmitStop(st, side, trigger, limit, qty, market, owner, stp).st, p)
  {
    hide State.ListedAt, Told, Tells, Heard, ExecuteStop, StopsInBand;
    RejectTells(st, p);
    if st.InBand(trigger) && qty > 0 && (market || st.InBand(limit)) {
      var a := Accept(st, side, trigger, qty);
      var o := Node(st.nextId, qty, owner, stp, 0, 0, market, if market then 0 else limit);
      AcceptTells(st, p, side, trigger, qty);
      AcceptSteady(st, side, trigger, qty);
      TellsEnds(st, a, p);
      if !a.halted && Armed(a, side, trigger) {
        ExecuteTells(a, Heard(st, a, p), side, o);
        TellsTrans(st, a, ExecuteStop(a, side, o), p);
      } else {
        var j := Join(a, Pending(side), a.Tick(trigger), o);
        JoinIndexed(a, Pending(side), a.Tick(trigger), o);
        TellsQuietly(a, j, Heard(st, a, p), []);
        TellsTrans(st, a, j, p);
      }
    }
  }

  lemma ReplaceTells(st: State, p: Publisher, id: nat, price: int, qty: nat)
    requires Told(st, p) && Valid(st) && id in st.live && st.InBand(price) && qty > 0
    ensures Tells(st, CancelReplace(st, id, price, qty), p)
    ensures st.tape + [Cancelled(id)] <= CancelReplace(st, id, price, qty).tape
  {
    hide State.ListedAt, Told, Tells, Heard, PlaceLimit, StopsInBand, Remove;
    var o, side := OrderOf(st, id), st.live[id].shelf.side;
    var c, a := Remove(st, id).Emit(Cancelled(id)), Reentered(st, id, price, qty);
    RemoveValid(st, id);
    LeaveTells(st, p, id);
    TellsEnds(st, c, p);
    TellSteady(c, [Accepted(id, side, price, qty)]);
    TellsQuietly(c, a, Heard(st, c, p), [Accepted(id, side, price, qty)]);
    TellsTrans(st, c, a, p);
    TellsEnds(st, a, p);
    var t := PlaceLimit(a, id, side, st.Tick(price), qty, GTC, Terms(o.owner, o.stp, o.peak));
    PlaceTells(a, Heard(st, a, p), id, side, st.Tick(price), qty, GTC, Terms(o.owner, o.stp, o.peak));
    TellsTrans(st, a, t, p);
    PlaceSteady(a, id, side, st.Tick(price), qty, GTC, Terms(o.owner, o.stp, o.peak));
  }

  lemma DoTells(st: State, p: Publisher, op: Op)
    requires Told(st, p) && Valid(st)
    requires !op.Reduce? && !op.Modify? && !op.Halt? && !op.Resume? && !op.UncrossBook?
    ensures Tells(st, Do(st, op).st, p)
  {
    hide State.ListedAt, StopsInBand, Told, Tells, Heard, Enter, DoSubmitStop, DoSubmitMarket, Remove;
    RejectTells(st, p);
    TellsSelf(st, p);
    match op {
      case SubmitLimit(side, price, qty, tif, owner, stp) =>
        if st.InBand(price) && qty > 0 { EnterTells(st, p, side, price, qty, tif, Terms(owner, stp, 0)); }
      case SubmitMarket(side, qty, owner, stp) => MarketTells(st, p, side, qty, owner, stp);
      case SubmitIceberg(side, price, qty, display, tif, owner, stp) =>
        if st.InBand(price) && qty > 0 { EnterTells(st, p, side, price, qty, tif, Terms(owner, stp, display)); }
      case SubmitStop(side, trigger, qty, owner, stp) => StopTells(st, p, side, trigger, 0, qty, true, owner, stp);
      case SubmitStopLimit(side, trigger, limit, qty, owner, stp) =>
        StopTells(st, p, side, trigger, limit, qty, false, owner, stp);
      case Cancel(id) => if id in st.live { LeaveTells(st, p, id); }
    }
  }

  /** The engine call without its pump is followed by the pump. */
  lemma PumpedTells(st: State, t: State, p: Publisher)
    requires Tells(st, t, p) && Valid(t)
    ensures Tells(st, Pump(t), p)
  {
    hide StopsInBand, Told, Tells, Heard, Pump;
    TellsEnds(st, t, p);
    PumpTells(t, Heard(st, t, p));
    TellsTrans(st, t, Pump(t), p);
  }

  // ---- silent amends --------------------------------------------------

  lemma ToldAmend(st: State, p: Publisher, id: nat, o': Order)
    requires Told(st, p) && Displayed(st, id) && o'.id == id && o'.qty <= OrderOf(st, id).qty
    ensures var t := Amend(st, st.live[id].shelf, st.live[id].tick, Seat(st, id), o');
      && t.Indexed() && OrderQty(t, id) == o'.qty
      && Told(t, PublishShrink(p, id, OrderOf(st, id).qty, o'.qty))
  {
    hide State.ListedAt, OrderOf, Seat;
    AmendOthers(st, id, o');
  }

  lemma ToldReduce(st: State, p: Publisher, id: nat, delta: nat)
    requires Told(st, p) && Valid(st) && Displayed(st, id)
    ensures var t := DoReduce(st, id, delta).st;
      t.Indexed() && OrderQty(st, id) > 0 && Told(t, PublishShrink(p, id, OrderQty(st, id), OrderQty(t, id)))
  {
    hide State.ListedAt, StopsInBand, Told, OrderOf, Seat, Hit;
    var o := OrderOf(st, id);
    if delta >= Size(o) {
      RemoveValid(st, id);
      HitAll(st, id);
      ToldHit(st, p, id, o.qty);
      ToldOf(st, p, id);
      ToldAnyway(Remove(st, id), Take(p, id, o.qty), PublishShrink(p, id, o.qty, 0));
    } else {
      ToldAmend(st, p, id, Shave(o, delta));
    }
  }

  // ---- the call auction -----------------------------------------------

  lemma ToldPrint(st: State, p: Publisher, bid: Order, i: nat, ask: Order, j: nat, f: nat, price: int)
    requires Told(st, p) && i < st.width && j < st.width && f > 0
    requires Displayed(st, bid.id) && Displayed(st, ask.id) && bid.id != ask.id
    requires OrderOf(st, bid.id) == bid && OrderOf(st, ask.id) == ask
    ensures Told(Moves(st, bid, i, ask, j, f), HeardPrint(p, bid, ask, f, price))
  {
    hide State.ListedAt, Told, Hit, Reshown, ClipNews, ExecCross, OrderOf, Seat;
    HitOthers(st, bid.id, f);
    ToldExecCross(st, p, bid.id, f, price);
    var x, q := Hit(st, bid.id, f), ExecCross(p, bid.id, f, price);
    HitOthers(x, ask.id, f);
    ToldExecCross(x, q, ask.id, f, price);
    var y, r := Hit(x, ask.id, f), ExecCross(q, ask.id, f, price);
    IdBounded(st, bid.id);
    IdBounded(st, ask.id);
    ToldClip(y, r, bid, f, Buy, i, price);
    ToldClip(Show(y, Buy, i, Reshown(bid, f)), OnEvents(r, ClipNews(bid, f, Buy, price)), ask, f, Sell, j, price);
  }

  lemma CrossStepTold(st: State, p: nat, pub: Publisher)
    requires Told(st, pub) && pub.inCross && Overlaps(st)
    ensures st.tape <= CrossStep(st, p).tape && Told(CrossStep(st, p), Heard(st, CrossStep(st, p), pub))
    ensures Heard(st, CrossStep(st, p), pub).inCross
  {
    hide State.ListedAt, State.Bounded, Told, CrossStep, Moves, HeardPrint, OrderOf, Seat, Best;
    ToldIndexed(st, pub);
    var b, a, f := st.BestTick(Buy), st.BestTick(Sell), CrossQty(st);
    HeadsDiffer(st, b, a);
    CrossStepMoves(st, p);
    HeardCrossStep(st, p, pub);
    HeardMode(st, CrossStep(st, p), pub);
    ToldPrint(st, pub, Bids(st)[b][0], b, Asks(st)[a][0], a, f, st.min + p);
    ToldSame(Moves(st, Bids(st)[b][0], b, Asks(st)[a][0], a, f), CrossStep(st, p), Heard(st, CrossStep(st, p), pub));
  }

  lemma {:induction false} CrossLoopTold(st: State, p: nat, crossed: nat, pub: Publisher)
    requires Told(st, pub) && pub.inCross
    ensures var t := CrossLoop(st, p, crossed).st; st.tape <= t.tape && Told(t, Heard(st, t, pub))
    decreases Count(Bids(st)) + Count(Asks(st))
  {
    hide State.ListedAt, State.Bounded, Told, CrossStep, Heard;
    ToldIndexed(st, pub);
    if Crossable(st, p) {
      CrossStepShape(st, p);
      CrossStepTold(st, p, pub);
      var s := CrossStep(st, p);
      CrossLoopTold(s, p, crossed + CrossQty(st), Heard(st, s, pub));
      HeardTrans(st, s, CrossLoop(st, p, crossed).st, pub);
    } else {
      HeardSelf(st, pub);
    }
  }

  lemma UncrossTells(st: State, p: Publisher)
    requires Told(st, p) && p.inCross
    ensures st.Indexed() && Tells(st, Uncross(st).st, p)
  {
    hide State.ListedAt, State.Bounded, Told, CrossLoop, Heard;
    ToldIndexed(st, p);
    CrossKeepsTape(st);
    if Overlaps(st) { CrossLoopTold(st, ClearingTick(st), 0, p); } else { HeardSelf(st, p); }
  }

  // ---- calls and runs -------------------------------------------------

  lemma PlainTold(st: State, p: Publisher, op: Op)
    requires Told(st, p) && Valid(st)
    requires !op.Reduce? && !op.Modify? && !op.Halt? && !op.Resume? && !op.UncrossBook?
    ensures Told(Step(st, op).st, Publish(p, st, op))
  {
    hide State.ListedAt, StopsInBand, Told, Do, Pump;
    DoTells(st, p, op);
    DoValid(st, op);
    PumpedTells(st, Do(st, op).st, p);
    StepValid(st, op);
  }

  lemma ReduceTold(st: State, p: Publisher, id: nat, delta: nat)
    requires Told(st, p) && Valid(st) && Quiet(st)
    ensures Told(Step(st, Reduce(id, delta)).st, Publish(p, st, Reduce(id, delta)))
  {
    hide State.ListedAt, StopsInBand, Told, DoReduce, Pump, PublishShrink, OrderQty;
    StepValid(st, Reduce(id, delta));
    ReduceSilent(st, id, delta);
    assert st.tape[|st.tape|..] == [];
    if Displayed(st, id) { ToldReduce(st, p, id, delta); }
  }

  lemma CancelModifyTold(st: State, p: Publisher, id: nat, price: int)
    requires Told(st, p) && Valid(st) && id in st.live
    ensures Told(Step(st, Modify(id, price, 0)).st, Publish(p, st, Modify(id, price, 0)))
  {
    hide State.ListedAt, StopsInBand, Told, Remove, Pump, PublishShrink, OrderQty, SawBookEvent;
    var t := Remove(st, id).Emit(Cancelled(id));
    StepValid(st, Modify(id, price, 0));
    RemoveValid(st, id);
    CancelValid(st, id);
    LeaveTells(st, p, id);
    PumpedTells(st, t, p);
    PumpSettles(t);
    CancelIsSeen(st, Pump(t), id);
  }

  lemma ReplaceTold(st: State, p: Publisher, id: nat, price: int, qty: nat)
    requires Told(st, p) && Valid(st) && Displayed(st, id)
    requires st.InBand(price) && qty > 0 && !(st.Tick(price) == st.live[id].tick && qty <= Size(OrderOf(st, id)))
    ensures Told(Step(st, Modify(id, price, qty)).st, Publish(p, st, Modify(id, price, qty)))
  {
    hide State.ListedAt, StopsInBand, Told, CancelReplace, Pump, PublishShrink, OrderQty, SawBookEvent;
    var c := CancelReplace(st, id, price, qty);
    StepValid(st, Modify(id, price, qty));
    ModifyValid(st, id, price, qty);
    ReplaceTells(st, p, id, price, qty);
    PumpedTells(st, c, p);
    PumpSettles(c);
    CancelIsSeen(st, Pump(c), id);
  }

  /** An amend in place, and a modify the engine refuses: the tape is silent. */
  lemma SilentModifyTold(st: State, p: Publisher, id: nat, price: int, qty: nat)
    requires Told(st, p) && Valid(st) && Quiet(st) && (id in st.live ==> qty != 0)
    requires Displayed(st, id) && st.InBand(price) ==>
      st.Tick(price) == st.live[id].tick && qty <= Size(OrderOf(st, id))
    ensures Told(Step(st, Modify(id, price, qty)).st, Publish(p, st, Modify(id, price, qty)))
  {
    hide State.ListedAt, StopsInBand, Told, Remove, CancelReplace, DoReduce, Pump, PublishShrink, OrderQty;
    StepValid(st, Modify(id, price, qty));
    assert st.tape[|st.tape|..] == [];
    PumpNothing(st, st);
    if Displayed(st, id) && st.InBand(price) {
      ReduceSilent(st, id, Size(OrderOf(st, id)) - qty);
      ToldReduce(st, p, id, Size(OrderOf(st, id)) - qty);
    }
  }

  lemma ModifyTold(st: State, p: Publisher, id: nat, price: int, qty: nat)
    requires Told(st, p) && Valid(st) && Quiet(st)
    ensures Told(Step(st, Modify(id, price, qty)).st, Publish(p, st, Modify(id, price, qty)))
  {
    hide State.ListedAt, State.Bounded, StopsInBand, Told, Step, Publish;
    if id in st.live && qty == 0 {
      CancelModifyTold(st, p, id, price);
    } else if Displayed(st, id) && st.InBand(price)
      && !(st.Tick(price) == st.live[id].tick && qty <= Size(OrderOf(st, id)))
    {
      ReplaceTold(st, p, id, price, qty);
    } else {
      SilentModifyTold(st, p, id, price, qty);
    }
  }

  lemma PhaseTold(st: State, p: Publisher, h: bool)
    requires Told(st, p) && Valid(st)
    ensures var op := if h then Op.Halt else Op.Resume; Told(Step(st, op).st, Publish(p, st, op))
  {
    hide State.ListedAt, StopsInBand, Told, Pump;
    var op := if h then Op.Halt else Op.Resume;
    StepValid(st, op);
    HaltValid(st, h);
    var t, q := st.(halted := h), p.Send(Action(h));
    ToldSame(st, t, p);
    ToldAnyway(t, p, q);
    PumpTells(t, q);
  }

  /** An uncross, also of a crossed continuous book, with the stops it fires heard in crossing mode. */
  lemma UncrossTold(st: State, p: Publisher)
    requires Told(st, p) && Valid(st)
    ensures Told(Step(st, UncrossBook).st, Publish(p, st, UncrossBook))
  {
    hide State.ListedAt, StopsInBand, Told, Uncross, Pump, OnEvents;
    StepValid(st, UncrossBook);
    UncrossValid(st);
    var q, u := p.(inCross := true), Uncross(st).st;
    ToldAnyway(st, p, q);
    UncrossTells(st, q);
    PumpedTells(st, u, q);
    ToldAnyway(Pump(u), Heard(st, Pump(u), q), Publish(p, st, UncrossBook));
  }

  /** Every call, whatever the book, keeps the publisher told. */
  lemma CallTold(st: State, p: Publisher, op: Op)
    requires Told(st, p) && Valid(st) && Quiet(st)
    ensures Told(Step(st, op).st, Publish(p, st, op))
  {
    hide State.ListedAt, StopsInBand, Told, Step, Publish;
    match op {
      case Reduce(id, delta) => ReduceTold(st, p, id, delta);
      case Modify(id, price, qty) => ModifyTold(st, p, id, price, qty);
      case Halt => PhaseTold(st, p, true);
      case Resume => PhaseTold(st, p, false);
      case UncrossBook => UncrossTold(st, p);
      case _ => PlainTold(st, p, op);
    }
  }

  lemma CallMode(st: State, p: Publisher, op: Op)
    requires Valid(st) && !p.inCross
    ensures !Publish(p, st, op).inCross
  {
    hide State.ListedAt, StopsInBand, Step, OrderQty, SawBookEvent, OnEvents;
    StepValid(st, op);
    var news := Step(st, op).st.tape[|st.tape|..];
    ModeKept(p, news);
    ModeKept(p.Send(Action(true)), news);
    ModeKept(p.Send(Action(false)), news);
  }

  /** The publisher knows the displayed book, and no call is under way. */
  ghost predicate Servable(st: State, p: Publisher) { Told(st, p) && !p.inCross }

  /** Over every run of calls, whatever was resumed or announced on the way, the publisher
      can serve a snapshot: its references are exactly the displayed orders, each its own. */
  lemma {:induction false} RunServable(st: State, p: Publisher, ops: seq<Op>)
    requires Servable(st, p) && Valid(st) && Quiet(st)
    ensures Valid(Run(st, ops)) && Quiet(Run(st, ops)) && Servable(Run(st, ops), PublishRun(p, st, ops))
    decreases |ops|
  {
    hide State.ListedAt, StopsInBand, Told, Step, Publish, Quiet;
    if ops != [] {
      StepValid(st, ops[0]);
      CallTold(st, p, ops[0]);
      CallMode(st, p, ops[0]);
      RunServable(Step(st, ops[0]).st, Publish(p, st, ops[0]), ops[1..]);
    }
  }

  lemma FreshServable(min: int, width: nat)
    requires width > 0
    ensures Servable(Fresh(min, width), NEW_PUBLISHER)
  {
    FreshIsIndexed(min, width);
  }
}
