/** The feed through a call auction: what a consumer rebuilds, and exactly when that is the displayed book. */
module FeedCross {
  import opened Types
  import opened Ladders
  import opened Book
  import opened Matching
  import opened Auction
  import opened Engine
  import opened Feed
  import opened FeedMirror
  import opened FeedSync
  import opened FeedShadow

  // ---- one print as moves on ids --------------------------------------

  /** The clip an order shows after executing `f`, if its clip is spent and reserve is left. */
  function Reshown(o: Order, f: nat): (r: Option<Order>)
    ensures r.Some? ==> r.value.id == o.id && f >= o.qty
  {
    if f >= o.qty && o.reserve > f - o.qty then Some(Reload(o.(reserve := o.reserve - (f - o.qty)))) else None
  }

  function Show(st: State, s: Side, i: nat, clip: Option<Order>): (t: State)
    requires st.Shaped() && i < st.width
    ensures t.Shaped() && t.width == st.width && t.nextId == st.nextId
    ensures t.live.Keys == st.live.Keys + (if clip.Some? then {clip.value.id} else {})
  {
    if clip.Some? then Join(st, Resting(s), i, clip.value) else st
  }

  function HitBoth(st: State, id: nat, id': nat, f: nat): (t: State)
    requires Displayed(st, id) && Displayed(st, id') && id != id' && f > 0
    ensures t.Shaped() && t.width == st.width
  {
    HitOthers(st, id, f);
    Hit(Hit(st, id, f), id', f)
  }

  /** Both heads are hit for `f`, then their next clips are shown at ticks `i` and `j`. */
  function Moves(st: State, bid: Order, i: nat, ask: Order, j: nat, f: nat): State
    requires Displayed(st, bid.id) && Displayed(st, ask.id) && bid.id != ask.id && f > 0
    requires i < st.width && j < st.width
  {
    Show(Show(HitBoth(st, bid.id, ask.id, f), Buy, i, Reshown(bid, f)), Sell, j, Reshown(ask, f))
  }

  function ClipNews(o: Order, f: nat, s: Side, price: int): seq<Event> {
    if Reshown(o, f).Some? then [Rested(o.id, s, price, Reshown(o, f).value.qty)] else []
  }

  /** Equal but for the tape and the last price. */
  ghost predicate Agree(a: State, t: State) {
    && t.book == a.book && t.live == a.live && t.nextId == a.nextId
    && t.min == a.min && t.width == a.width && t.halted == a.halted
  }

  /** A hit on the head of a queue. */
  lemma HitHead(st: State, s: Side, i: nat, f: nat)
    requires st.Indexed() && i < st.width && st.Get(Resting(s))[i] != [] && f > 0
    ensures var o := st.Get(Resting(s))[i][0];
      && Displayed(st, o.id)
      && Hit(st, o.id, f) == if f < o.qty then Amend(st, Resting(s), i, 0, o.(qty := o.qty - f))
        else Leave(st, Resting(s), i, 0)
  {
    hide State.ListedAt;
    Locate(st, Resting(s), i, 0);
  }

  lemma CrossFillMoves(st: State, s: Side, i: nat, f: nat, price: int)
    requires st.Indexed() && i < st.width && st.Get(Resting(s))[i] != []
    requires 0 < f <= Size(st.Get(Resting(s))[i][0])
    ensures var o := st.Get(Resting(s))[i][0]; var t := CrossFill(st, s, i, f, price);
      && t.Indexed() && Displayed(st, o.id)
      && t.tape == st.tape + ClipNews(o, f, s, price)
      && Agree(t, Show(Hit(st, o.id, f), s, i, Reshown(o, f)))
  {
    hide State.ListedAt, Hit;
    CrossFillFrame(st, s, i, f, price);
    HitHead(st, s, i, f);
    var o := st.Get(Resting(s))[i][0];
    if Reshown(o, f).Some? {
      RequeueIsRejoin(st, Resting(s), i, Reshown(o, f).value);
    }
  }

  lemma HitAgrees(a: State, t: State, s: Side, i: nat, f: nat)
    requires a.Indexed() && t.Indexed() && Agree(a, t) && i < a.width && a.Get(Resting(s))[i] != [] && f > 0
    ensures Displayed(a, a.Get(Resting(s))[i][0].id) && Displayed(t, a.Get(Resting(s))[i][0].id)
    ensures Agree(Hit(a, a.Get(Resting(s))[i][0].id, f), Hit(t, a.Get(Resting(s))[i][0].id, f))
  {
    hide State.ListedAt, Hit;
    HitHead(a, s, i, f);
    HitHead(t, s, i, f);
  }

  /** Two updates of different shelves commute. */
  lemma ShelvesCommute(m: map<Shelf, Ladder>, a: Ladder, b: Ladder)
    ensures m[Resting(Buy) := b][Resting(Sell) := a] == m[Resting(Sell) := a][Resting(Buy) := b]
  {}

  /** A hit on the asks commutes with a clip shown among the bids. */
  lemma HitAfterShow(x: State, i: nat, clip: Option<Order>, j: nat, f: nat)
    requires x.Indexed() && i < x.width && j < x.width && x.Get(Resting(Sell))[j] != [] && f > 0
    requires clip.Some? ==> 0 < clip.value.id < x.nextId && clip.value.id !in x.live
    ensures var id := x.Get(Resting(Sell))[j][0].id;
      && Displayed(x, id) && Show(x, Buy, i, clip).Indexed() && Displayed(Show(x, Buy, i, clip), id)
      && Agree(Hit(Show(x, Buy, i, clip), id, f), Show(Hit(x, id, f), Buy, i, clip))
  {
    hide State.ListedAt, State.Bounded, Hit;
    HitHead(x, Sell, j, f);
    if clip.Some? {
      var y := Show(x, Buy, i, clip);
      JoinIndexed(x, Resting(Buy), i, clip.value);
      HitHead(y, Sell, j, f);
      var o := x.Get(Resting(Sell))[j][0];
      var q := if f < o.qty then x.Get(Resting(Sell))[j][0 := o.(qty := o.qty - f)]
        else Without(x.Get(Resting(Sell))[j], 0);
      var a := x.Get(Resting(Sell))[j := q];
      ShelvesCommute(x.book, a, y.Get(Resting(Buy)));
    }
  }

  lemma AgreeTrans(a: State, m: State, t: State)
    requires Agree(a, m) && Agree(m, t)
    ensures Agree(a, t)
  {}

  lemma ShowAgrees(a: State, t: State, s: Side, i: nat, clip: Option<Order>)
    requires a.Shaped() && t.Shaped() && Agree(a, t) && i < a.width
    ensures Agree(Show(a, s, i, clip), Show(t, s, i, clip))
  {}

  /** The buyer's half of a print. */
  lemma CrossBidMoves(st: State, s0: State, b: nat, f: nat, price: int)
    requires st.Indexed() && s0.Indexed() && Agree(s0, st) && b < st.width && Bids(st)[b] != []
    requires 0 < f <= Size(Bids(st)[b][0])
    ensures var bid := Bids(st)[b][0];
      var st1, clip := CrossFill(s0, Buy, b, f, price), Reshown(bid, f);
      && st1.Indexed() && st1.width == st.width && Displayed(st, bid.id) && Hit(st, bid.id, f).Indexed()
      && Agree(st1, Show(Hit(st, bid.id, f), Buy, b, clip))
      && st1.tape == s0.tape + ClipNews(bid, f, Buy, price)
      && Hit(st, bid.id, f).Get(Resting(Sell)) == Asks(st) && st1.Get(Resting(Sell)) == Asks(st)
      && (clip.Some? ==> 0 < bid.id < Hit(st, bid.id, f).nextId && bid.id !in Hit(st, bid.id, f).live)
  {
    hide State.ListedAt, Hit, Show, Reshown, ClipNews, OrderOf, Seat;
    var bid := Bids(st)[b][0];
    HitAgrees(s0, st, Buy, b, f);
    CrossFillMoves(s0, Buy, b, f, price);
    CrossFillShape(s0, Buy, b, f, price);
    HitOthers(st, bid.id, f);
    HitLeavesAsks(st, b, f);
    ShowAgrees(Hit(s0, bid.id, f), Hit(st, bid.id, f), Buy, b, Reshown(bid, f));
    AgreeTrans(CrossFill(s0, Buy, b, f, price), Show(Hit(s0, bid.id, f), Buy, b, Reshown(bid, f)),
               Show(Hit(st, bid.id, f), Buy, b, Reshown(bid, f)));
  }

  lemma HeadsDiffer(st: State, i: nat, j: nat)
    requires st.Indexed() && i < st.width && j < st.width && Bids(st)[i] != [] && Asks(st)[j] != []
    ensures Displayed(st, Bids(st)[i][0].id) && Displayed(st, Asks(st)[j][0].id) &&
      Bids(st)[i][0].id != Asks(st)[j][0].id
    ensures st.live[Bids(st)[i][0].id] == Place(Resting(Buy), i) && OrderOf(st, Bids(st)[i][0].id) == Bids(st)[i][0]
    ensures st.live[Asks(st)[j][0].id] == Place(Resting(Sell), j) && OrderOf(st, Asks(st)[j][0].id) == Asks(st)[j][0]
  {
    hide State.ListedAt;
    Locate(st, Resting(Buy), i, 0);
    Locate(st, Resting(Sell), j, 0);
  }

  /** One print of the auction is the two hits followed by the two shows. */
  lemma CrossStepMoves(st: State, p: nat)
    requires st.Indexed() && Overlaps(st)
    ensures var b, a, f := st.BestTick(Buy), st.BestTick(Sell), CrossQty(st);
      var bid, ask := Bids(st)[b][0], Asks(st)[a][0]; var t := CrossStep(st, p);
      && Displayed(st, bid.id) && Displayed(st, ask.id) && bid.id != ask.id
      && t.Indexed() && Agree(t, Moves(st, bid, b, ask, a, f))
      && t.tape == st.tape + [CrossTrade(st, p)] + ClipNews(bid, f, Buy, st.min + p) +
        ClipNews(ask, f, Sell, st.min + p)
  {
    hide State.ListedAt, State.Bounded, Hit, Show, Reshown, ClipNews, OrderOf, Seat, Agree, CrossFill, Best;
    var b, a, f := st.BestTick(Buy), st.BestTick(Sell), CrossQty(st);
    var bid, ask := Bids(st)[b][0], Asks(st)[a][0];
    HeadsDiffer(st, b, a);
    var clip := Reshown(bid, f);
    var s0 := st.Print(st.min + p, CrossTrade(st, p));
    TellFrame(st, Some(st.min + p), [CrossTrade(st, p)], Resting(Buy));
    PrintAgrees(st, Some(st.min + p), [CrossTrade(st, p)]);
    CrossBidMoves(st, s0, b, f, st.min + p);
    var st1 := CrossFill(s0, Buy, b, f, st.min + p);
    var x := Hit(st, bid.id, f);
    HitAfterShow(x, b, clip, a, f);
    var y, z := Show(x, Buy, b, clip), Show(Hit(x, ask.id, f), Buy, b, clip);
    CrossFillMoves(st1, Sell, a, f, st.min + p);
    HitAgrees(st1, y, Sell, a, f);
    AgreeTrans(Hit(st1, ask.id, f), Hit(y, ask.id, f), z);
    ShowAgrees(Hit(st1, ask.id, f), z, Sell, a, Reshown(ask, f));
    AgreeTrans(CrossStep(st, p), Show(Hit(st1, ask.id, f), Sell, a, Reshown(ask, f)), Moves(st, bid, b, ask, a, f));
  }

  lemma PrintAgrees(st: State, last: Option<int>, news: seq<Event>)
    ensures Agree(st.(last := last, tape := st.tape + news), st)
  {}

  lemma HitLeavesAsks(st: State, i: nat, f: nat)
    requires st.Indexed() && i < st.width && st.Get(Resting(Buy))[i] != [] && f > 0
    ensures var id := st.Get(Resting(Buy))[i][0].id;
      && Displayed(st, id) && Hit(st, id, f).Get(Resting(Sell)) == st.Get(Resting(Sell))
      && (Reshown(st.Get(Resting(Buy))[i][0], f).Some? ==> id !in Hit(st, id, f).live && 0 < id < st.nextId)
  {
    HitHead(st, Buy, i, f);
  }

  // ---- the feed's side of a print -------------------------------------

  /** The displayed part of a fill is published as an execution at the clearing price. */
  lemma SyncedHit(sh: State, p: Publisher, b: Builder, id: nat, f: nat, price: int)
    requires Displayed(sh, id) && Synced(sh, p, b) && f > 0
    ensures Hit(sh, id, f).Indexed() && Synced(Hit(sh, id, f), ExecCross(p, id, f, price), b)
  {
    hide State.ListedAt, Synced, Take;
    var at, k, o := sh.live[id], Seat(sh, id), OrderOf(sh, id);
    assert at.shelf == Resting(at.shelf.side);
    ShownIsReferenced(sh, p, b, at.shelf.side, at.tick, k);
    var part := Min(f, o.qty);
    var m := ExecuteAt(p.refs[id].ref, part, price);
    if f < o.qty {
      SyncedShrink(sh, p, b, at.shelf.side, at.tick, k, o.(qty := o.qty - f), f, m);
    } else {
      SyncedConsume(sh, p, b, at.shelf.side, at.tick, k, o, m);
    }
  }

  lemma SyncedShow(sh: State, p: Publisher, b: Builder, o: Order, f: nat, s: Side, i: nat)
    requires sh.Indexed() && Synced(sh, p, b) && sh.halted && i < sh.width
    requires Reshown(o, f).Some? ==> 0 < o.id < sh.nextId && o.id !in sh.live
    ensures Show(sh, s, i, Reshown(o, f)).Indexed()
    ensures Synced(Show(sh, s, i, Reshown(o, f)), OnEvents(p, ClipNews(o, f, s, sh.min + i)), b)
  {
    hide State.ListedAt, Synced;
    if Reshown(o, f).Some? {
      SyncedJoin(sh, p, b, s, i, Reshown(o, f).value);
      OneEvent(p, Rested(o.id, s, sh.min + i, Reshown(o, f).value.qty));
    }
  }

  /** The publisher's state after the events of one print. */
  function HeardPrint(p: Publisher, bid: Order, ask: Order, f: nat, price: int): Publisher {
    var q := ExecCross(ExecCross(p, bid.id, f, price), ask.id, f, price);
    OnEvents(OnEvents(q, ClipNews(bid, f, Buy, price)), ClipNews(ask, f, Sell, price))
  }

  lemma SyncedMoves(sh: State, p: Publisher, b: Builder, bid: Order, ask: Order, i: nat, f: nat)
    requires Displayed(sh, bid.id) && Displayed(sh, ask.id) && bid.id != ask.id && f > 0
    requires OrderOf(sh, bid.id) == bid && OrderOf(sh, ask.id) == ask
    requires Synced(sh, p, b) && sh.halted && i < sh.width
    ensures Moves(sh, bid, i, ask, i, f).Indexed()
    ensures Synced(Moves(sh, bid, i, ask, i, f), HeardPrint(p, bid, ask, f, sh.min + i), b)
  {
    hide State.ListedAt, Synced, Hit, Reshown, ClipNews, ExecCross, OrderOf, Seat;
    var price := sh.min + i;
    HitOthers(sh, bid.id, f);
    SyncedHit(sh, p, b, bid.id, f, price);
    var x, q := Hit(sh, bid.id, f), ExecCross(p, bid.id, f, price);
    HitOthers(x, ask.id, f);
    SyncedHit(x, q, b, ask.id, f, price);
    var y, r := Hit(x, ask.id, f), ExecCross(q, ask.id, f, price);
    IdBounded(sh, bid.id);
    IdBounded(sh, ask.id);
    SyncedShow(y, r, b, bid, f, Buy, i);
    SyncedShow(Show(y, Buy, i, Reshown(bid, f)), OnEvents(r, ClipNews(bid, f, Buy, price)), b, ask, f, Sell, i);
  }

  lemma IdBounded(st: State, id: nat)
    requires st.Indexed() && id in st.live
    ensures 0 < id < st.nextId && st.live[id].tick < st.width
  {}

  lemma HeardCrossStep(st: State, p: nat, pub: Publisher)
    requires st.Indexed() && Overlaps(st) && pub.inCross
    ensures st.tape <= CrossStep(st, p).tape
    ensures Heard(st, CrossStep(st, p), pub) ==
      HeardPrint(pub, Bids(st)[st.BestTick(Buy)][0], Asks(st)[st.BestTick(Sell)][0], CrossQty(st), st.min + p)
  {
    hide State.ListedAt, CrossStep, ClipNews, Moves, Agree;
    CrossStepMoves(st, p);
    var bid, ask, f := Bids(st)[st.BestTick(Buy)][0], Asks(st)[st.BestTick(Sell)][0], CrossQty(st);
    var clips, clips' := ClipNews(bid, f, Buy, st.min + p), ClipNews(ask, f, Sell, st.min + p);
    assert CrossStep(st, p).tape[|st.tape|..] == [CrossTrade(st, p)] + clips + clips';
    OnEventsAppend(pub, [CrossTrade(st, p)] + clips, clips');
    OnEventsAppend(pub, [CrossTrade(st, p)], clips);
    OneEvent(pub, CrossTrade(st, p));
  }

  // ---- the shadow follows the loop ------------------------------------

  lemma ShadowsAgree(sh: State, a: State, t: State, m: set<nat>, p: nat)
    requires a.Indexed() && t.Indexed() && Agree(a, t) && Shadows(sh, a, m, p)
    ensures Shadows(sh, t, m, p)
  {
    hide State.ListedAt, State.Bounded, SameOtherwise, OrderOf, Seat;
    assert SameOtherwise(sh, t, m) by { AgreeOtherwise(sh, a, t, m); }
    forall id | id in t.live ensures OrderOf(t, id) == OrderOf(a, id) { AgreeOrder(a, t, id); }
  }

  lemma AgreeOrder(a: State, t: State, id: nat)
    requires a.Indexed() && t.Indexed() && Agree(a, t) && id in t.live
    ensures OrderOf(t, id) == OrderOf(a, id)
  {
    hide State.ListedAt;
    var at := t.live[id];
    assert OrderOf(a, id) in Home(a, id) && Home(a, id) == t.Get(at.shelf)[at.tick];
    InQueue(t, at, OrderOf(a, id));
  }

  lemma AgreeOtherwise(sh: State, a: State, t: State, m: set<nat>)
    requires sh.Shaped() && a.Shaped() && t.Shaped() && sh.width == a.width && Agree(a, t) && SameOtherwise(sh, a, m)
    ensures SameOtherwise(sh, t, m)
  {
    forall s: Side ensures t.Get(Resting(s)) == a.Get(Resting(s)) {}
  }

  lemma ShadowsSelf(st: State, p: nat)
    requires st.Indexed()
    ensures Shadows(st, st, {}, p)
  {}

  function Displaced(m: set<nat>, o: Order, f: nat, i: nat, p: nat): set<nat> {
    if Reshown(o, f).Some? && i != p then m + {o.id} else m
  }

  lemma ShowClipShadows(sh: State, st: State, m: set<nat>, p: nat, s: Side, i: nat, o: Order, f: nat)
    requires st.Indexed() && Shadows(sh, st, m, p) && i < st.width && p < st.width
    requires Reshown(o, f).Some? ==> 0 < o.id < st.nextId && o.id !in st.live
    requires o.id in m ==> i != p
    ensures Show(st, s, i, Reshown(o, f)).Indexed()
    ensures Shadows(Show(sh, s, p, Reshown(o, f)), Show(st, s, i, Reshown(o, f)), Displaced(m, o, f, i, p), p)
  {
    hide State.ListedAt, Shadows;
    assert sh.Shaped() && sh.width == st.width by { ShadowShaped(sh, st, m, p); }
    if Reshown(o, f).Some? { ShowShadows(sh, st, m, p, s, i, Reshown(o, f).value); }
  }

  lemma ShadowShaped(sh: State, st: State, m: set<nat>, p: nat)
    requires st.Indexed() && Shadows(sh, st, m, p)
    ensures sh.Indexed() && sh.width == st.width && sh.min == st.min && sh.halted == st.halted && sh.nextId == st.nextId
    ensures sh.live.Keys == st.live.Keys
    ensures forall id :: id in st.live ==> OrderOf(sh, id) == OrderOf(st, id) && sh.live[id].shelf == st.live[id].shelf
    ensures forall id :: id in st.live && id in m ==> st.live[id].tick != p
  {
    hide State.ListedAt, State.Bounded, SameOtherwise, OrderOf, Seat;
  }

  lemma MovesShadows(sh: State, st: State, m: set<nat>, p: nat, bid: Order, i: nat, ask: Order, j: nat, f: nat)
    requires st.Indexed() && Shadows(sh, st, m, p) && p < st.width && i < st.width && j < st.width && f > 0
    requires Displayed(st, bid.id) && Displayed(st, ask.id) && bid.id != ask.id
    requires OrderOf(st, bid.id) == bid && OrderOf(st, ask.id) == ask
    requires st.live[bid.id].tick == i && st.live[ask.id].tick == j
    ensures Displayed(sh, bid.id) && Displayed(sh, ask.id) && sh.width == st.width
    ensures Moves(st, bid, i, ask, j, f).Indexed()
    ensures Shadows(Moves(sh, bid, p, ask, p, f), Moves(st, bid, i, ask, j, f),
                    Displaced(Displaced(m, bid, f, i, p), ask, f, j, p), p)
  {
    hide State.ListedAt, Shadows, Hit, Show, Reshown, OrderOf, Seat;
    ShadowShaped(sh, st, m, p);
    IdBounded(st, bid.id);
    IdBounded(st, ask.id);
    HitOthers(st, bid.id, f);
    HitShadows(sh, st, m, p, bid.id, f);
    var x, x' := Hit(st, bid.id, f), Hit(sh, bid.id, f);
    HitOthers(x, ask.id, f);
    HitShadows(x', x, m, p, ask.id, f);
    var y, y' := Hit(x, ask.id, f), Hit(x', ask.id, f);
    ShowClipShadows(y', y, m, p, Buy, i, bid, f);
    ShowClipShadows(Show(y', Buy, p, Reshown(bid, f)), Show(y, Buy, i, Reshown(bid, f)),
                    Displaced(m, bid, f, i, p), p, Sell, j, ask, f);
  }

  /** The news shows a fresh clip of order `id`. */
  predicate Reshows(news: seq<Event>, id: nat) {
    exists e :: e in news && e.Rested? && e.id == id
  }

  lemma ReshowsAppend(a: seq<Event>, b: seq<Event>, id: nat)
    ensures Reshows(a + b, id) <==> Reshows(a, id) || Reshows(b, id)
  {
    if Reshows(a, id) {
      var e :| e in a && e.Rested? && e.id == id;
      assert e in a + b;
    }
    if Reshows(b, id) {
      var e :| e in b && e.Rested? && e.id == id;
      assert e in a + b;
    }
  }

  lemma ClipReshows(o: Order, f: nat, s: Side, price: int, id: nat)
    ensures Reshows(ClipNews(o, f, s, price), id) <==> Reshown(o, f).Some? && id == o.id
  {
    if Reshown(o, f).Some? {
      assert Rested(o.id, s, price, Reshown(o, f).value.qty) in ClipNews(o, f, s, price);
    }
  }

  /** Exactly the clips shown by the news away from their own tick are displaced. */
  ghost predicate Tracks(m: set<nat>, m': set<nat>, st: State, news: seq<Event>, p: nat) {
    forall id :: id in st.live ==> (id in m' <==> id in m || (st.live[id].tick != p && Reshows(news, id)))
  }

  /** A print shows the next clip of either head, and of no other order. */
  lemma StepReshows(st: State, p: nat, id: nat)
    requires st.Indexed() && Overlaps(st)
    ensures st.tape <= CrossStep(st, p).tape
    ensures var bid, ask, f := Bids(st)[st.BestTick(Buy)][0], Asks(st)[st.BestTick(Sell)][0], CrossQty(st);
      Reshows(News(st, CrossStep(st, p)), id) <==>
        (id == bid.id && Reshown(bid, f).Some?) || (id == ask.id && Reshown(ask, f).Some?)
  {
    hide State.ListedAt, CrossStep, ClipNews, Moves, Agree, Reshown, Reshows;
    CrossStepMoves(st, p);
    var bid, ask, f := Bids(st)[st.BestTick(Buy)][0], Asks(st)[st.BestTick(Sell)][0], CrossQty(st);
    var clips, clips' := ClipNews(bid, f, Buy, st.min + p), ClipNews(ask, f, Sell, st.min + p);
    assert News(st, CrossStep(st, p)) == [CrossTrade(st, p)] + clips + clips';
    ReshowsAppend([CrossTrade(st, p)] + clips, clips', id);
    ReshowsAppend([CrossTrade(st, p)], clips, id);
    ClipReshows(bid, f, Buy, st.min + p, id);
    ClipReshows(ask, f, Sell, st.min + p, id);
    TradeShowsNothing(st, p, id);
  }

  lemma StepTracks(st: State, p: nat, m: set<nat>)
    requires st.Indexed() && Overlaps(st)
    ensures st.tape <= CrossStep(st, p).tape
    ensures var b, a, f := st.BestTick(Buy), st.BestTick(Sell), CrossQty(st);
      Tracks(m, Displaced(Displaced(m, Bids(st)[b][0], f, b, p), Asks(st)[a][0], f, a, p), st,
        News(st, CrossStep(st, p)), p)
  {
    hide State.ListedAt, CrossStep, Reshown, Reshows;
    var b, a := st.BestTick(Buy), st.BestTick(Sell);
    StepReshows(st, p, 0);
    HeadsDiffer(st, b, a);
    forall id ensures Reshows(News(st, CrossStep(st, p)), id) <==>
      (id == Bids(st)[b][0].id && Reshown(Bids(st)[b][0], CrossQty(st)).Some?) ||
      (id == Asks(st)[a][0].id && Reshown(Asks(st)[a][0], CrossQty(st)).Some?)
    {
      StepReshows(st, p, id);
    }
  }

  lemma TradeShowsNothing(st: State, p: nat, id: nat)
    requires st.Shaped() && Overlaps(st)
    ensures !Reshows([CrossTrade(st, p)], id)
  {}

  /** The state of the feed around a point of the crossing loop. */
  ghost predicate Crossing(sh: State, st: State, m: set<nat>, p: nat, pub: Publisher, b: Builder) {
    && st.Indexed() && p < st.width && st.halted && Shadows(sh, st, m, p)
    && Synced(sh, pub, b) && pub.inCross
  }

  lemma StepCrossing(sh: State, st: State, m: set<nat>, p: nat, pub: Publisher, b: Builder)
    returns (sh': State, m': set<nat>)
    requires Crossing(sh, st, m, p, pub, b) && Overlaps(st)
    ensures st.tape <= CrossStep(st, p).tape
    ensures Crossing(sh', CrossStep(st, p), m', p, Heard(st, CrossStep(st, p), pub), b)
    ensures Tracks(m, m', st, News(st, CrossStep(st, p)), p)
  {
    hide State.ListedAt, State.Bounded, CrossStep, Moves, Shadows, Synced, HeardPrint, Displaced, OrderOf, Seat,
      Heard, Tracks;
    var bt, a, f := st.BestTick(Buy), st.BestTick(Sell), CrossQty(st);
    var bid, ask := Bids(st)[bt][0], Asks(st)[a][0];
    HeadsDiffer(st, bt, a);
    ShadowShaped(sh, st, m, p);
    CrossStepMoves(st, p);
    CrossStepFrame(st, p);
    MovesShadows(sh, st, m, p, bid, bt, ask, a, f);
    sh', m' := Moves(sh, bid, p, ask, p, f), Displaced(Displaced(m, bid, f, bt, p), ask, f, a, p);
    ShadowsAgree(sh', Moves(st, bid, bt, ask, a, f), CrossStep(st, p), m', p);
    SyncedMoves(sh, pub, b, bid, ask, p, f);
    HeardCrossStep(st, p, pub);
    StepTracks(st, p, m);
    HeardMode(st, CrossStep(st, p), pub);
  }

  lemma HeardMode(a: State, t: State, pub: Publisher)
    requires a.tape <= t.tape
    ensures Heard(a, t, pub).inCross == pub.inCross
  {
    ModeKept(pub, t.tape[|a.tape|..]);
  }

  /** Through the whole loop the consumer rebuilds the shadow. */
  lemma {:induction false} LoopCrossing(sh: State, st: State, m: set<nat>, p: nat, crossed: nat, pub: Publisher,
                                        b: Builder)
    returns (sh': State, m': set<nat>)
    requires Crossing(sh, st, m, p, pub, b)
    ensures var t := CrossLoop(st, p, crossed).st;
      && st.tape <= t.tape && OnlyBook(st, t)
      && Crossing(sh', t, m', p, Heard(st, t, pub), b)
      && (forall id :: id in t.live ==> (id in m' <==> id in m || (t.live[id].tick != p && Reshows(News(st, t), id))))
    decreases Count(Bids(st)) + Count(Asks(st))
  {
    hide State.ListedAt, State.Bounded, CrossStep, Shadows, Synced, Heard, Reshows, OnlyBook, Crossing, Tracks;
    CrossingFacts(sh, st, m, p, pub, b);
    CrossLoopFrame(st, p, crossed);
    OnlyBookTape(st, CrossLoop(st, p, crossed).st);
    if Crossable(st, p) {
      CrossStepShape(st, p);
      CrossStepFrame(st, p);
      var s, t := CrossStep(st, p), CrossLoop(st, p, crossed).st;
      var sh1, m1 := StepCrossing(sh, st, m, p, pub, b);
      sh', m' := LoopCrossing(sh1, s, m1, p, crossed + CrossQty(st), Heard(st, s, pub), b);
      CrossLoopFrame(s, p, crossed + CrossQty(st));
      OnlyBookTape(s, t);
      HeardTrans(st, s, t, pub);
      LoopTracks(m, m1, m', st, s, t, p);
    } else {
      sh', m' := sh, m;
      assert News(st, st) == [] by { assert st.tape[|st.tape|..] == []; }
      assert Heard(st, st, pub) == pub by { HeardSelf(st, pub); }
      forall id ensures !Reshows(News(st, st), id) { NothingReshown(id); }
    }
  }

  lemma CrossingFacts(sh: State, st: State, m: set<nat>, p: nat, pub: Publisher, b: Builder)
    requires Crossing(sh, st, m, p, pub, b)
    ensures st.Indexed() && p < st.width
  {}

  lemma OnlyBookTape(a: State, t: State)
    requires OnlyBook(a, t)
    ensures a.tape <= t.tape
  {}

  lemma HeardSelf(st: State, pub: Publisher)
    ensures Heard(st, st, pub) == pub
  {
    assert st.tape[|st.tape|..] == [];
  }

  lemma NothingReshown(id: nat)
    ensures !Reshows([], id)
  {}

  lemma LoopTracks(m: set<nat>, m1: set<nat>, m': set<nat>, st: State, s: State, t: State, p: nat)
    requires st.tape <= s.tape <= t.tape && OnlyBook(st, s) && OnlyBook(s, t) && OnlyBook(st, t)
    requires Tracks(m, m1, st, News(st, s), p)
    requires forall id :: id in t.live ==> (id in m' <==> id in m1 || (t.live[id].tick != p && Reshows(News(s, t), id)))
    ensures forall id :: id in t.live ==> (id in m' <==> id in m || (t.live[id].tick != p && Reshows(News(st, t), id)))
  {
    hide Reshows;
    assert News(st, t) == News(st, s) + News(s, t);
    forall id ensures Reshows(News(st, t), id) <==> Reshows(News(st, s), id) || Reshows(News(s, t), id) {
      ReshowsAppend(News(st, s), News(s, t), id);
    }
  }

  // ---- exactly when the auction keeps the feed true -------------------

  lemma {:induction false} DropAbsent(q: Queue, x: set<nat>)
    requires Ids(q) !! x
    ensures Drop(q, x) == q
  {
    if q != [] { DropAbsent(q[1..], x); }
  }

  /** With no live order displaced, the shadow is the book. */
  lemma NoneDisplaced(sh: State, t: State, m: set<nat>, p: nat, refs: Refs, b: Builder)
    requires t.Indexed() && Shadows(sh, t, m, p) && sh.Indexed() && Mirrors(sh, refs, b)
    requires t.live.Keys !! m
    ensures Mirrors(t, refs, b)
  {
    hide State.ListedAt, OrderOf, Seat, Untraded, Published, SameBook;
    forall s: Side ensures sh.Get(Resting(s)) == t.Get(Resting(s)) {
      forall j | 0 <= j < t.width ensures sh.Get(Resting(s))[j] == t.Get(Resting(s))[j] {
        ListedLive(t, Place(Resting(s), j));
        ListedLive(sh, Place(Resting(s), j));
        DropAbsent(t.Get(Resting(s))[j], m);
        DropAbsent(sh.Get(Resting(s))[j], m);
      }
    }
    MirrorsSame(sh, t, refs, b);
  }

  lemma ListedLive(st: State, at: Place)
    requires st.Indexed() && at.tick < st.width
    ensures Ids(st.Get(at.shelf)[at.tick]) <= st.live.Keys
  {
    assert st.ListedAt(at);
  }

  /** A displayed order's copy stands where the order does. */
  lemma CopyStands(st: State, refs: Refs, b: Builder, id: nat)
    requires Displayed(st, id) && Mirrors(st, refs, b)
    ensures id in refs && refs[id].ref in b.refmap
    ensures b.refmap[refs[id].ref] in b.engine.live && b.engine.live[b.refmap[refs[id].ref]] == st.live[id]
  {
    hide State.ListedAt, StopsInBand;
    var at, k := st.live[id], Seat(st, id);
    assert at.shelf == Resting(at.shelf.side);
    CopyAt(st, refs, b, at.shelf.side, at.tick, k);
    Locate(b.engine, at.shelf, at.tick, k);
  }

  lemma DisplacedShows(sh: State, t: State, m: set<nat>, p: nat, refs: Refs, b: Builder, id: nat)
    requires t.Indexed() && Shadows(sh, t, m, p) && sh.Indexed() && Mirrors(sh, refs, b)
    requires id in t.live && id in m
    ensures !Mirrors(t, refs, b)
  {
    hide State.ListedAt, OrderOf, Seat, SameBook, SameOtherwise;
    if Mirrors(t, refs, b) {
      CopyStands(t, refs, b, id);
      CopyStands(sh, refs, b, id);
      assert false;
    }
  }

  /** Every clip the auction showed of an order still live was announced at that order's own limit. */
  ghost predicate ClipsAtLimit(st: State)
    requires st.Indexed()
  {
    CrossKeepsTape(st);
    var t := Uncross(st).st;
    forall e :: e in News(st, t) && e.Rested? && e.id in t.live ==> e.price == t.min + t.live[e.id].tick
  }

  lemma CrossKeepsTape(st: State)
    requires st.Indexed()
    ensures Uncross(st).st.Indexed() && OnlyBook(st, Uncross(st).st) && st.tape <= Uncross(st).st.tape
  {
    UncrossUncrosses(st);
  }

  /** The publisher around an uncross, before its closing cross print. */
  function HeardUncross(st: State, p: Publisher): Publisher
    requires st.Indexed()
  {
    CrossKeepsTape(st);
    Heard(st, Uncross(st).st, p.(inCross := true)).(inCross := false)
  }

  lemma ClipsAtTick(st: State)
    requires st.Indexed() && Overlaps(st)
    ensures st.tape <= Uncross(st).st.tape
    ensures ClipsAtLimit(st) <==> forall id :: id in Uncross(st).st.live && Reshows(News(st, Uncross(st).st), id)
                                    ==> Uncross(st).st.live[id].tick == ClearingTick(st)
  {
    hide State.ListedAt, Uncross, OnlyBook;
    CrossKeepsTape(st);
    assert Uncross(st).st.min == st.min by { UncrossMin(st); }
    var t := Uncross(st).st;
    forall e | e in News(st, t) && e.Rested? ensures e.price == st.min + ClearingTick(st) {
      var n :| 0 <= n < |News(st, t)| && News(st, t)[n] == e;
      UncrossPrints(st, |st.tape| + n);
    }
    if ClipsAtLimit(st) {
      forall id | id in t.live && Reshows(News(st, t), id) ensures t.live[id].tick == ClearingTick(st) {
        var e :| e in News(st, t) && e.Rested? && e.id == id;
      }
    } else {
      var e :| e in News(st, t) && e.Rested? && e.id in t.live && e.price != t.min + t.live[e.id].tick;
      assert Reshows(News(st, t), e.id);
    }
  }

  lemma UncrossMin(st: State)
    requires st.Indexed()
    ensures Uncross(st).st.min == st.min && Uncross(st).st.width == st.width && Uncross(st).st.halted == st.halted
  {
    CrossKeepsTape(st);
  }

  /** The shadow's replay is the book's exactly when no live order is displaced. */
  lemma ShadowMirrorsIff(sh: State, t: State, m: set<nat>, p: nat, q: Publisher, b: Builder)
    requires Crossing(sh, t, m, p, q, b)
    ensures Synced(t, q, b) <==> forall id :: id in t.live ==> id !in m
  {
    hide State.ListedAt, State.Bounded, Shadows, Mirrors, Replay;
    ShadowShaped(sh, t, m, p);
    if forall id :: id in t.live ==> id !in m {
      NoneDisplaced(sh, t, m, p, q.refs, Replay(b, q.out));
    }
    forall id | id in t.live && id in m ensures !Synced(t, q, b) {
      DisplacedShows(sh, t, m, p, q.refs, Replay(b, q.out), id);
    }
  }

  lemma OverlapMirrorsIff(st: State, p: Publisher, b: Builder)
    requires InStep(st, p, b) && st.halted && Overlaps(st)
    ensures Uncross(st).st.Indexed() && st.tape <= Uncross(st).st.tape
    ensures Synced(Uncross(st).st, Heard(st, Uncross(st).st, p.(inCross := true)), b) <==> ClipsAtLimit(st)
  {
    hide State.ListedAt, State.Bounded, CrossLoop, Shadows, Mirrors, Heard, Reshows, Replay, ClipsAtLimit;
    CrossKeepsTape(st);
    var t, tick, p1 := Uncross(st).st, ClearingTick(st), p.(inCross := true);
    ShadowsSelf(st, tick);
    var sh, m := LoopCrossing(st, st, {}, tick, 0, p1, b);
    ShadowMirrorsIff(sh, t, m, tick, Heard(st, t, p1), b);
    ClipsAtTick(st);
  }

  /** After a call auction the rebuilt book is the displayed book if and only if no
      surviving order was shown away from its own limit. */
  lemma UncrossMirrorsIff(st: State, p: Publisher, b: Builder)
    requires InStep(st, p, b) && st.halted
    ensures Uncross(st).st.Indexed()
    ensures Synced(Uncross(st).st, HeardUncross(st, p), b) <==> ClipsAtLimit(st)
    ensures !HeardUncross(st, p).inCross
  {
    hide State.ListedAt, State.Bounded, CrossLoop, Mirrors, Heard, Replay, ClipsAtLimit;
    CrossKeepsTape(st);
    if Overlaps(st) {
      OverlapMirrorsIff(st, p, b);
    } else {
      HeardSelf(st, p.(inCross := true));
      NoNews(st);
    }
  }

  lemma NoNews(st: State)
    requires st.Indexed() && !Overlaps(st)
    ensures ClipsAtLimit(st)
  {
    assert st.tape[|st.tape|..] == [];
  }
}
