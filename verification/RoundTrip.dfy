/** The round trip from a fresh venue, and the auction that breaks it. */
module RoundTrip {
  import opened Types
  import opened Ladders
  import opened Book
  import opened Matching
  import opened SweepLaws
  import opened Auction
  import opened Engine
  import opened Safety
  import opened Feed
  import opened FeedMirror
  import opened FeedSync
  import opened FeedCross
  import opened FeedRuns
  import opened Walks

  lemma FreshInStep(min: int, width: nat)
    requires width > 0
    ensures InStep(Fresh(min, width), NEW_PUBLISHER, NewBuilder(min, width)) && BuilderValid(NewBuilder(min, width))
  {
    hide State.ListedAt;
    FreshIsSafe(min, width);
    ReplayEmpty(NewBuilder(min, width));
  }

  lemma ReplayEmpty(b: Builder)
    requires BuilderValid(b)
    ensures Replay(b, []) == b
  {}

  /** The displayed quantities of one level, front of the queue first. */
  function Display(q: Queue): seq<nat> {
    seq(|q|, k requires 0 <= k < |q| => q[k].qty)
  }

  ghost predicate SameDisplay(st: State, e: State) {
    && st.Shaped() && e.Shaped() && e.min == st.min && e.width == st.width
    && forall s: Side, i :: 0 <= i < st.width ==> Display(e.Get(Resting(s))[i]) == Display(st.Get(Resting(s))[i])
  }

  lemma MirrorsDisplay(st: State, refs: Refs, b: Builder)
    requires st.Indexed() && Mirrors(st, refs, b)
    ensures SameDisplay(st, b.engine) && b.engine.last.None?
  {
    hide State.ListedAt, StopsInBand;
    forall s: Side, i | 0 <= i < st.width
      ensures Display(b.engine.Get(Resting(s))[i]) == Display(st.Get(Resting(s))[i])
    {
      assert Copies(st.Get(Resting(s))[i], b.engine.Get(Resting(s))[i], refs, b.refmap);
    }
  }

  /** From a fresh venue, the engine rebuilt from the published messages shows the same
      levels with the same quantities in the same order, and has itself never traded. */
  lemma RoundTrips(min: int, width: nat, ops: seq<Op>)
    requires width > 0 && Valid(Fresh(min, width))
    requires ResumesUncrossed(Fresh(min, width), ops) && AuctionsAtLimit(Fresh(min, width), ops)
    ensures BuilderValid(NewBuilder(min, width))
    ensures var e := Replay(NewBuilder(min, width), PublishRun(NEW_PUBLISHER, Fresh(min, width), ops).out).engine;
      SameDisplay(Run(Fresh(min, width), ops), e) && e.last.None?
  {
    hide State.ListedAt, StopsInBand, Replay, Run, PublishRun, ResumesUncrossed, AuctionsAtLimit, SameDisplay, Display;
    FreshInStep(min, width);
    FreshIsSafe(min, width);
    RunMirrorsIff(Fresh(min, width), NEW_PUBLISHER, NewBuilder(min, width), ops);
    ThroughoutEnds(Fresh(min, width), NEW_PUBLISHER, NewBuilder(min, width), ops);
    var q := PublishRun(NEW_PUBLISHER, Fresh(min, width), ops);
    MirrorsDisplay(Run(Fresh(min, width), ops), q.refs, Replay(NewBuilder(min, width), q.out));
  }

  lemma {:induction false} DisplaySums(a: Queue, b: Queue)
    requires Display(a) == Display(b)
    ensures Sum(Shown, a) == Sum(Shown, b) && |a| == |b|
  {
    assert |a| == |Display(a)| == |Display(b)| == |b|;
    if a != [] {
      assert a[0].qty == Display(a)[0] == Display(b)[0] == b[0].qty;
      assert Display(a[1..]) == Display(a)[1..] == Display(b)[1..] == Display(b[1..]);
      DisplaySums(a[1..], b[1..]);
    }
  }

  /** Two engines with the same display have the same top of the book at every depth. */
  lemma SameTop(st: State, e: State, s: Side, max: nat, a: seq<LevelView>, b: seq<LevelView>)
    requires SameDisplay(st, e) && IsTop(s, st.Get(Resting(s)), st.min, max, a) &&
      IsTop(s, e.Get(Resting(s)), e.min, max, b)
    ensures a == b
  {
    var l, m := st.Get(Resting(s)), e.Get(Resting(s));
    forall i | 0 <= i < |l|
      ensures Sum(Shown, l[i]) == Sum(Shown, m[i]) && |l[i]| == |m[i]| { DisplaySums(l[i], m[i]); }
    assert IsTop(s, l, st.min, max, b) by {
      forall i | 0 <= i < |l| && l[i] != [] && !Listed(b, st.min + i)
        ensures |b| == max && forall k :: 0 <= k < |b| ==> Beats(s, b[k].price, st.min + i)
      {
        assert m[i] != [];
      }
    }
    TopIsUnique(s, l, st.min, max, a, b, 0);
  }

  // ---- the counterexample ---------------------------------------------

  /** A buy iceberg of 12 showing 5 at the top of the band, a sell of 5 at the bottom. */
  ghost predicate Lopsided(st: State) {
    && st.Indexed() && st.width == 4 && st.halted && st.last.None?
    && |Bids(st)[3]| == 1 && Bids(st)[0] == Bids(st)[1] == Bids(st)[2] == []
    && |Asks(st)[0]| == 1 && Asks(st)[1] == Asks(st)[2] == Asks(st)[3] == []
    && Bids(st)[3][0].qty == 5 && Bids(st)[3][0].reserve == 7 && Asks(st)[0][0].qty == 5 && Asks(st)[0][0].reserve == 0
  }

  lemma LopsidedClearsLow(st: State)
    requires Lopsided(st)
    ensures Overlaps(st) && st.BestTick(Buy) == 3 && st.BestTick(Sell) == 0
    ensures ClearingTick(st) == 0 && CrossQty(st) == 5
  {
    hide State.ListedAt, State.Bounded, Span;
    var b, a := st.BestTick(Buy), st.BestTick(Sell);
    assert Bids(st)[3] != [] && Asks(st)[0] != [];
    assert b == 3 && a == 0;
    var p := ClearingTick(st);
    ClearingIsOptimal(st, 0);
    SpanEmpty(Size, Bids(st), 0, 3);
    SpanEmpty(Size, Bids(st), 0, p);
    SpanSplit(Size, Bids(st), 0, p, 4);
    SpanEmpty(Size, Asks(st), 1, 4);
    SpanEmpty(Size, Asks(st), 1, p + 1);
    SpanSplit(Size, Asks(st), 0, 1, p + 1);
  }

  /** It clears at the bottom, the iceberg keeps 7, and its new clip is announced there. */
  lemma LopsidedMisleads(st: State)
    requires Lopsided(st)
    ensures !ClipsAtLimit(st)
  {
    hide State.ListedAt, State.Bounded, CrossStep, Moves, Agree, ClipsAtLimit, CrossLoop;
    LopsidedClearsLow(st);
    var bid, t := Bids(st)[3][0], CrossStep(st, 0);
    CrossStepMoves(st, 0);
    CrossStepShape(st, 0);
    CrossStepFrame(st, 0);
    LopsidedEnds(st);
    assert AfterCross(Bids(st)[3], 5)[0].id == bid.id;
    Locate(t, Resting(Buy), 3, 0);
    ClipReshows(bid, 5, Buy, st.min, bid.id);
    var clips, clips' := ClipNews(bid, 5, Buy, st.min), ClipNews(Asks(st)[0][0], 5, Sell, st.min);
    assert News(st, t) == [CrossTrade(st, 0)] + clips + clips';
    ReshowsAppend([CrossTrade(st, 0)] + clips, clips', bid.id);
    ReshowsAppend([CrossTrade(st, 0)], clips, bid.id);
    ClipsAtTick(st);
  }

  lemma LopsidedEnds(st: State)
    requires Lopsided(st) && Overlaps(st) && ClearingTick(st) == 0 && st.BestTick(Buy) == 3 && st.BestTick(Sell) == 0
    ensures Uncross(st).st == CrossStep(st, 0)
  {
    hide State.ListedAt, State.Bounded, CrossStep;
    CrossStepShape(st, 0);
    var t := CrossStep(st, 0);
    assert AfterCross(Asks(st)[0], CrossQty(st)) == [];
    assert t.BestTick(Sell) < 0;
    assert !Crossable(t, 0);
    assert Crossable(st, 0);
    assert CrossLoop(t, 0, CrossQty(st)).st == t;
  }

  /** An iceberg entered during a halt rests with its peak showing. */
  lemma HaltedIcebergRests(st: State, side: Side, tick: nat, qty: nat, display: nat)
    requires Valid(st) && st.halted && tick < st.width && qty > 0 && display > 0
    ensures Step(st, SubmitIceberg(side, st.min + tick, qty, display, GTC, 0, CancelTaker)).st ==
      Rest(Accept(st, side, st.min + tick, qty), st.nextId, side, tick, qty, Terms(0, CancelTaker, display))
  {
    hide State.ListedAt, StopsInBand;
    DoValid(st, SubmitIceberg(side, st.min + tick, qty, display, GTC, 0, CancelTaker));
  }

  const ICEBERG_12 := SubmitIceberg(Buy, 102, 12, 5, GTC, 0, CancelTaker)
  const SELL_5 := SubmitLimit(Sell, 99, 5, GTC, 0, CancelTaker)

  lemma LopsidedReached()
    ensures Valid(Fresh(99, 4))
    ensures var s1 := Fresh(99, 4).(halted := true);
      && Valid(s1) && Step(Fresh(99, 4), Halt).st == s1
      && Valid(Step(s1, ICEBERG_12).st) && Valid(Step(Step(s1, ICEBERG_12).st, SELL_5).st)
      && Lopsided(Step(Step(s1, ICEBERG_12).st, SELL_5).st)
  {
    hide State.ListedAt, State.Bounded, StopsInBand, Step, Rest, Best;
    FreshIsSafe(99, 4);
    var s1 := Fresh(99, 4).(halted := true);
    assert Bids(s1) == [[], [], [], []] && Asks(s1) == [[], [], [], []];
    HaltValid(Fresh(99, 4), true);
    HaltStep(Fresh(99, 4));
    StepValid(s1, ICEBERG_12);
    HaltedIcebergRests(s1, Buy, 3, 12, 5);
    RestBook(Accept(s1, Buy, 102, 12), 1, Buy, 3, 12, Terms(0, CancelTaker, 5));
    var s2 := Step(s1, ICEBERG_12).st;
    var o1 := Shape(1, 12, Terms(0, CancelTaker, 5));
    assert s2 == Rest(Accept(s1, Buy, 102, 12), 1, Buy, 3, 12, Terms(0, CancelTaker, 5));
    assert Bids(s2) == Bids(s1)[3 := Bids(s1)[3] + [o1]];
    assert Bids(s1)[3] + [o1] == [o1];
    StepValid(s2, SELL_5);
    EntryRests(s2, Sell, 0, 5, 0, CancelTaker);
    RestBook(Accept(s2, Sell, 99, 5), 2, Sell, 0, 5, Terms(0, CancelTaker, 0));
    var s3 := Step(s2, SELL_5).st;
    var o2 := Shape(2, 5, Terms(0, CancelTaker, 0));
    assert Asks(s3) == Asks(s1)[0 := Asks(s1)[0] + [o2]];
    assert Asks(s1)[0] + [o2] == [o2];
  }

  /** The unguarded round trip is false: after this run the consumer holds the iceberg's
      clip at 99 while the order stands at 102. */
  lemma AuctionBreaksFeed()
    ensures Valid(Fresh(99, 4))
    ensures !InStepThroughout(Fresh(99, 4), NEW_PUBLISHER, NewBuilder(99, 4), [Halt, ICEBERG_12, SELL_5, UncrossBook])
  {
    hide State.ListedAt, StopsInBand, Step, Lopsided, InStep, Publish;
    LopsidedReached();
    var s0 := Fresh(99, 4);
    var s1 := Step(s0, Halt).st;
    var s2 := Step(s1, ICEBERG_12).st;
    var s3 := Step(s2, SELL_5).st;
    LopsidedMisleads(s3);
    FreshIsSafe(99, 4);
    FreshInStep(99, 4);
    StepValid(s3, UncrossBook);
    OpsTail(s0, [Halt, ICEBERG_12, SELL_5, UncrossBook]);
    OpsTail(s1, [ICEBERG_12, SELL_5, UncrossBook]);
    OpsTail(s2, [SELL_5, UncrossBook]);
    OpsTail(s3, [UncrossBook]);
    RunMirrorsIff(s0, NEW_PUBLISHER, NewBuilder(99, 4), [Halt, ICEBERG_12, SELL_5, UncrossBook]);
  }

  lemma OpsTail(st: State, ops: seq<Op>)
    requires Valid(st) && ops != [] && Valid(Step(st, ops[0]).st)
    ensures ResumesUncrossed(st, ops) <==>
      (ops[0].Resume? ==> st.Uncrossed()) && ResumesUncrossed(Step(st, ops[0]).st, ops[1..])
    ensures AuctionsAtLimit(st, ops) <==>
      (ops[0].UncrossBook? ==> ClipsAtLimit(st)) && AuctionsAtLimit(Step(st, ops[0]).st, ops[1..])
  {}

  // ---- why resuming must find the book uncrossed ------------------------

  /** Continuous but crossed: an iceberg showing 1 offered below a bid, no stops. */
  ghost predicate Overhung(st: State) {
    && Valid(st) && NoStops(st) && !st.halted && st.width == 2
    && |st.Get(Resting(Sell))[0]| == 1 && st.Get(Resting(Sell))[0][0].qty == 1 &&
      st.Get(Resting(Sell))[0][0].reserve == 1
    && st.Get(Resting(Buy))[1] != []
  }

  const BUY_ONE := SubmitMarket(Buy, 1, 0, CancelTaker)

  /** What a market buy of one does there: one print, and the next clip shown. */
  lemma OverhungTrade(st: State)
    requires Overhung(st)
    ensures var t, o := Step(st, BUY_ONE).st, st.Get(Resting(Sell))[0][0];
      && t.tape == st.tape +
        [Accepted(st.nextId, Buy, 0, 1), Traded(st.nextId, o.id, st.min, 1, Buy), Rested(o.id, Sell, st.min, 1)]
      && t.last.Some?
  {
    hide State.ListedAt, StopsInBand, Pump;
    var a := Accept(st, Buy, 0, 1);
    var k := Sweeping(a, st.nextId, Buy, Terms(0, CancelTaker, 0));
    AcceptSteady(st, Buy, 0, 1);
    assert a.Get(Resting(Sell))[0] != [];
    assert Best(Sell, a.Get(Resting(Sell))) == 0;
    TurnFrame(a, k, 1);
    var r := TakeTurn(a, k, 1);
    GoShape(a, k, 1);
    assert Match(a, k, 1) == Sweep(r.st, 0, false);
    DoValid(st, BUY_ONE);
    NoStopsQuiet(r.st);
  }

  /** The consumer takes the execution for what it is, but its own crossed engine trades
      the clip shown next. */
  lemma OverhungMisleads(st: State, p: Publisher, b: Builder)
    requires Overhung(st) && InStep(st, p, b)
    ensures !InStep(Step(st, BUY_ONE).st, Publish(p, st, BUY_ONE), b)
  {
    hide State.ListedAt, StopsInBand, Step, Replay, Apply, Published, SameBook, Take;
    var o, l := st.Get(Resting(Sell))[0][0], Leave(st, Resting(Sell), 0, 0);
    OverhungTrade(st);
    StepValid(st, BUY_ONE);
    ShownIsReferenced(st, p, b, Sell, 0, 0);
    var m := Execute(p.refs[o.id].ref, 1);
    SyncedConsume(st, p, b, Sell, 0, 0, o, m);
    var p1 := Take(p.Send(m), o.id, 1);
    ThreeEvents(p, Accepted(st.nextId, Buy, 0, 1), Traded(st.nextId, o.id, st.min, 1, Buy),
      Rested(o.id, Sell, st.min, 1));
    var t := Step(st, BUY_ONE).st;
    assert t.tape[|st.tape|..] ==
      [Accepted(st.nextId, Buy, 0, 1), Traded(st.nextId, o.id, st.min, 1, Buy), Rested(o.id, Sell, st.min, 1)];
    assert Publish(p, st, BUY_ONE) == OnRest(p1, o.id, Sell, st.min, 1);
    Sent(b, p1, Add(p1.nextRef, Sell, 1, st.min));
    RebuiltTrades(l, p1, b, p1.nextRef);
  }

  lemma ThreeEvents(p: Publisher, e1: Event, e2: Event, e3: Event)
    ensures OnEvents(p, [e1, e2, e3]) == OnEvent(OnEvent(OnEvent(p, e1), e2), e3)
  {
    assert [e1, e2, e3] == [e1] + [e2, e3] && [e2, e3] == [e2] + [e3];
    OnEventsAppend(p, [e1], [e2, e3]);
    OneEvent(p, e1);
    OnEventsAppend(OnEvent(p, e1), [e2], [e3]);
    OneEvent(OnEvent(p, e1), e2);
    OneEvent(OnEvent(OnEvent(p, e1), e2), e3);
  }

  /** An Add across the rebuilt book's own bid trades there. */
  lemma RebuiltTrades(st: State, p: Publisher, b: Builder, ref: nat)
    requires st.Indexed() && Synced(st, p, b) && !st.halted && st.width == 2 && st.Get(Resting(Buy))[1] != []
    ensures Apply(Replay(b, p.out), Add(ref, Sell, 1, st.min)).engine.last.Some?
  {
    hide State.ListedAt, StopsInBand, Step, Replay, Published, SameBook;
    var e := Replay(b, p.out).engine;
    EmptyAlike(st, p.refs, Replay(b, p.out), Buy);
    CrossingEntryTrades(e, Sell, 0, 1);
  }

  const ICEBERG_2 := SubmitIceberg(Sell, 0, 2, 1, GTC, 0, CancelTaker)
  const BUY_1 := SubmitLimit(Buy, 1, 1, GTC, 0, CancelTaker)

  lemma OverhungReached() returns (s1: State, s2: State, s3: State, s4: State)
    ensures Valid(Fresh(0, 2)) && s1 == Step(Fresh(0, 2), Halt).st
    ensures Valid(s1) && s2 == Step(s1, ICEBERG_2).st
    ensures Valid(s2) && s3 == Step(s2, BUY_1).st
    ensures Valid(s3) && s4 == Step(s3, Resume).st && Overhung(s4)
  {
    hide State.ListedAt, StopsInBand, Step, Rest, Best;
    FreshIsSafe(0, 2);
    s1 := Fresh(0, 2).(halted := true);
    assert Asks(s1) == [[], []] && Bids(s1) == [[], []];
    HaltValid(Fresh(0, 2), true);
    HaltStep(Fresh(0, 2));
    StepValid(s1, ICEBERG_2);
    HaltedIcebergRests(s1, Sell, 0, 2, 1);
    RestBook(Accept(s1, Sell, 0, 2), 1, Sell, 0, 2, Terms(0, CancelTaker, 1));
    RestNoStops(Accept(s1, Sell, 0, 2), 1, Sell, 0, 2, Terms(0, CancelTaker, 1));
    s2 := Step(s1, ICEBERG_2).st;
    StepValid(s2, BUY_1);
    EntryRests(s2, Buy, 1, 1, 0, CancelTaker);
    RestBook(Accept(s2, Buy, 1, 1), 2, Buy, 1, 1, Terms(0, CancelTaker, 0));
    RestNoStops(Accept(s2, Buy, 1, 1), 2, Buy, 1, 1, Terms(0, CancelTaker, 0));
    s3 := Step(s2, BUY_1).st;
    HaltValid(s3, false);
    ResumeIdle(s3);
    s4 := s3.(halted := false);
  }

  lemma RestNoStops(st: State, id: nat, side: Side, tick: nat, qty: nat, t: Terms)
    requires st.Shaped() && tick < st.width && qty > 0 && NoStops(st)
    ensures NoStops(Rest(st, id, side, tick, qty, t))
  {}

  lemma ResumeIdle(st: State)
    requires Valid(st) && NoStops(st)
    ensures Step(st, Resume).st == st.(halted := false)
  {
    hide State.ListedAt, StopsInBand;
    HaltValid(st, false);
    NoStopsQuiet(st.(halted := false));
  }

  /** Resumed on a crossed book, the round trip fails with no auction at all: the rebuilt
      engine trades a replenished clip. */
  lemma CrossedResumeBreaksFeed()
    ensures Valid(Fresh(0, 2))
    ensures !InStepThroughout(Fresh(0, 2), NEW_PUBLISHER, NewBuilder(0, 2), [Halt, ICEBERG_2, BUY_1, Resume, BUY_ONE])
  {
    hide State.ListedAt, StopsInBand, Step, Publish, InStep, Overhung;
    var s0, b := Fresh(0, 2), NewBuilder(0, 2);
    var s1, s2, s3, s4 := OverhungReached();
    if InStepThroughout(s0, NEW_PUBLISHER, b, [Halt, ICEBERG_2, BUY_1, Resume, BUY_ONE]) {
      var p1 := ThroughoutTail(s0, NEW_PUBLISHER, b, [Halt, ICEBERG_2, BUY_1, Resume, BUY_ONE]);
      var p2 := ThroughoutTail(s1, p1, b, [ICEBERG_2, BUY_1, Resume, BUY_ONE]);
      var p3 := ThroughoutTail(s2, p2, b, [BUY_1, Resume, BUY_ONE]);
      var p4 := ThroughoutTail(s3, p3, b, [Resume, BUY_ONE]);
      var p5 := ThroughoutTail(s4, p4, b, [BUY_ONE]);
      OverhungMisleads(s4, p4, b);
    }
  }

  lemma ThroughoutTail(st: State, p: Publisher, b: Builder, ops: seq<Op>) returns (q: Publisher)
    requires Valid(st) && ops != [] && InStepThroughout(st, p, b, ops)
    ensures InStep(st, p, b) && q == Publish(p, st, ops[0])
    ensures Valid(Step(st, ops[0]).st) && InStepThroughout(Step(st, ops[0]).st, q, b, ops[1..])
    ensures InStep(Step(st, ops[0]).st, q, b)
  {
    hide State.ListedAt, StopsInBand, Step, Publish, InStep;
    StepValid(st, ops[0]);
    q := Publish(p, st, ops[0]);
  }
}
