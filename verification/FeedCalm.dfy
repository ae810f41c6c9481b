/** Which auctions keep the feed true, read off the book before they are called. */
module FeedCalm {
  import opened Types
  import opened Ladders
  import opened Book
  import opened Auction
  import opened Engine
  import opened Safety
  import opened Feed
  import opened FeedCross
  import opened FeedRuns
  import opened RoundTrip

  // ---- how deep the auction reaches -----------------------------------

  /** Size with priority over tick `i`. */
  function Before(l: Ladder, s: Side, i: nat): nat
    requires i < |l|
  {
    if s.Buy? then Span(Size, l, i + 1, |l|) else Span(Size, l, 0, i)
  }

  /** What clearing at `p` would take from tick `i` if the tick held enough; not positive
      when the auction does not get there. */
  function Reached(st: State, p: nat, s: Side, i: nat): int
    requires st.Shaped() && p < st.width && i < st.width
  {
    Executes(st, p) - Before(st.Get(Resting(s)), s, i)
  }

  /** What a level can lose with no iceberg showing another clip: the plain orders in
      front, and the displayed clip of the first iceberg. */
  function Sheltered(q: Queue): nat {
    if q == [] then 0 else if q[0].reserve > 0 then q[0].qty else q[0].qty + Sheltered(q[1..])
  }

  /** Taking `r` from the level uses it up, or disturbs no iceberg. */
  predicate CalmAt(q: Queue, r: int) { 0 < r < Sum(Size, q) ==> r < Sheltered(q) }

  /** Away from the clearing tick `p` the auction stops at no level in the middle of its icebergs. */
  predicate Calm(st: State, p: nat, s: Side)
    requires st.Shaped() && p < st.width
  {
    forall i :: 0 <= i < st.width && i != p ==> CalmAt(st.Get(Resting(s))[i], Reached(st, p, s, i))
  }

  /** What a caller can check before the uncross. */
  predicate CalmAuction(st: State)
    requires st.Shaped()
  {
    Overlaps(st) ==> Calm(st, ClearingTick(st), Buy) && Calm(st, ClearingTick(st), Sell)
  }

  lemma ShelterStep(q: Queue, f: nat)
    requires q != [] && 0 < f <= Size(q[0]) && f < Sheltered(q)
    ensures Sheltered(AfterCross(q, f)) == Sheltered(q) - f && Reshown(q[0], f).None?
  {
    if f < q[0].qty {
      assert AfterCross(q, f)[1..] == q[1..];
    } else {
      assert AfterCross(q, f) == q[1..];
    }
  }

  lemma BeforeBest(st: State, s: Side)
    requires st.Shaped() && st.BestTick(s) >= 0
    ensures Before(st.Get(Resting(s)), s, st.BestTick(s)) == 0
  {
    var l, b := st.Get(Resting(s)), st.BestTick(s);
    if s.Buy? { SpanEmpty(Size, l, b + 1, |l|); } else { SpanEmpty(Size, l, 0, b); }
  }

  lemma CrossableExecutes(st: State, p: nat)
    requires st.Shaped() && p < st.width
    ensures Executes(st, p) > 0 <==> Crossable(st, p)
    ensures Crossable(st, p) ==> Overlaps(st)
  {
    DemandPositive(st, p);
    SupplyPositive(st, p);
  }

  /** One print: the head of the best level loses its quantity, and so does what is left to execute. */
  lemma StepReached(st: State, p: nat, s: Side, i: nat)
    requires st.Shaped() && p < st.width && Crossable(st, p) && i < st.width
    ensures Overlaps(st)
    ensures var t, b, f := CrossStep(st, p), st.BestTick(s), CrossQty(st); var l := st.Get(Resting(s));
      && t.Shaped() && t.width == st.width && 0 <= b < st.width && l[b] != [] && f <= Size(l[b][0])
      && t.Get(Resting(s)) == l[b := AfterCross(l[b], f)]
      && Executes(t, p) == Executes(st, p) - f
      && Reached(st, p, s, b) == Executes(st, p)
      && (if i == b then Reached(t, p, s, i) == Reached(st, p, s, i) - f
          else l[i] != [] ==> Reached(t, p, s, i) == Reached(st, p, s, i))
  {
    hide CrossStep, AfterCross;
    CrossStepShape(st, p);
    CrossStepVolumes(st, p, p);
    BeforeBest(st, s);
    var l, b, f := st.Get(Resting(s)), st.BestTick(s), CrossQty(st);
    AfterCrossSize(l[b], f);
    SpanUpdate(Size, l, b, AfterCross(l[b], f), i + 1, st.width);
    SpanUpdate(Size, l, b, AfterCross(l[b], f), 0, i);
  }

  /** Level `i` after one print is still calm. */
  lemma CalmStepAt(st: State, p: nat, s: Side, i: nat)
    requires st.Shaped() && p < st.width && Crossable(st, p) && Calm(st, p, s) && i < st.width && i != p
    ensures CrossStep(st, p).Shaped() && CrossStep(st, p).width == st.width
    ensures CalmAt(CrossStep(st, p).Get(Resting(s))[i], Reached(CrossStep(st, p), p, s, i))
  {
    hide CrossStep, AfterCross, Reached, Sheltered, Best;
    StepReached(st, p, s, i);
    var l, b, f := st.Get(Resting(s)), st.BestTick(s), CrossQty(st);
    if i == b {
      AfterCrossSize(l[b], f);
      assert CalmAt(l[b], Reached(st, p, s, b));
      CrossableExecutes(CrossStep(st, p), p);
      if f < Sheltered(l[b]) { ShelterStep(l[b], f); }
    }
  }

  lemma CalmStep(st: State, p: nat, s: Side)
    requires st.Shaped() && p < st.width && Crossable(st, p) && Calm(st, p, s)
    ensures CrossStep(st, p).Shaped() && CrossStep(st, p).width == st.width && Calm(CrossStep(st, p), p, s)
  {
    hide CrossStep, CalmAt, Reached;
    CrossStepShape(st, p);
    forall i | 0 <= i < st.width && i != p
      ensures CalmAt(CrossStep(st, p).Get(Resting(s))[i], Reached(CrossStep(st, p), p, s, i))
    {
      CalmStepAt(st, p, s, i);
    }
  }

  // ---- the whole loop -------------------------------------------------

  /** Size at tick `i` or better. */
  function Through(st: State, s: Side, i: nat): nat
    requires st.Shaped() && i < st.width
  {
    if s.Buy? then Demand(st, i) else Supply(st, i)
  }

  lemma ThroughSplit(st: State, s: Side, i: nat)
    requires st.Shaped() && i < st.width
    ensures Through(st, s, i) == Before(st.Get(Resting(s)), s, i) + Sum(Size, st.Get(Resting(s))[i])
  {
    if s.Sell? { SpanSplit(Size, Asks(st), 0, i, i + 1); }
  }

  /** Tick `i` lies strictly on the crossing side of `p`. */
  predicate Inside(s: Side, p: nat, i: nat) { Beats(s, i, p) }

  /** The loop executes what both curves allow at `p`, and takes no more than that off any level. */
  lemma {:induction false} LoopTakes(st: State, p: nat, crossed: nat, s: Side, i: nat)
    requires st.Indexed() && p < st.width && i < st.width
    ensures var r := CrossLoop(st, p, crossed);
      && r.st.Indexed() && r.st.width == st.width && r.crossed == crossed + Executes(st, p)
      && Through(r.st, s, i) >= Through(st, s, i) - Executes(st, p)
      && (Inside(s, p, i) && Through(st, s, i) <= Executes(st, p) ==> Through(r.st, s, i) == 0)
    decreases Count(Bids(st)) + Count(Asks(st))
  {
    hide State.ListedAt, State.Bounded, CrossStep, Demand, Supply;
    CrossableExecutes(st, p);
    CrossLoopVolumes(st, p, crossed, p);
    DemandPositive(CrossLoop(st, p, crossed).st, p);
    SupplyPositive(CrossLoop(st, p, crossed).st, p);
    CrossLoopVolumes(st, p, crossed, i);
    if Crossable(st, p) {
      CrossStepShape(st, p);
      CrossStepFrame(st, p);
      CrossStepVolumes(st, p, i);
      CrossStepVolumes(st, p, p);
      LoopTakes(CrossStep(st, p), p, crossed + CrossQty(st), s, i);
    }
  }

  lemma EmptyAt(st: State, s: Side, i: nat, id: nat)
    requires st.Indexed() && i < st.width && Through(st, s, i) == 0
    ensures id in st.live ==> st.live[id] != Place(Resting(s), i)
  {
    ThroughSplit(st, s, i);
    assert st.Get(Resting(s))[i] == [];
    assert st.ListedAt(Place(Resting(s), i));
  }

  /** The head of a level away from `p` shows a clip only if the auction uses that level up. */
  lemma ShownIsSpent(st: State, p: nat, crossed: nat, s: Side)
    requires st.Indexed() && p < st.width && Crossable(st, p) && Calm(st, p, s) && st.BestTick(s) != p
    requires Overlaps(st) && Reshown(st.Get(Resting(s))[st.BestTick(s)][0], CrossQty(st)).Some?
    ensures CrossLoop(st, p, crossed).st.Indexed() && CrossLoop(st, p, crossed).st.width == st.width
    ensures Through(CrossLoop(st, p, crossed).st, s, st.BestTick(s)) == 0
  {
    hide State.ListedAt, State.Bounded, CrossStep, CrossLoop, Reached, Executes;
    var l, b, f := st.Get(Resting(s)), st.BestTick(s), CrossQty(st);
    StepReached(st, p, s, b);
    BeforeBest(st, s);
    ThroughSplit(st, s, b);
    LoopTakes(st, p, crossed, s, b);
    CrossableExecutes(st, p);
    assert CalmAt(l[b], Reached(st, p, s, b));
    if f < Sheltered(l[b]) { ShelterStep(l[b], f); }
    StillToExecute(st, p);
  }

  lemma StillToExecute(st: State, p: nat)
    requires st.Indexed() && p < st.width && Crossable(st, p)
    ensures Overlaps(st) && CrossQty(st) <= Executes(st, p)
  {
    hide State.ListedAt, State.Bounded, CrossStep;
    CrossableExecutes(st, p);
    CrossStepVolumes(st, p, p);
  }

  /** On a calm book, every clip shown of an order that survives is one at the clearing tick. */
  lemma {:induction false} CalmLoop(st: State, p: nat, crossed: nat, id: nat)
    requires st.Indexed() && p < st.width && Calm(st, p, Buy) && Calm(st, p, Sell)
    ensures var t := CrossLoop(st, p, crossed).st;
      && t.Indexed() && st.tape <= t.tape && OnlyBook(st, t)
      && (id in t.live && Reshows(News(st, t), id) ==> t.live[id].tick == p)
    decreases Count(Bids(st)) + Count(Asks(st))
  {
    hide State.ListedAt, State.Bounded, CrossStep, Calm, Reshows, Reshown;
    CrossLoopFrame(st, p, crossed);
    var t := CrossLoop(st, p, crossed).st;
    if Crossable(st, p) {
      CrossStepShape(st, p);
      CrossStepFrame(st, p);
      CalmStep(st, p, Buy);
      CalmStep(st, p, Sell);
      var u := CrossStep(st, p);
      CalmLoop(u, p, crossed + CrossQty(st), id);
      assert News(st, t) == News(st, u) + News(u, t);
      ReshowsAppend(News(st, u), News(u, t), id);
      StepReshows(st, p, id);
      HeadsDiffer(st, st.BestTick(Buy), st.BestTick(Sell));
      if Reshows(News(st, u), id) && id in t.live && t.live[id].tick != p {
        var s: Side := if id == Bids(st)[st.BestTick(Buy)][0].id then Buy else Sell;
        ShownIsSpent(st, p, crossed, s);
        EmptyAt(t, s, st.BestTick(s), id);
      }
    } else {
      assert News(st, t) == [];
      NothingReshown(id);
    }
  }

  /** A calm auction keeps every surviving clip at its own limit. */
  lemma CalmKeepsLimits(st: State)
    requires st.Indexed() && CalmAuction(st)
    ensures ClipsAtLimit(st)
  {
    hide State.ListedAt, State.Bounded, Calm, CrossLoop, Reshows, ClipsAtLimit;
    if Overlaps(st) {
      var p := ClearingTick(st);
      CrossKeepsTape(st);
      forall id ensures id in Uncross(st).st.live && Reshows(News(st, Uncross(st).st), id)
        ==> Uncross(st).st.live[id].tick == p
      {
        CalmLoop(st, p, 0, id);
      }
      ClipsAtTick(st);
    } else {
      NoNews(st);
    }
  }

  // ---- exact, where only the last order of the level it stops in hides size ----

  predicate IcebergLast(q: Queue) { forall k :: 0 <= k < |q| - 1 ==> q[k].reserve == 0 }

  lemma {:induction false} ShelteredAll(q: Queue)
    requires IcebergLast(q) && (q != [] ==> q[|q| - 1].reserve == 0)
    ensures Sheltered(q) == Sum(Size, q)
    decreases |q|
  {
    if q != [] { ShelteredAll(q[1..]); }
  }

  /** A plain head in front of the iceberg, or the iceberg's own clip, absorbs `f`. */
  lemma ShelterAbsorbs(q: Queue, f: nat)
    requires q != [] && IcebergLast(q) && 0 < f <= Size(q[0]) && (|q| > 1 || f < q[0].qty)
    ensures var t := AfterCross(q, f);
      && t != [] && IcebergLast(t) && t[|t| - 1].id == q[|q| - 1].id
      && Sheltered(t) == Sheltered(q) - f && Sum(Size, t) == Sum(Size, q) - f
  {
    AfterCrossSize(q, f);
    if f < q[0].qty {
      assert AfterCross(q, f)[1..] == q[1..];
    } else {
      assert AfterCross(q, f) == q[1..];
    }
  }

  /** The auction stops in the middle of the iceberg standing last at tick `i`. */
  predicate Disturbed(st: State, p: nat, s: Side, i: nat)
    requires st.Shaped() && p < st.width && i < st.width
  {
    var q := st.Get(Resting(s))[i];
    i != p && q != [] && IcebergLast(q) && 0 < Reached(st, p, s, i) < Sum(Size, q) &&
      Reached(st, p, s, i) >= Sheltered(q)
  }

  /** Until the iceberg is alone at the best level and its clip is spent, a print leaves
      the level disturbed. */
  lemma DisturbedStep(st: State, p: nat, s: Side, i: nat)
    requires st.Indexed() && p < st.width && i < st.width && Disturbed(st, p, s, i)
    ensures Crossable(st, p) && Overlaps(st)
    ensures var u, q := CrossStep(st, p), st.Get(Resting(s))[i]; var q' := u.Get(Resting(s))[i];
      || (i == st.BestTick(s) && |q| == 1 && CrossQty(st) >= q[0].qty && Executes(st, p) < Sum(Size, q))
      || (u.Shaped() && u.width == st.width && Disturbed(u, p, s, i) && q'[|q'| - 1].id == q[|q| - 1].id)
  {
    hide State.ListedAt, State.Bounded, CrossStep, Reached, AfterCross, Sheltered, Executes, Best;
    ReachedExecutes(st, p, s, i);
    CrossableExecutes(st, p);
    StepReached(st, p, s, i);
    var q, f := st.Get(Resting(s))[i], CrossQty(st);
    if i == st.BestTick(s) && (|q| > 1 || f < q[0].qty) {
      ShelterAbsorbs(q, f);
      ShelterPositive(AfterCross(q, f));
    }
  }

  lemma {:induction false} DisturbedShows(st: State, p: nat, crossed: nat, s: Side, i: nat)
    requires st.Indexed() && p < st.width && i < st.width && Disturbed(st, p, s, i)
    ensures var t, q := CrossLoop(st, p, crossed).st, st.Get(Resting(s))[i];
      && t.Indexed() && st.tape <= t.tape
      && q[|q| - 1].id in t.live && t.live[q[|q| - 1].id].tick == i && Reshows(News(st, t), q[|q| - 1].id)
    decreases Count(Bids(st)) + Count(Asks(st))
  {
    hide State.ListedAt, State.Bounded, CrossStep, Reshows, Reshown, Reached, Executes, Best, Sheltered, AfterCross,
      Overlaps, Crossable;
    var t, q, id := CrossLoop(st, p, crossed).st, st.Get(Resting(s))[i],
      st.Get(Resting(s))[i][|st.Get(Resting(s))[i]| - 1].id;
    CrossLoopFrame(st, p, crossed);
    DisturbedStep(st, p, s, i);
    CrossStepFrame(st, p);
    CrossStepShape(st, p);
    var u, f := CrossStep(st, p), CrossQty(st);
    CrossLoopFrame(u, p, crossed + f);
    assert News(st, t) == News(st, u) + News(u, t);
    ReshowsAppend(News(st, u), News(u, t), id);
    if i == st.BestTick(s) && |q| == 1 && f >= q[0].qty && Executes(st, p) < Sum(Size, q) {
      StepReshows(st, p, id);
      LastSurvives(st, p, crossed, s);
    } else {
      DisturbedShows(u, p, crossed + f, s, i);
    }
  }

  lemma ReachedExecutes(st: State, p: nat, s: Side, i: nat)
    requires st.Shaped() && p < st.width && i < st.width && Reached(st, p, s, i) > 0
    ensures Executes(st, p) > 0
  {}

  lemma ShelterPositive(q: Queue)
    requires q != []
    ensures Sheltered(q) > 0
  {}

  /** The one order of the best level, hit for more than its clip but less than its size,
      shows again and outlives the auction. */
  lemma LastSurvives(st: State, p: nat, crossed: nat, s: Side)
    requires st.Indexed() && p < st.width && Crossable(st, p) && st.BestTick(s) >= 0
    requires var q := st.Get(Resting(s))[st.BestTick(s)]; |q| == 1 && Executes(st, p) < Sum(Size, q)
    ensures Overlaps(st)
    ensures var t, q := CrossLoop(st, p, crossed).st, st.Get(Resting(s))[st.BestTick(s)];
      && t.Indexed() && q[0].id in t.live && t.live[q[0].id].tick == st.BestTick(s)
      && (CrossQty(st) >= q[0].qty ==> Reshown(q[0], CrossQty(st)).Some?)
  {
    hide State.ListedAt, State.Bounded, CrossStep, CrossLoop, Executes;
    var b, q := st.BestTick(s), st.Get(Resting(s))[st.BestTick(s)];
    StillToExecute(st, p);
    assert Sum(Size, q) == Size(q[0]) by { assert q[1..] == []; }
    LoopTakes(st, p, crossed, s, b);
    BeforeBest(st, s);
    ThroughSplit(st, s, b);
    OnlyOneStands(st, p, crossed, s);
  }

  lemma OnlyOneStands(st: State, p: nat, crossed: nat, s: Side)
    requires st.Indexed() && p < st.width && st.BestTick(s) >= 0 && |st.Get(Resting(s))[st.BestTick(s)]| == 1
    requires CrossLoop(st, p, crossed).st.Indexed() && CrossLoop(st, p, crossed).st.width == st.width
    requires Through(CrossLoop(st, p, crossed).st, s, st.BestTick(s)) > 0
    ensures var t, id := CrossLoop(st, p, crossed).st, st.Get(Resting(s))[st.BestTick(s)][0].id;
      id in t.live && t.live[id].tick == st.BestTick(s)
  {
    hide State.ListedAt, State.Bounded, CrossLoop;
    var t: State, b := CrossLoop(st, p, crossed).st, st.BestTick(s);
    CrossLoopFrame(st, p, crossed);
    StaysEmpty(st, t, s);
    ThroughSplit(t, s, b);
    assert t.Get(Resting(s))[b] != [];
    Locate(t, Resting(s), b, 0);
    OnlyTenant(st, s, b, t.Get(Resting(s))[b][0].id);
  }

  /** What was empty stays empty. */
  lemma StaysEmpty(st: State, t: State, s: Side)
    requires st.Shaped() && t.Shaped() && t.width == st.width && OnlyBook(st, t) && st.BestTick(s) >= 0
    ensures Before(t.Get(Resting(s)), s, st.BestTick(s)) == 0
  {
    var b, l := st.BestTick(s), t.Get(Resting(s));
    forall j | 0 <= j < st.width && Beats(s, j, b) ensures l[j] == [] { assert st.Get(Resting(s))[j] == []; }
    if s.Buy? { SpanEmpty(Size, l, b + 1, st.width); } else { SpanEmpty(Size, l, 0, b); }
  }

  lemma OnlyTenant(st: State, s: Side, i: nat, id: nat)
    requires st.Indexed() && i < st.width && |st.Get(Resting(s))[i]| == 1 && id in st.live &&
      st.live[id] == Place(Resting(s), i)
    ensures id == st.Get(Resting(s))[i][0].id
  {
    hide State.ListedAt;
    assert Seat(st, id) == 0;
  }

  /** The calm condition is exact unless the auction stops in the middle of the icebergs of
      a level that has one standing before its last order. */
  lemma CalmIff(st: State)
    requires st.Indexed()
    requires Overlaps(st) ==> forall s: Side, i :: 0 <= i < st.width && i != ClearingTick(st) ==>
      var q, r := st.Get(Resting(s))[i], Reached(st, ClearingTick(st), s, i);
      0 < r && Sheltered(q) <= r < Sum(Size, q) ==> IcebergLast(q)
    ensures ClipsAtLimit(st) <==> CalmAuction(st)
  {
    hide State.ListedAt, State.Bounded, CrossLoop, Reshows, ClipsAtLimit, Reached, Sheltered;
    if CalmAuction(st) {
      CalmKeepsLimits(st);
    } else {
      var p := ClearingTick(st);
      var s: Side := if Calm(st, p, Buy) then Sell else Buy;
      var i :| 0 <= i < st.width && i != p && !CalmAt(st.Get(Resting(s))[i], Reached(st, p, s, i));
      CrossKeepsTape(st);
      DisturbedShows(st, p, 0, s, i);
      ClipsAtTick(st);
    }
  }

  // ---- runs -----------------------------------------------------------

  /** Every uncross of the run is called on a calm book. */
  predicate AuctionsCalm(st: State, ops: seq<Op>)
    requires Valid(st)
    decreases |ops|
  {
    ops == [] ||
    (StepValid(st, ops[0]);
     (ops[0].UncrossBook? ==> CalmAuction(st)) && AuctionsCalm(Step(st, ops[0]).st, ops[1..]))
  }

  lemma {:induction false} CalmRun(st: State, ops: seq<Op>)
    requires Valid(st) && AuctionsCalm(st, ops)
    ensures AuctionsAtLimit(st, ops)
    decreases |ops|
  {
    hide State.ListedAt, StopsInBand, Step, CalmAuction, ClipsAtLimit;
    if ops != [] {
      StepValid(st, ops[0]);
      if ops[0].UncrossBook? { CalmKeepsLimits(st); }
      CalmRun(Step(st, ops[0]).st, ops[1..]);
    }
  }

  /** The round trip under conditions a caller can check before each call: resume on
      uncrossed books, uncross on calm ones. */
  lemma CalmRoundTrips(min: int, width: nat, ops: seq<Op>)
    requires width > 0 && Valid(Fresh(min, width))
    requires ResumesUncrossed(Fresh(min, width), ops) && AuctionsCalm(Fresh(min, width), ops)
    ensures Feed.BuilderValid(NewBuilder(min, width))
    ensures var e := Replay(NewBuilder(min, width), PublishRun(NEW_PUBLISHER, Fresh(min, width), ops).out).engine;
      SameDisplay(Run(Fresh(min, width), ops), e) && e.last.None?
  {
    hide State.ListedAt, StopsInBand, Replay, Run, PublishRun, ResumesUncrossed, AuctionsAtLimit, AuctionsCalm,
      SameDisplay;
    CalmRun(Fresh(min, width), ops);
    RoundTrips(min, width, ops);
  }
}
