/** How far a sweep gets, predicted from the book alone; fill-or-kill feasibility. */
module Reach {
  import opened Types
  import opened Ladders
  import opened Book
  import opened Matching
  import opened SweepLaws

  // ---- one queue ------------------------------------------------------

  /** Self-trade prevention will stop the taker somewhere in this queue. */
  predicate Blocked(q: Queue, k: Taker) {
    q != [] && (k.StoppedBy(q[0]) || Blocked(q[1..], k))
  }

  /** Displayed quantity ahead of the first order that stops the taker. */
  function ShownAhead(q: Queue, k: Taker): nat {
    if q == [] || k.StoppedBy(q[0]) then 0 else q[0].qty + ShownAhead(q[1..], k)
  }

  /** A replenished clip re-queues behind the blocking order, so reserve in front
      of it is out of reach; without one the whole free size is executable. */
  function QueueReach(q: Queue, k: Taker): nat {
    if Blocked(q, k) then ShownAhead(q, k) else Sum(FreeSize(k), q)
  }

  lemma {:induction false} BlockedAppend(a: Queue, b: Queue, k: Taker)
    ensures Blocked(a + b, k) <==> Blocked(a, k) || Blocked(b, k)
    ensures ShownAhead(a + b, k) == ShownAhead(a, k) + (if Blocked(a, k) then 0 else ShownAhead(b, k))
  {
    if a == [] {
      assert a + b == b;
    } else {
      assert (a + b)[1..] == a[1..] + b;
      BlockedAppend(a[1..], b, k);
    }
  }

  lemma TurnQueueReach(q: Queue, k: Taker, qty: nat)
    requires q != [] && qty > 0 && !k.StoppedBy(q[0])
    ensures Blocked(TurnQueue(q, k, qty), k) == Blocked(q, k)
    ensures QueueReach(TurnQueue(q, k, qty), k) + (if k.Own(q[0]) then 0 else Min(qty, q[0].qty)) == QueueReach(q, k)
  {
    QueueConserves(q, k, qty);
    var f := Min(qty, q[0].qty);
    if k.Own(q[0]) {
      NeverBlocked(q, k);
      NeverBlocked(TurnQueue(q, k, qty), k);
    } else if f < q[0].qty {
      assert TurnQueue(q, k, qty)[1..] == q[1..];
    } else if q[0].reserve > 0 {
      BlockedAppend(q[1..], [Reload(q[0])], k);
    } else {
      assert TurnQueue(q, k, qty) == q[1..];
    }
  }

  lemma {:induction false} NeverBlocked(q: Queue, k: Taker)
    requires k.stp.CancelMaker? || k.owner == 0
    ensures !Blocked(q, k)
  {
    if q != [] { NeverBlocked(q[1..], k); }
  }

  // ---- the whole side, best level first -------------------------------

  /** The tick with `r` ticks ahead of it in priority on side `s`. */
  function TickAt(s: Side, n: nat, r: nat): nat
    requires r < n
  {
    if s.Buy? then n - 1 - r else r
  }

  /** How many ticks of an `n`-tick side lie within the taker's limit. */
  function Depth(k: Taker, n: nat): (d: nat)
    ensures d <= n
  {
    var d := if k.side.Buy? then k.limit + 1 else n - k.limit;
    if d < 0 then 0 else if d > n then n else d
  }

  function ReachFrom(l: Ladder, k: Taker, r: nat, d: nat): nat
    requires r <= d <= |l|
    decreases d - r
  {
    if r == d then 0
    else
      var q := l[TickAt(k.Against(), |l|, r)];
      QueueReach(q, k) + if Blocked(q, k) then 0 else ReachFrom(l, k, r + 1, d)
  }

  predicate WalledFrom(l: Ladder, k: Taker, r: nat, d: nat)
    requires r <= d <= |l|
    decreases d - r
  {
    r < d && (Blocked(l[TickAt(k.Against(), |l|, r)], k) || WalledFrom(l, k, r + 1, d))
  }

  /** What the taker can execute, and whether self-trade prevention bounds it. */
  function Executable(st: State, k: Taker): nat {
    var l := st.Get(k.Shelf());
    ReachFrom(l, k, 0, Depth(k, |l|))
  }

  predicate Walled(st: State, k: Taker) {
    var l := st.Get(k.Shelf());
    WalledFrom(l, k, 0, Depth(k, |l|))
  }

  lemma {:induction false} SkipEmpty(l: Ladder, k: Taker, r: nat, r2: nat, d: nat)
    requires r <= r2 <= d <= |l|
    requires forall j :: r <= j < r2 ==> l[TickAt(k.Against(), |l|, j)] == []
    ensures ReachFrom(l, k, r, d) == ReachFrom(l, k, r2, d)
    ensures WalledFrom(l, k, r, d) == WalledFrom(l, k, r2, d)
    decreases r2 - r
  {
    if r < r2 {
      assert l[TickAt(k.Against(), |l|, r)] == [];
      SkipEmpty(l, k, r + 1, r2, d);
    }
  }

  lemma {:induction false} ReachSame(l: Ladder, m: Ladder, k: Taker, r: nat, d: nat)
    requires r <= d <= |l| && |m| == |l|
    requires forall j :: r <= j < d ==> l[TickAt(k.Against(), |l|, j)] == m[TickAt(k.Against(), |l|, j)]
    ensures ReachFrom(l, k, r, d) == ReachFrom(m, k, r, d)
    ensures WalledFrom(l, k, r, d) == WalledFrom(m, k, r, d)
    decreases d - r
  {
    if r < d { ReachSame(l, m, k, r + 1, d); }
  }

  function RankOf(s: Side, n: nat, t: nat): nat
    requires t < n
  {
    if s.Buy? then n - 1 - t else t
  }

  lemma BestRank(l: Ladder, k: Taker, j: nat)
    requires 0 <= Best(k.Against(), l) && k.Reaches(Best(k.Against(), l))
    ensures RankOf(k.Against(), |l|, Best(k.Against(), l)) < Depth(k, |l|)
    ensures j < RankOf(k.Against(), |l|, Best(k.Against(), l)) ==> l[TickAt(k.Against(), |l|, j)] == []
  {
    if j < RankOf(k.Against(), |l|, Best(k.Against(), l)) {
      assert Beats(k.Against(), TickAt(k.Against(), |l|, j), Best(k.Against(), l));
    }
  }

  lemma ReachUnfolds(l: Ladder, k: Taker, r: nat, d: nat)
    requires r < d <= |l|
    requires forall j :: 0 <= j < r ==> l[TickAt(k.Against(), |l|, j)] == []
    ensures var q := l[TickAt(k.Against(), |l|, r)];
            && ReachFrom(l, k, 0, d) == QueueReach(q, k) + (if Blocked(q, k) then 0 else ReachFrom(l, k, r + 1, d))
            && (WalledFrom(l, k, 0, d) <==> Blocked(q, k) || WalledFrom(l, k, r + 1, d))
  {
    SkipEmpty(l, k, 0, r, d);
  }

  /** Replacing the best queue changes the reach by what changes in that queue. */
  lemma ReachAtBest(l: Ladder, k: Taker, b: nat, q: Queue)
    requires b == Best(k.Against(), l) && k.Reaches(b)
    requires Blocked(q, k) == Blocked(l[b], k)
    ensures var d := Depth(k, |l|);
            && ReachFrom(l[b := q], k, 0, d) + QueueReach(l[b], k) == ReachFrom(l, k, 0, d) + QueueReach(q, k)
            && WalledFrom(l[b := q], k, 0, d) == WalledFrom(l, k, 0, d)
            && (Blocked(l[b], k) ==> WalledFrom(l, k, 0, d) && ReachFrom(l, k, 0, d) == QueueReach(l[b], k))
  {
    hide Depth, Blocked, QueueReach, ReachFrom, WalledFrom;
    var d := Depth(k, |l|);
    var r := RankOf(k.Against(), |l|, b);
    var m := l[b := q];
    BestRank(l, k, 0);
    forall j | 0 <= j < r
      ensures l[TickAt(k.Against(), |l|, j)] == [] && m[TickAt(k.Against(), |l|, j)] == []
    {
      BestRank(l, k, j);
    }
    ReachUnfolds(l, k, r, d);
    ReachUnfolds(m, k, r, d);
    ReachSame(l, m, k, r + 1, d);
  }

  lemma NothingInReach(l: Ladder, k: Taker)
    requires Best(k.Against(), l) < 0 || !k.Reaches(Best(k.Against(), l))
    ensures ReachFrom(l, k, 0, Depth(k, |l|)) == 0 && !WalledFrom(l, k, 0, Depth(k, |l|))
  {
    var d := Depth(k, |l|);
    forall j | 0 <= j < d ensures l[TickAt(k.Against(), |l|, j)] == [] {
      assert k.Reaches(TickAt(k.Against(), |l|, j));
    }
    SkipEmpty(l, k, 0, d, d);
  }

  /** The sweep executes exactly what is in reach, capped by its quantity, and is
      halted exactly when it wants more than the wall lets through. */
  lemma {:induction false} MatchReaches(st: State, k: Taker, qty: nat)
    ensures Match(st, k, qty).left == qty - Min(qty, Executable(st, k))
    ensures Match(st, k, qty).halt <==> Walled(st, k) && qty > Executable(st, k)
    decreases qty, Count(st.Get(k.Shelf()))
  {
    var l := st.Get(k.Shelf());
    var b := Best(k.Against(), l);
    var r := TakeTurn(st, k, qty);
    if b < 0 || !k.Reaches(b) {
      NothingInReach(l, k);
    } else if r.Go? {
      GoShape(st, k, qty);
      TurnQueueReach(l[b], k, qty);
      ReachAtBest(l, k, b, TurnQueue(l[b], k, qty));
      MatchReaches(r.st, k, r.left);
    } else if r.halt {
      ReachAtBest(l, k, b, l[b]);
    }
  }

  // ---- fill-or-kill ---------------------------------------------------

  /** Size priced at or better than the limit: what the feasibility check adds up. */
  function Fillable(st: State, side: Side, price: int): nat
    requires st.InBand(price) && |st.Get(Resting(side.Opposite()))| == st.width
  {
    var l := st.Get(Resting(side.Opposite()));
    if side.Buy? then Span(Size, l, 0, st.Tick(price) + 1) else Span(Size, l, st.Tick(price), |l|)
  }

  /** Without an order of the taker's own in reach, the reach is the plain total. */
  lemma {:induction false} ReachIsSpan(l: Ladder, k: Taker, r: nat, d: nat)
    requires r <= d <= |l|
    requires forall j :: r <= j < d ==> NoneOwn(l[TickAt(k.Against(), |l|, j)], k)
    ensures ReachFrom(l, k, r, d) ==
            if k.side.Buy? then Span(Size, l, r, d) else Span(Size, l, |l| - d, |l| - r)
    ensures !WalledFrom(l, k, r, d)
    decreases d - r
  {
    if r < d {
      var t := TickAt(k.Against(), |l|, r);
      assert NoneOwn(l[t], k);
      AllFree(l[t], k);
      ReachIsSpan(l, k, r + 1, d);
      if k.side.Sell? { SpanSplit(Size, l, |l| - d, t, |l| - r); }
    }
  }

  predicate NoneOwn(q: Queue, k: Taker) { forall j :: 0 <= j < |q| ==> !k.Own(q[j]) }

  lemma {:induction false} AllFree(q: Queue, k: Taker)
    requires NoneOwn(q, k)
    ensures !Blocked(q, k) && Sum(FreeSize(k), q) == Sum(Size, q)
  {
    if q != [] { AllFree(q[1..], k); }
  }

  /** The feasibility check agrees with what the sweep can execute whenever no
      order within the limit belongs to the taker's owner. */
  lemma FillableIsExecutable(st: State, k: Taker)
    requires st.Shaped() && 0 <= k.limit < st.width
    requires forall i :: 0 <= i < st.width && k.Reaches(i) ==> NoneOwn(st.Get(k.Shelf())[i], k)
    ensures Executable(st, k) == Fillable(st, k.side, st.min + k.limit) && !Walled(st, k)
  {
    var l := st.Get(k.Shelf());
    ReachIsSpan(l, k, 0, Depth(k, |l|));
  }

  // ---- price-time priority --------------------------------------------

  /** Total traded by resting order `id` on a stretch of tape. */
  function TradedBy(tape: seq<Event>, id: nat): nat {
    if tape == [] then 0
    else (if tape[0].Traded? && tape[0].maker == id then tape[0].qty else 0) + TradedBy(tape[1..], id)
  }

  lemma {:induction false} TradedByAppend(a: seq<Event>, b: seq<Event>, id: nat)
    ensures TradedBy(a + b, id) == TradedBy(a, id) + TradedBy(b, id)
  {
    if a == [] {
      assert a + b == b;
    } else {
      assert (a + b)[1..] == a[1..] + b;
      TradedByAppend(a[1..], b, id);
    }
  }

  /** Everything the order displayed has traded; the taker's own is cancelled instead. */
  ghost predicate Served(tape: seq<Event>, k: Taker, x: Order) {
    if k.Own(x) then Cancelled(x.id) in tape else TradedBy(tape, x.id) >= x.qty
  }

  /** A seat on the opposite side of the book: tick and position in its queue. */
  datatype Seating = Seating(tick: nat, pos: nat)

  predicate Seated(l: Ladder, x: Seating) { x.tick < |l| && x.pos < |l[x.tick]| }

  function At(l: Ladder, x: Seating): Order
    requires Seated(l, x)
  {
    l[x.tick][x.pos]
  }

  /** Better price, or same price and earlier in the queue. */
  predicate Ahead(s: Side, x: Seating, y: Seating) {
    Beats(s, x.tick, y.tick) || (x.tick == y.tick && x.pos < y.pos)
  }

  lemma SeatsDistinct(st: State, s: Shelf, x: Seating, y: Seating)
    requires st.Indexed() && Seated(st.Get(s), x) && Seated(st.Get(s), y) && x != y
    ensures At(st.Get(s), x).id != At(st.Get(s), y).id
  {
    assert st.ListedAt(Place(s, x.tick)) && st.ListedAt(Place(s, y.tick));
    IdAt(st.Get(s)[x.tick], x.pos);
    IdAt(st.Get(s)[y.tick], y.pos);
  }

  /** Where a seat behind the head of tick `b` ends up after the turn. */
  function Shifted(l: Ladder, m: Ladder, b: nat, x: Seating): Seating
    requires b < |l| && b < |m| && l[b] != []
  {
    if x.tick == b && x.pos > 0 && (m[b] == [] || m[b][0].id != l[b][0].id) then x.(pos := x.pos - 1) else x
  }

  lemma ShiftedKeepsOrder(st: State, k: Taker, qty: nat, x: Seating)
    requires st.Indexed() && TakeTurn(st, k, qty).Go?
    requires Seated(st.Get(k.Shelf()), x) && x != Seating(Best(k.Against(), st.Get(k.Shelf())), 0)
    ensures 0 <= Best(k.Against(), st.Get(k.Shelf())) < |st.Get(k.Shelf())|
    ensures st.Get(k.Shelf())[Best(k.Against(), st.Get(k.Shelf()))] != []
    ensures |TakeTurn(st, k, qty).st.Get(k.Shelf())| == |st.Get(k.Shelf())|
    ensures var m := TakeTurn(st, k, qty).st.Get(k.Shelf());
            var x' := Shifted(st.Get(k.Shelf()), m, Best(k.Against(), st.Get(k.Shelf())), x);
            Seated(m, x') && At(m, x') == At(st.Get(k.Shelf()), x)
  {
    GoShape(st, k, qty);
    var l := st.Get(k.Shelf());
    var b := Best(k.Against(), l);
    if x.tick == b { SeatsDistinct(st, k.Shelf(), x, Seating(b, 0)); }
    if |l[b]| > 1 { SeatsDistinct(st, k.Shelf(), Seating(b, 1), Seating(b, 0)); }
  }

  /** Before `y` trades, everything that was displayed ahead of it has been served. */
  lemma {:induction false} TimePriority(st: State, k: Taker, qty: nat, x: Seating, y: Seating, n: nat)
    requires st.Indexed()
    requires Seated(st.Get(k.Shelf()), x) && Seated(st.Get(k.Shelf()), y) && Ahead(k.Against(), x, y)
    requires |st.tape| <= n < |Match(st, k, qty).st.tape|
    requires var e := Match(st, k, qty).st.tape[n]; e.Traded? && e.maker == At(st.Get(k.Shelf()), y).id
    ensures Served(Match(st, k, qty).st.tape[|st.tape|..n], k, At(st.Get(k.Shelf()), x))
    decreases qty, Count(st.Get(k.Shelf()))
  {
    hide State.Indexed, TakeTurn;
    var r := TakeTurn(st, k, qty);
    var l := st.Get(k.Shelf());
    var tape := Match(st, k, qty).st.tape;
    if r.Done? {
      DoneShape(st, k, qty);
    } else {
      GoShape(st, k, qty);
      TurnFrame(st, k, qty);
      MatchFrame(r.st, k, r.left);
      var b := Best(k.Against(), l);
      var head := Seating(b, 0);
      assert l[x.tick] != [];
      assert y != head;
      SeatsDistinct(st, k.Shelf(), y, head);
      assert tape[|st.tape|] == TurnNews(st, k, qty, b)[0];
      assert n > |st.tape|;
      if x == head {
        HeadServed(st, k, qty, n);
      } else {
        ShiftedKeepsOrder(st, k, qty, x);
        ShiftedKeepsOrder(st, k, qty, y);
        var m := r.st.Get(k.Shelf());
        var x', y' := Shifted(l, m, b, x), Shifted(l, m, b, y);
        TimePriority(r.st, k, r.left, x', y', n);
        assert tape[|st.tape|..n] == TurnNews(st, k, qty, b) + tape[|r.st.tape|..n];
        TradedByAppend(TurnNews(st, k, qty, b), tape[|r.st.tape|..n], At(l, x).id);
      }
    }
  }

  lemma HeadServed(st: State, k: Taker, qty: nat, n: nat)
    requires st.Indexed() && TakeTurn(st, k, qty).Go?
    requires |st.tape| < n < |Match(st, k, qty).st.tape| && Match(st, k, qty).st.tape[n].Traded?
    ensures 0 <= Best(k.Against(), st.Get(k.Shelf())) < |st.Get(k.Shelf())|
    ensures st.Get(k.Shelf())[Best(k.Against(), st.Get(k.Shelf()))] != []
    ensures Served(Match(st, k, qty).st.tape[|st.tape|..n], k,
                   st.Get(k.Shelf())[Best(k.Against(), st.Get(k.Shelf()))][0])
  {
    hide State.Indexed, TakeTurn;
    GoShape(st, k, qty);
    var r := TakeTurn(st, k, qty);
    TurnFrame(st, k, qty);
    MatchFrame(r.st, k, r.left);
    var b := Best(k.Against(), st.Get(k.Shelf()));
    var o := st.Get(k.Shelf())[b][0];
    var tape := Match(st, k, qty).st.tape;
    var part := tape[|st.tape|..n];
    assert part[0] == tape[|st.tape|] == TurnNews(st, k, qty, b)[0];
    if !k.Own(o) && Min(qty, o.qty) < o.qty {
      FilledStops(r.st, k);
    }
  }

  lemma FilledStops(st: State, k: Taker)
    ensures Match(st, k, 0).st == st
  {}

  // ---- replenished clips ----------------------------------------------

  /** An order that is not resting trades nothing. */
  lemma {:induction false} GoneTradesNothing(st: State, k: Taker, qty: nat, id: nat, n: nat)
    requires st.Indexed() && id !in st.live && |st.tape| <= n <= |Match(st, k, qty).st.tape|
    ensures TradedBy(Match(st, k, qty).st.tape[|st.tape|..n], id) == 0
    decreases n
  {
    hide State.Indexed, TakeTurn, FairPrint, Match;
    var part := Match(st, k, qty).st.tape[|st.tape|..n];
    if part != [] {
      GoneTradesNothing(st, k, qty, id, n - 1);
      var e := Match(st, k, qty).st.tape[n - 1];
      assert part == Match(st, k, qty).st.tape[|st.tape|..n - 1] + [e];
      TradedByAppend(part[..|part| - 1], [e], id);
      if e.Traded? && e.maker == id { NotOffered(st, k, qty, n - 1); }
    }
  }

  lemma NotOffered(st: State, k: Taker, qty: nat, n: nat)
    requires st.Indexed() && |st.tape| <= n < |Match(st, k, qty).st.tape|
    requires Match(st, k, qty).st.tape[n].Traded?
    ensures Match(st, k, qty).st.tape[n].maker in st.live
  {
    hide TakeTurn, Match;
    MatchPrintsFairly(st, k, qty, n);
    var e := Match(st, k, qty).st.tape[n];
    var q := st.Get(k.Shelf())[e.price - st.min];
    var j :| 0 <= j < |q| && q[j].id == e.maker;
    IdAt(q, j);
    assert st.ListedAt(Place(k.Shelf(), e.price - st.min));
  }

  /** The head of the best level after a turn that took all it displayed: at the back
      with its next clip, or no longer live. */
  lemma HeadAfterTurn(st: State, k: Taker, qty: nat, o: Order)
    requires st.Indexed() && TakeTurn(st, k, qty).Go?
    requires var l := st.Get(k.Shelf()); var b := Best(k.Against(), l); b >= 0 && l[b] != [] && o == l[b][0]
    requires k.Own(o) || qty >= o.qty
    ensures var l, m := st.Get(k.Shelf()), TakeTurn(st, k, qty).st.Get(k.Shelf()); var b := Best(k.Against(), l);
      |m| == |l| &&
      if !k.Own(o) && o.reserve > 0 then Seated(m, Seating(b, |l[b]| - 1)) && At(m, Seating(b, |l[b]| - 1)) == Reload(o)
      else o.id !in TakeTurn(st, k, qty).st.live
  {
    hide State.Indexed;
    GoShape(st, k, qty);
  }

  /** What the head of the best level trades in this turn. */
  function TurnFill(st: State, k: Taker, qty: nat): nat
    requires TakeTurn(st, k, qty).Go?
  {
    qty - TakeTurn(st, k, qty).left
  }

  /** The best order of the side the taker works on. */
  function Head(st: State, k: Taker): Order
    requires Best(k.Against(), st.Get(k.Shelf())) >= 0
  {
    st.Get(k.Shelf())[Best(k.Against(), st.Get(k.Shelf()))][0]
  }

  /** A stretch of tape that starts with a turn: its event, then what the rest of the sweep prints. */
  lemma TurnThenRest(st: State, k: Taker, qty: nat, n: nat, id: nat)
    requires st.Indexed() && TakeTurn(st, k, qty).Go?
    requires |st.tape| < n < |Match(st, k, qty).st.tape| && Match(st, k, qty).st.tape[n].Traded?
    ensures Best(k.Against(), st.Get(k.Shelf())) >= 0
    ensures var r := TakeTurn(st, k, qty); var tape := Match(st, k, qty).st.tape; var o := Head(st, k);
      && r.st.Indexed() && |st.tape| < |r.st.tape| <= n && Match(st, k, qty) == Match(r.st, k, r.left)
      && (k.Own(o) || qty >= o.qty)
      && TradedBy(tape[|st.tape|..n], id) == (if id == o.id then TurnFill(st, k, qty) else 0) +
        TradedBy(tape[|r.st.tape|..n], id)
      && (Cancelled(id) in tape[|r.st.tape|..n] ==> Cancelled(id) in tape[|st.tape|..n])
      && (id == o.id && k.Own(o) ==> Cancelled(id) in tape[|st.tape|..n])
  {
    hide State.Indexed, TakeTurn;
    GoShape(st, k, qty);
    TurnFrame(st, k, qty);
    var r := TakeTurn(st, k, qty);
    MatchFrame(r.st, k, r.left);
    var tape := Match(st, k, qty).st.tape;
    var news := TurnNews(st, k, qty, Best(k.Against(), st.Get(k.Shelf())));
    assert tape[|st.tape|] == news[0] && tape[|r.st.tape| - 1] == news[|news| - 1];
    assert tape[|st.tape|..n] == news + tape[|r.st.tape|..n];
    assert news[0] in tape[|st.tape|..n];
    TradedByAppend(news, tape[|r.st.tape|..n], id);
    if !k.Own(Head(st, k)) && qty < Head(st, k).qty { FilledStops(r.st, k); }
  }

  /** The first event of a continuing sweep concerns the head of the best level. */
  lemma FirstIsHead(st: State, k: Taker, qty: nat)
    requires st.Indexed() && TakeTurn(st, k, qty).Go?
    ensures Best(k.Against(), st.Get(k.Shelf())) >= 0 && |st.tape| < |Match(st, k, qty).st.tape|
    ensures var e := Match(st, k, qty).st.tape[|st.tape|];
      e.Traded? ==> e.maker == Head(st, k).id && e.price == st.min + Best(k.Against(), st.Get(k.Shelf()))
  {
    hide State.Indexed, TakeTurn;
    GoShape(st, k, qty);
    TurnFrame(st, k, qty);
    var r := TakeTurn(st, k, qty);
    MatchFrame(r.st, k, r.left);
    assert Match(st, k, qty).st.tape[|st.tape|] == TurnNews(st, k, qty, Best(k.Against(), st.Get(k.Shelf())))[0];
  }

  lemma DonePrintsNothing(st: State, k: Taker, qty: nat, n: nat)
    requires |st.tape| <= n < |Match(st, k, qty).st.tape| && Match(st, k, qty).st.tape[n].Traded?
    ensures TakeTurn(st, k, qty).Go?
  {
    if TakeTurn(st, k, qty).Done? { DoneShape(st, k, qty); }
  }

  /** Before a replenished clip trades, everything its level displayed behind the first
      clip has been served. */
  lemma {:induction false} ClipsRequeue(st: State, k: Taker, qty: nat, x: Seating, y: Seating, n: nat)
    requires st.Indexed()
    requires Seated(st.Get(k.Shelf()), x) && Seated(st.Get(k.Shelf()), y) && x.tick == y.tick && x.pos < y.pos
    requires |st.tape| <= n < |Match(st, k, qty).st.tape|
    requires var e := Match(st, k, qty).st.tape[n]; e.Traded? && e.maker == At(st.Get(k.Shelf()), x).id
    requires TradedBy(Match(st, k, qty).st.tape[|st.tape|..n], At(st.Get(k.Shelf()), x).id) >=
      At(st.Get(k.Shelf()), x).qty
    ensures Served(Match(st, k, qty).st.tape[|st.tape|..n], k, At(st.Get(k.Shelf()), y))
    decreases qty, Count(st.Get(k.Shelf()))
  {
    hide State.Indexed, TakeTurn, Match;
    DonePrintsNothing(st, k, qty, n);
    var r := TakeTurn(st, k, qty);
    var l := st.Get(k.Shelf());
    var b := Best(k.Against(), l);
    FirstIsHead(st, k, qty);
    if n == |st.tape| { return; }
    TurnThenRest(st, k, qty, n, At(l, x).id);
    TurnThenRest(st, k, qty, n, At(l, y).id);
    GoShape(st, k, qty);
    ShiftedKeepsOrder(st, k, qty, y);
    SeatsDistinct(st, k.Shelf(), y, Seating(b, 0));
    var y' := Shifted(l, r.st.Get(k.Shelf()), b, y);
    if x != Seating(b, 0) {
      SeatsDistinct(st, k.Shelf(), x, Seating(b, 0));
      ShiftedKeepsOrder(st, k, qty, x);
      ClipsRequeue(r.st, k, r.left, Shifted(l, r.st.Get(k.Shelf()), b, x), y', n);
    } else {
      HeadAfterTurn(st, k, qty, At(l, x));
      if k.Own(At(l, x)) || At(l, x).reserve == 0 {
        NotOffered(r.st, k, r.left, n);
      } else {
        TimePriority(r.st, k, r.left, y', Seating(b, |l[b]| - 1), n);
      }
    }
  }

  /** The order's whole size, hidden reserve included, has traded; the taker's own is
      cancelled instead. */
  ghost predicate Exhausted(tape: seq<Event>, k: Taker, x: Order) {
    if k.Own(x) then Cancelled(x.id) in tape else TradedBy(tape, x.id) == Size(x)
  }

  /** Before a worse price prints, every order at a better one has traded all of its
      displayed and hidden size, or is the taker's own and cancelled. */
  lemma {:induction false} PricePriority(st: State, k: Taker, qty: nat, x: Seating, n: nat)
    requires st.Indexed() && Seated(st.Get(k.Shelf()), x)
    requires |st.tape| <= n < |Match(st, k, qty).st.tape|
    requires var e := Match(st, k, qty).st.tape[n]; e.Traded? && Beats(k.Against(), x.tick, e.price - st.min)
    ensures Exhausted(Match(st, k, qty).st.tape[|st.tape|..n], k, At(st.Get(k.Shelf()), x))
    decreases qty, Count(st.Get(k.Shelf()))
  {
    hide State.Indexed, TakeTurn, Match;
    DonePrintsNothing(st, k, qty, n);
    var r := TakeTurn(st, k, qty);
    var l := st.Get(k.Shelf());
    var b := Best(k.Against(), l);
    assert l[x.tick] != [];
    FirstIsHead(st, k, qty);
    TurnThenRest(st, k, qty, n, At(l, x).id);
    GoShape(st, k, qty);
    TurnMin(st, k, qty);
    if x != Seating(b, 0) {
      SeatsDistinct(st, k.Shelf(), x, Seating(b, 0));
      ShiftedKeepsOrder(st, k, qty, x);
      PricePriority(r.st, k, r.left, Shifted(l, r.st.Get(k.Shelf()), b, x), n);
    } else {
      HeadAfterTurn(st, k, qty, At(l, x));
      if !k.Own(At(l, x)) {
        if At(l, x).reserve == 0 {
          GoneTradesNothing(r.st, k, r.left, At(l, x).id, n);
        } else {
          PricePriority(r.st, k, r.left, Seating(b, |l[b]| - 1), n);
        }
      }
    }
  }

  lemma TurnMin(st: State, k: Taker, qty: nat)
    ensures TakeTurn(st, k, qty).st.min == st.min
  {}
}
