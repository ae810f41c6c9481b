/** What a sweep prints and what it conserves. */
module SweepLaws {
  import opened Types
  import opened Ladders
  import opened Book
  import opened Matching

  /** The best queue after its head has lost `f` of its displayed clip. */
  function AfterFill(q: Queue, f: nat): Queue
    requires q != [] && 0 < f <= q[0].qty
  {
    if f < q[0].qty then q[0 := q[0].(qty := q[0].qty - f)]
    else if q[0].reserve > 0 then q[1..] + [Reload(q[0])]
    else Without(q, 0)
  }

  /** The tick a continuing turn works on, and what becomes of its queue. */
  function TurnQueue(q: Queue, k: Taker, qty: nat): Queue
    requires q != [] && qty > 0
  {
    if k.Own(q[0]) then Without(q, 0) else AfterFill(q, Min(qty, q[0].qty))
  }

  function TurnNews(st: State, k: Taker, qty: nat, b: nat): seq<Event>
    requires b < |st.Get(k.Shelf())| && st.Get(k.Shelf())[b] != [] && qty > 0
  {
    var o := st.Get(k.Shelf())[b][0];
    var f := Min(qty, o.qty);
    if k.Own(o) then [Cancelled(o.id)]
    else [Traded(k.id, o.id, st.min + b, f, k.side)] +
         if f == o.qty && o.reserve > 0 then [Rested(o.id, k.Against(), st.min + b, Clip(o))] else []
  }

  lemma GoShape(st: State, k: Taker, qty: nat)
    requires TakeTurn(st, k, qty).Go?
    ensures var s := k.Shelf();
            var b := Best(k.Against(), st.Get(s));
            var r := TakeTurn(st, k, qty);
            && qty > 0 && 0 <= b < |st.Get(s)| && st.Get(s)[b] != [] && k.Reaches(b)
            && !k.StoppedBy(st.Get(s)[b][0])
            && r.st.Get(s) == st.Get(s)[b := TurnQueue(st.Get(s)[b], k, qty)]
            && r.st.tape == st.tape + TurnNews(st, k, qty, b)
            && r.left == qty - (if k.Own(st.Get(s)[b][0]) then 0 else Min(qty, st.Get(s)[b][0].qty))
  {}

  lemma DoneShape(st: State, k: Taker, qty: nat)
    requires TakeTurn(st, k, qty).Done?
    ensures var r := TakeTurn(st, k, qty);
            r.st.tape == st.tape || exists id :: r.st.tape == st.tape + [Cancelled(id)]
  {}

  lemma AfterFillSums(w: Weight, q: Queue, f: nat)
    requires q != [] && 0 < f <= q[0].qty
    ensures Sum(w, AfterFill(q, f)) == Sum(w, q) - w(q[0]) +
      (if f < q[0].qty then w(q[0].(qty := q[0].qty - f)) else if q[0].reserve > 0 then w(Reload(q[0])) else 0)
  {
    if f < q[0].qty {
      SumReplace(w, q, 0, q[0].(qty := q[0].qty - f));
    } else if q[0].reserve > 0 {
      SumJoin(w, q[1..], Reload(q[0]));
    } else {
      SumWithout(w, q, 0);
    }
  }

  // ---- conservation ---------------------------------------------------

  /** Total quantity traded on a tape. */
  function TradedQty(tape: seq<Event>): nat {
    if tape == [] then 0
    else TradedQty(tape[..|tape| - 1]) + (if tape[|tape| - 1].Traded? then tape[|tape| - 1].qty else 0)
  }

  lemma TradedQtyPush(tape: seq<Event>, e: Event)
    ensures TradedQty(tape + [e]) == TradedQty(tape) + if e.Traded? then e.qty else 0
  {
    assert (tape + [e])[..|tape|] == tape;
  }

  lemma TurnTraded(st: State, k: Taker, qty: nat)
    requires TakeTurn(st, k, qty).Go?
    ensures TradedQty(TakeTurn(st, k, qty).st.tape) == TradedQty(st.tape) + qty - TakeTurn(st, k, qty).left
  {
    GoShape(st, k, qty);
    var b := Best(k.Against(), st.Get(k.Shelf()));
    var news := TurnNews(st, k, qty, b);
    TradedQtyPush(st.tape, news[0]);
    if |news| == 2 {
      assert st.tape + news == st.tape + [news[0]] + [news[1]];
      TradedQtyPush(st.tape + [news[0]], news[1]);
    } else {
      assert st.tape + news == st.tape + [news[0]];
    }
  }

  /** The incoming quantity is exactly what it traded plus what is left of it. */
  lemma {:induction false} MatchConservesTaker(st: State, k: Taker, qty: nat)
    ensures TradedQty(Match(st, k, qty).st.tape) + Match(st, k, qty).left == TradedQty(st.tape) + qty
    decreases qty, Count(st.Get(k.Shelf()))
  {
    var r := TakeTurn(st, k, qty);
    if r.Go? {
      TurnTraded(st, k, qty);
      MatchConservesTaker(r.st, k, r.left);
    } else if r.halt {
      var o := st.Get(k.Shelf())[Best(k.Against(), st.Get(k.Shelf()))][0];
      if k.stp.CancelBoth? { TradedQtyPush(st.tape, Cancelled(o.id)); }
    }
  }

  lemma SilentTape(tape: seq<Event>, a: Event, b: Event)
    requires !a.Traded? && !b.Traded?
    ensures TradedQty(tape + [a, b]) == TradedQty(tape)
  {
    assert tape + [a, b] == tape + [a] + [b];
    TradedQtyPush(tape, a);
    TradedQtyPush(tape + [a], b);
  }

  /** Size of the orders the taker may trade with. */
  function FreeSize(k: Taker): Weight { (o: Order) => if k.Own(o) then 0 else Size(o) }

  lemma QueueConserves(q: Queue, k: Taker, qty: nat)
    requires q != [] && qty > 0
    ensures Sum(FreeSize(k), TurnQueue(q, k, qty)) ==
            Sum(FreeSize(k), q) - (if k.Own(q[0]) then 0 else Min(qty, q[0].qty))
  {
    if k.Own(q[0]) {
      SumWithout(FreeSize(k), q, 0);
    } else {
      AfterFillSums(FreeSize(k), q, Min(qty, q[0].qty));
    }
  }

  /** What the taker may trade with on the opposite side drops by exactly what was traded:
      hidden reserve only ever moves into view. */
  lemma {:induction false} MatchConservesMakers(st: State, k: Taker, qty: nat)
    ensures var r := Match(st, k, qty);
            Total(FreeSize(k), r.st.Get(k.Shelf())) + (qty - r.left) == Total(FreeSize(k), st.Get(k.Shelf()))
    decreases qty, Count(st.Get(k.Shelf()))
  {
    var r := TakeTurn(st, k, qty);
    var l := st.Get(k.Shelf());
    var b := Best(k.Against(), l);
    if r.Go? {
      GoShape(st, k, qty);
      QueueConserves(l[b], k, qty);
      SpanUpdate(FreeSize(k), l, b, TurnQueue(l[b], k, qty), 0, |l|);
      MatchConservesMakers(r.st, k, r.left);
    } else if r.halt && k.stp.CancelBoth? {
      SumWithout(FreeSize(k), l[b], 0);
      SpanUpdate(FreeSize(k), l, b, Without(l[b], 0), 0, |l|);
    }
  }

  // ---- what may be printed --------------------------------------------

  /** Order `id` rests at tick `i` and is not the taker's own. */
  ghost predicate Offered(st: State, k: Taker, id: nat, i: int) {
    && 0 <= i < |st.Get(k.Shelf())|
    && exists j ::
      0 <= j < |st.Get(k.Shelf())[i]| && st.Get(k.Shelf())[i][j].id == id && !k.Own(st.Get(k.Shelf())[i][j])
  }

  /** A print at the maker's own limit, within the taker's, between different owners. */
  ghost predicate FairPrint(st: State, k: Taker, e: Event) {
    e.Traded? ==>
      && e.taker == k.id && e.takerSide == k.side && e.qty > 0
      && k.Reaches(e.price - st.min)
      && Offered(st, k, e.maker, e.price - st.min)
  }

  lemma OfferedBefore(st: State, k: Taker, qty: nat, id: nat, i: int)
    requires TakeTurn(st, k, qty).Go? && Offered(TakeTurn(st, k, qty).st, k, id, i)
    ensures Offered(st, k, id, i)
  {
    GoShape(st, k, qty);
    var l, l' := st.Get(k.Shelf()), TakeTurn(st, k, qty).st.Get(k.Shelf());
    var b := Best(k.Against(), l);
    if i == b {
      var q, q' := l[b], l'[b];
      var j :| 0 <= j < |q'| && q'[j].id == id && !k.Own(q'[j]);
      var f := Min(qty, q[0].qty);
      if !k.Own(q[0]) && f < q[0].qty {
        assert q[j].id == id && !k.Own(q[j]);
      } else if j == |q| - 1 {
        assert q[0].id == id && !k.Own(q[0]);
      } else {
        assert q[j + 1].id == id && !k.Own(q[j + 1]);
      }
    }
  }

  lemma {:induction false} MatchPrintsFairly(st: State, k: Taker, qty: nat, n: nat)
    requires st.Indexed()
    requires |st.tape| <= n < |Match(st, k, qty).st.tape|
    ensures FairPrint(st, k, Match(st, k, qty).st.tape[n])
    decreases qty, Count(st.Get(k.Shelf()))
  {
    hide State.Indexed, TakeTurn;
    var r := TakeTurn(st, k, qty);
    if r.Done? {
      DoneShape(st, k, qty);
    } else {
      TurnFrame(st, k, qty);
      GoShape(st, k, qty);
      MatchFrame(r.st, k, r.left);
      if n < |r.st.tape| {
        var b := Best(k.Against(), st.Get(k.Shelf()));
        assert Match(st, k, qty).st.tape[n] == r.st.tape[n];
        assert st.Get(k.Shelf())[b][0].id == st.Get(k.Shelf())[b][0].id;
      } else {
        MatchPrintsFairly(r.st, k, r.left, n);
        var e := Match(st, k, qty).st.tape[n];
        if e.Traded? { OfferedBefore(st, k, qty, e.maker, e.price - st.min); }
      }
    }
  }

  // ---- prints only ever move away from the best price -----------------

  /** Emptying levels never improves the best one. */
  lemma BestOnlyWorsens(s: Side, l: Ladder, m: Ladder)
    requires |l| == |m| && Best(s, m) >= 0
    requires forall i :: 0 <= i < |l| && m[i] != [] ==> l[i] != []
    ensures Best(s, l) >= 0 && !Beats(s, Best(s, m), Best(s, l))
  {
    assert m[Best(s, m)] != [];
  }

  lemma {:induction false} MatchPrintsBehindBest(st: State, k: Taker, qty: nat, n: nat)
    requires st.Indexed()
    requires |st.tape| <= n < |Match(st, k, qty).st.tape| && Match(st, k, qty).st.tape[n].Traded?
    ensures st.BestTick(k.Against()) >= 0
    ensures !Beats(k.Against(), Match(st, k, qty).st.tape[n].price - st.min, st.BestTick(k.Against()))
    decreases qty, Count(st.Get(k.Shelf()))
  {
    hide State.Indexed, TakeTurn;
    var r := TakeTurn(st, k, qty);
    if r.Done? {
      DoneShape(st, k, qty);
    } else {
      TurnFrame(st, k, qty);
      GoShape(st, k, qty);
      MatchFrame(r.st, k, r.left);
      if n < |r.st.tape| {
        assert Match(st, k, qty).st.tape[n] == r.st.tape[n];
      } else {
        MatchPrintsBehindBest(r.st, k, r.left, n);
        BestOnlyWorsens(k.Against(), st.Get(k.Shelf()), r.st.Get(k.Shelf()));
      }
    }
  }

  /** Along one sweep a later print is never at a better price than an earlier one. */
  lemma {:induction false} MatchPrintsMonotone(st: State, k: Taker, qty: nat, m: nat, n: nat)
    requires st.Indexed()
    requires |st.tape| <= m < n < |Match(st, k, qty).st.tape|
    requires Match(st, k, qty).st.tape[m].Traded? && Match(st, k, qty).st.tape[n].Traded?
    ensures !Beats(k.Against(), Match(st, k, qty).st.tape[n].price, Match(st, k, qty).st.tape[m].price)
    decreases qty, Count(st.Get(k.Shelf()))
  {
    hide State.Indexed, TakeTurn;
    var r := TakeTurn(st, k, qty);
    if r.Done? {
      DoneShape(st, k, qty);
    } else {
      TurnFrame(st, k, qty);
      GoShape(st, k, qty);
      MatchFrame(r.st, k, r.left);
      if m < |r.st.tape| {
        assert Match(st, k, qty).st.tape[m] == r.st.tape[m];
        MatchPrintsBehindBest(st, k, qty, n);
      } else {
        MatchPrintsMonotone(r.st, k, r.left, m, n);
      }
    }
  }

  /** Matching never uncrosses into a cross: it only empties levels of one side. */
  lemma EmptyingKeepsUncrossed(a: State, b: State, s: Side)
    requires a.Shaped() && a.Uncrossed() && OnlyShelf(a, b, Resting(s))
    ensures b.Uncrossed()
  {
    if b.BestTick(s) >= 0 {
      BestOnlyWorsens(s, a.Get(Resting(s)), b.Get(Resting(s)));
    }
    assert b.Get(Resting(s.Opposite())) == a.Get(Resting(s.Opposite()));
  }
}
