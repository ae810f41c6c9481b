/** What a sweep does to each resting order: trades it, cancels it, or leaves it alone. */
module SelfTrade {
  import opened Types
  import opened Ladders
  import opened Book
  import opened Matching
  import opened SweepLaws
  import opened Reach

  // ---- one turn, order by order ---------------------------------------

  /** The head of the best level is a live order of the side worked on. */
  lemma HeadStands(st: State, k: Taker, qty: nat)
    requires st.Indexed() && TakeTurn(st, k, qty).Go?
    ensures Best(k.Against(), st.Get(k.Shelf())) >= 0
    ensures var id := Head(st, k).id;
      && id in st.live && st.live[id] == Place(k.Shelf(), Best(k.Against(), st.Get(k.Shelf())))
      && OrderOf(st, id) == Head(st, k)
  {
    hide State.ListedAt, State.Bounded, TakeTurn;
    GoShape(st, k, qty);
    Locate(st, k.Shelf(), Best(k.Against(), st.Get(k.Shelf())), 0);
  }

  /** A turn leaves every order but that head as it was. */
  lemma OthersStay(st: State, k: Taker, qty: nat, id: nat)
    requires st.Indexed() && TakeTurn(st, k, qty).Go? && id in st.live
    requires Best(k.Against(), st.Get(k.Shelf())) >= 0 && id != Head(st, k).id
    ensures var t := TakeTurn(st, k, qty).st; t.Indexed() && id in t.live && OrderOf(t, id) == OrderOf(st, id)
  {
    hide State.ListedAt, TakeTurn;
    TurnFrame(st, k, qty);
    var t, at := TakeTurn(st, k, qty).st, st.live[id];
    if at.shelf == k.Shelf() {
      var x := Seating(at.tick, Seat(st, id));
      assert At(st.Get(k.Shelf()), x).id == id;
      ShiftedKeepsOrder(st, k, qty, x);
      var x' := Shifted(st.Get(k.Shelf()), t.Get(k.Shelf()), Best(k.Against(), st.Get(k.Shelf())), x);
      Locate(t, k.Shelf(), x'.tick, x'.pos);
    } else {
      assert t.Get(at.shelf) == st.Get(at.shelf);
      Locate(t, at.shelf, at.tick, Seat(st, id));
    }
  }

  /** The head: cancelled when it is the taker's own; otherwise its size drops by what it
      trades, and it goes when nothing is left of it. */
  lemma HeadFate(st: State, k: Taker, qty: nat)
    requires st.Indexed() && TakeTurn(st, k, qty).Go? && Best(k.Against(), st.Get(k.Shelf())) >= 0
    ensures var r, o := TakeTurn(st, k, qty), Head(st, k);
      && r.st.Indexed() && (k.Own(o) ==> o.id !in r.st.live)
      && (!k.Own(o) ==> Size(o) == TurnFill(st, k, qty) + if o.id in r.st.live then Size(OrderOf(r.st, o.id)) else 0)
      && (o.id in r.st.live ==> OrderOf(r.st, o.id).owner == o.owner)
  {
    hide State.ListedAt, State.Bounded, TakeTurn;
    GoShape(st, k, qty);
    TurnFrame(st, k, qty);
    var b, o, t := Best(k.Against(), st.Get(k.Shelf())), Head(st, k), TakeTurn(st, k, qty).st;
    if k.Own(o) || qty >= o.qty {
      HeadAfterTurn(st, k, qty, o);
      if !k.Own(o) && o.reserve > 0 { Locate(t, k.Shelf(), b, |st.Get(k.Shelf())[b]| - 1); }
    } else {
      Locate(t, k.Shelf(), b, 0);
    }
  }

  // ---- which orders are cancelled -------------------------------------

  /** Self-trade prevention cancels live orders of the opposite side that are the taker's
      own, and nothing else: none under cancel-taker, and under cancel-both only the one
      that ends the sweep. */
  lemma {:induction false} CancelsAreOwn(st: State, k: Taker, qty: nat, n: nat)
    requires st.Indexed() && |st.tape| <= n < |Match(st, k, qty).st.tape| && Match(st, k, qty).st.tape[n].Cancelled?
    ensures var id := Match(st, k, qty).st.tape[n].id;
      id in st.live && st.live[id].shelf == k.Shelf() && k.Own(OrderOf(st, id))
    ensures !k.stp.CancelTaker?
    ensures k.stp.CancelBoth? ==> n == |Match(st, k, qty).st.tape| - 1 && Match(st, k, qty).halt
    decreases qty, Count(st.Get(k.Shelf()))
  {
    hide State.ListedAt, State.Bounded, TakeTurn;
    var r := TakeTurn(st, k, qty);
    if r.Done? {
      DoneCancels(st, k, qty);
    } else {
      TurnFrame(st, k, qty);
      GoShape(st, k, qty);
      HeadStands(st, k, qty);
      MatchFrame(r.st, k, r.left);
      if n < |r.st.tape| {
        assert Match(st, k, qty).st.tape[n] == r.st.tape[n];
      } else {
        CancelsAreOwn(r.st, k, r.left, n);
        OwnBefore(st, k, qty, Match(st, k, qty).st.tape[n].id);
      }
    }
  }

  lemma CancelNamesOwn(st: State, k: Taker, qty: nat, id: nat)
    requires st.Indexed() && st.tape <= Match(st, k, qty).st.tape
    requires Cancelled(id) in News(st, Match(st, k, qty).st)
    ensures id in st.live && st.live[id].shelf == k.Shelf() && k.Own(OrderOf(st, id))
  {
    hide State.Indexed, Match, OrderOf;
    var t := Match(st, k, qty).st;
    var n :| 0 <= n < |News(st, t)| && News(st, t)[n] == Cancelled(id);
    assert t.tape[|st.tape| + n] == Cancelled(id);
    CancelsAreOwn(st, k, qty, |st.tape| + n);
  }

  /** Under cancel-both a sweep that is stopped has cancelled one order, last. */
  lemma {:induction false} StopCancelsLast(st: State, k: Taker, qty: nat)
    requires st.Indexed() && k.stp.CancelBoth? && Match(st, k, qty).halt
    ensures var t := Match(st, k, qty).st; |st.tape| < |t.tape| && t.tape[|t.tape| - 1].Cancelled?
    decreases qty, Count(st.Get(k.Shelf()))
  {
    hide State.Indexed, TakeTurn;
    var r := TakeTurn(st, k, qty);
    if r.Done? {
      DoneCancels(st, k, qty);
    } else {
      TurnFrame(st, k, qty);
      StopCancelsLast(r.st, k, r.left);
    }
  }

  /** The turn that ends the sweep. */
  lemma DoneCancels(st: State, k: Taker, qty: nat)
    requires st.Indexed() && TakeTurn(st, k, qty).Done?
    ensures var r, b := TakeTurn(st, k, qty), Best(k.Against(), st.Get(k.Shelf()));
      if r.halt && k.stp.CancelBoth?
      then b >= 0 && Head(st, k).id in st.live && st.live[Head(st, k).id] == Place(k.Shelf(), b)
           && OrderOf(st, Head(st, k).id) == Head(st, k) && k.Own(Head(st, k)) && qty > 0 && k.Reaches(b)
           && r.st.tape == st.tape + [Cancelled(Head(st, k).id)] && r.st == CancelHead(st, k.Against(), b)
      else r.st == st
  {
    hide State.ListedAt;
    if TakeTurn(st, k, qty).halt { Locate(st, k.Shelf(), Best(k.Against(), st.Get(k.Shelf())), 0); }
  }

  /** An own order that a turn leaves live was the same order before it. */
  lemma OwnBefore(st: State, k: Taker, qty: nat, id: nat)
    requires st.Indexed() && TakeTurn(st, k, qty).Go? && TakeTurn(st, k, qty).st.Indexed()
    requires id in TakeTurn(st, k, qty).st.live && k.Own(OrderOf(TakeTurn(st, k, qty).st, id))
    ensures id in st.live && st.live[id] == TakeTurn(st, k, qty).st.live[id]
    ensures OrderOf(st, id) == OrderOf(TakeTurn(st, k, qty).st, id)
  {
    hide State.Indexed, TakeTurn;
    TurnFrame(st, k, qty);
    HeadStands(st, k, qty);
    HeadFate(st, k, qty);
    if id != Head(st, k).id { OthersStay(st, k, qty, id); }
  }

  // ---- the account of one order ---------------------------------------

  /** Where a sweep leaves one resting order: its own are cancelled or untouched, of the
      others exactly what they traded is gone. */
  ghost predicate Accounted(st: State, t: State, k: Taker, id: nat)
    requires st.Indexed() && t.Indexed() && id in st.live && st.tape <= t.tape
  {
    var o, news := OrderOf(st, id), News(st, t);
    if k.Own(o) then
      && TradedBy(news, id) == 0 && (Cancelled(id) in news <==> id !in t.live)
      && (id in t.live ==> OrderOf(t, id) == o)
    else
      && Cancelled(id) !in news
      && Size(o) == TradedBy(news, id) + if id in t.live then Size(OrderOf(t, id)) else 0
  }

  lemma AccountedNow(st: State, k: Taker, id: nat)
    requires st.Indexed() && id in st.live
    ensures Accounted(st, st, k, id)
  {
    hide State.ListedAt;
    assert News(st, st) == [];
  }

  /** What a turn says of an order. */
  lemma TurnSays(st: State, k: Taker, qty: nat, id: nat)
    requires st.Indexed() && TakeTurn(st, k, qty).Go?
    ensures Best(k.Against(), st.Get(k.Shelf())) >= 0 && st.tape <= TakeTurn(st, k, qty).st.tape
    ensures var news, o := News(st, TakeTurn(st, k, qty).st), Head(st, k);
      && TradedBy(news, id) == (if id == o.id && !k.Own(o) then TurnFill(st, k, qty) else 0)
      && (Cancelled(id) in news <==> id == o.id && k.Own(o))
  {
    hide State.Indexed, TakeTurn;
    GoShape(st, k, qty);
    var b := Best(k.Against(), st.Get(k.Shelf()));
    var said := TurnNews(st, k, qty, b);
    assert News(st, TakeTurn(st, k, qty).st) == said;
    assert said == [said[0]] + said[1..] && said[0] in said;
    assert said[1..] == [] || said[1..] == [said[1]];
    TradedByAppend([said[0]], said[1..], id);
  }

  /** What the turn says comes first. */
  lemma SweepSays(st: State, k: Taker, qty: nat, id: nat)
    requires st.Indexed() && TakeTurn(st, k, qty).Go?
    ensures var r, m := TakeTurn(st, k, qty), Match(st, k, qty);
      && r.st.Indexed() && m.st.Indexed() && m == Match(r.st, k, r.left) && st.tape <= r.st.tape <= m.st.tape
      && News(st, m.st) == News(st, r.st) + News(r.st, m.st)
      && TradedBy(News(st, m.st), id) == TradedBy(News(st, r.st), id) + TradedBy(News(r.st, m.st), id)
      && (Cancelled(id) in News(st, m.st) <==> Cancelled(id) in News(st, r.st) || Cancelled(id) in News(r.st, m.st))
  {
    hide State.Indexed, TakeTurn;
    TurnFrame(st, k, qty);
    var r := TakeTurn(st, k, qty);
    MatchFrame(r.st, k, r.left);
    TradedByAppend(News(st, r.st), News(r.st, Match(st, k, qty).st), id);
  }

  /** An order that is not live is neither traded nor cancelled. */
  lemma GoneIsSilent(st: State, k: Taker, qty: nat, id: nat)
    requires st.Indexed() && id !in st.live
    ensures var t := Match(st, k, qty).st;
      && t.Indexed() && st.tape <= t.tape && id !in t.live
      && TradedBy(News(st, t), id) == 0 && Cancelled(id) !in News(st, t)
  {
    hide State.Indexed, TakeTurn, Match;
    MatchFrame(st, k, qty);
    var t := Match(st, k, qty).st;
    GoneTradesNothing(st, k, qty, id, |t.tape|);
    assert t.tape[|st.tape|..|t.tape|] == News(st, t);
    if Cancelled(id) in News(st, t) { CancelNamesOwn(st, k, qty, id); }
  }

  /** The last turn: at most its head goes, cancelled. */
  lemma DoneAccounted(st: State, k: Taker, qty: nat, id: nat)
    requires st.Indexed() && id in st.live && TakeTurn(st, k, qty).Done?
    ensures var t := TakeTurn(st, k, qty).st; t.Indexed() && st.tape <= t.tape && Accounted(st, t, k, id)
  {
    hide State.ListedAt, State.Bounded, TakeTurn, Accounted;
    DoneCancels(st, k, qty);
    TurnFrame(st, k, qty);
    var t := TakeTurn(st, k, qty).st;
    if t == st {
      AccountedNow(st, k, id);
    } else {
      CancelledHeadAccounted(st, k, qty, id);
    }
  }

  lemma CancelledHeadAccounted(st: State, k: Taker, qty: nat, id: nat)
    requires st.Indexed() && id in st.live && qty > 0
    requires Best(k.Against(), st.Get(k.Shelf())) >= 0 && k.Reaches(Best(k.Against(), st.Get(k.Shelf())))
    requires k.Own(Head(st, k)) && Head(st, k).id in st.live && OrderOf(st, Head(st, k).id) == Head(st, k)
    ensures var t := CancelHead(st, k.Against(), Best(k.Against(), st.Get(k.Shelf())));
      t.Indexed() && st.tape <= t.tape && Accounted(st, t, k, id)
  {
    hide State.ListedAt, State.Bounded;
    var maker := k.(stp := CancelMaker);
    assert TakeTurn(st, maker, qty).Go?;
    TurnFrame(st, maker, qty);
    TurnSays(st, maker, qty, id);
    HeadFate(st, maker, qty);
    if id != Head(st, k).id { OthersStay(st, maker, qty, id); }
  }

  /** Every resting order accounts for itself over a whole sweep: what others had and lost
      they traded; the taker's own never trade, and are cancelled exactly when they go. */
  lemma {:induction false} OrdersAreAccounted(st: State, k: Taker, qty: nat, id: nat)
    requires st.Indexed() && id in st.live
    ensures var t := Match(st, k, qty).st; t.Indexed() && st.tape <= t.tape && Accounted(st, t, k, id)
    decreases qty, Count(st.Get(k.Shelf()))
  {
    hide State.ListedAt, State.Bounded, TakeTurn, News;
    var r := TakeTurn(st, k, qty);
    if r.Done? {
      DoneAccounted(st, k, qty, id);
    } else {
      TurnSays(st, k, qty, id);
      SweepSays(st, k, qty, id);
      HeadStands(st, k, qty);
      HeadFate(st, k, qty);
      if id != Head(st, k).id { OthersStay(st, k, qty, id); }
      if id in r.st.live { OrdersAreAccounted(r.st, k, r.left, id); } else { GoneIsSilent(r.st, k, r.left, id); }
    }
  }

  // ---- the account of the side ----------------------------------------

  /** Size of the orders the taker may not trade with. */
  function OwnSize(k: Taker): Weight { (o: Order) => if k.Own(o) then Size(o) else 0 }

  /** What the orders cancelled on a stretch of tape were worth in `st`, hidden reserve included. */
  function Struck(st: State, tape: seq<Event>): nat
    requires st.Indexed()
  {
    if tape == [] then 0
    else
      (if tape[0].Cancelled? && tape[0].id in st.live then Size(OrderOf(st, tape[0].id)) else 0) + Struck(st, tape[1..])
  }

  lemma {:induction false} StruckAppend(st: State, a: seq<Event>, b: seq<Event>)
    requires st.Indexed()
    ensures Struck(st, a + b) == Struck(st, a) + Struck(st, b)
  {
    hide State.ListedAt, State.Bounded;
    if a == [] {
      assert a + b == b;
    } else {
      assert (a + b)[1..] == a[1..] + b;
      StruckAppend(st, a[1..], b);
    }
  }

  lemma {:induction false} NothingStruck(st: State, tape: seq<Event>)
    requires st.Indexed() && forall n :: 0 <= n < |tape| ==> !tape[n].Cancelled?
    ensures Struck(st, tape) == 0
  {
    if tape != [] { NothingStruck(st, tape[1..]); }
  }

  lemma {:induction false} StruckSame(st: State, t: State, tape: seq<Event>)
    requires st.Indexed() && t.Indexed()
    requires forall id :: Cancelled(id) in tape ==> id in st.live && id in t.live && OrderOf(t, id) == OrderOf(st, id)
    ensures Struck(t, tape) == Struck(st, tape)
  {
    hide State.ListedAt, State.Bounded;
    if tape != [] {
      assert tape[0] in tape;
      assert forall id :: Cancelled(id) in tape[1..] ==> Cancelled(id) in tape;
      StruckSame(st, t, tape[1..]);
    }
  }

  lemma LaterCancelKept(st: State, k: Taker, qty: nat, id: nat)
    requires st.Indexed() && TakeTurn(st, k, qty).Go?
    ensures var r, m := TakeTurn(st, k, qty), Match(st, k, qty);
      && r.st.Indexed() && r.st.tape <= m.st.tape
      && (Cancelled(id) in News(r.st, m.st) ==>
            id in st.live && id in r.st.live && OrderOf(r.st, id) == OrderOf(st, id))
  {
    hide State.Indexed, TakeTurn, Match, OrderOf, News;
    SweepSays(st, k, qty, 0);
    var r, m := TakeTurn(st, k, qty), Match(st, k, qty);
    if Cancelled(id) in News(r.st, m.st) {
      CancelNamesOwn(r.st, k, r.left, id);
      OwnBefore(st, k, qty, id);
    }
  }

  /** The rest of a sweep cancels nothing the turn changed. */
  lemma StruckLater(st: State, k: Taker, qty: nat)
    requires st.Indexed() && TakeTurn(st, k, qty).Go?
    ensures var r, m := TakeTurn(st, k, qty), Match(st, k, qty);
      r.st.Indexed() && r.st.tape <= m.st.tape && Struck(r.st, News(r.st, m.st)) == Struck(st, News(r.st, m.st))
  {
    hide State.Indexed, TakeTurn, Match, OrderOf, News;
    SweepSays(st, k, qty, 0);
    var r := TakeTurn(st, k, qty);
    var rest := News(r.st, Match(st, k, qty).st);
    forall id | Cancelled(id) in rest ensures id in st.live && id in r.st.live && OrderOf(r.st, id) == OrderOf(st, id) {
      LaterCancelKept(st, k, qty, id);
    }
    StruckSame(st, r.st, rest);
  }

  /** A turn takes from the own orders exactly what it cancels. */
  lemma TurnStrikes(st: State, k: Taker, qty: nat)
    requires st.Indexed() && TakeTurn(st, k, qty).Go?
    ensures var r, l := TakeTurn(st, k, qty), st.Get(k.Shelf());
      && st.tape <= r.st.tape
      && Total(OwnSize(k), l) == Total(OwnSize(k), r.st.Get(k.Shelf())) + Struck(st, News(st, r.st))
  {
    hide State.Indexed, TakeTurn;
    GoShape(st, k, qty);
    HeadStands(st, k, qty);
    var l, b := st.Get(k.Shelf()), Best(k.Against(), st.Get(k.Shelf()));
    assert News(st, TakeTurn(st, k, qty).st) == TurnNews(st, k, qty, b);
    SpanUpdate(OwnSize(k), l, b, TurnQueue(l[b], k, qty), 0, |l|);
    if k.Own(l[b][0]) {
      SumWithout(OwnSize(k), l[b], 0);
    } else {
      AfterFillSums(OwnSize(k), l[b], Min(qty, l[b][0].qty));
      NothingStruck(st, TurnNews(st, k, qty, b));
    }
  }

  /** The taker's own size on the opposite side drops by exactly the cancelled orders' size. */
  lemma {:induction false} MatchStrikesOwn(st: State, k: Taker, qty: nat)
    requires st.Indexed()
    ensures var t := Match(st, k, qty).st;
      && st.tape <= t.tape
      && Total(OwnSize(k), st.Get(k.Shelf())) == Total(OwnSize(k), t.Get(k.Shelf())) + Struck(st, News(st, t))
    decreases qty, Count(st.Get(k.Shelf()))
  {
    hide State.ListedAt, State.Bounded, TakeTurn, Struck;
    var r := TakeTurn(st, k, qty);
    if r.Done? {
      DoneStrikes(st, k, qty);
    } else {
      SweepSays(st, k, qty, 0);
      TurnStrikes(st, k, qty);
      StruckLater(st, k, qty);
      StruckAppend(st, News(st, r.st), News(r.st, Match(st, k, qty).st));
      MatchStrikesOwn(r.st, k, r.left);
    }
  }

  lemma DoneStrikes(st: State, k: Taker, qty: nat)
    requires st.Indexed() && TakeTurn(st, k, qty).Done?
    ensures var t := TakeTurn(st, k, qty).st;
      && st.tape <= t.tape
      && Total(OwnSize(k), st.Get(k.Shelf())) == Total(OwnSize(k), t.Get(k.Shelf())) + Struck(st, News(st, t))
  {
    hide State.ListedAt, State.Bounded, TakeTurn;
    DoneCancels(st, k, qty);
    var t, l := TakeTurn(st, k, qty).st, st.Get(k.Shelf());
    if t == st {
      assert News(st, t) == [];
    } else {
      var b := Best(k.Against(), l);
      assert News(st, t) == [Cancelled(Head(st, k).id)];
      SumWithout(OwnSize(k), l[b], 0);
      SpanUpdate(OwnSize(k), l, b, Without(l[b], 0), 0, |l|);
    }
  }

  lemma {:induction false} SumSplits(q: Queue, k: Taker)
    ensures Sum(Size, q) == Sum(FreeSize(k), q) + Sum(OwnSize(k), q)
  {
    if q != [] { SumSplits(q[1..], k); }
  }

  lemma {:induction false} SpanSplits(l: Ladder, k: Taker, i: nat)
    requires i <= |l|
    ensures Span(Size, l, i, |l|) == Span(FreeSize(k), l, i, |l|) + Span(OwnSize(k), l, i, |l|)
    decreases |l| - i
  {
    if i < |l| {
      SumSplits(l[i], k);
      SpanSplits(l, k, i + 1);
    }
  }

  /** Displayed plus hidden size on the opposite side drops by exactly what was traded and
      what self-trade prevention cancelled. */
  lemma MatchConservesSide(st: State, k: Taker, qty: nat)
    requires st.Indexed()
    ensures var r := Match(st, k, qty);
      && st.tape <= r.st.tape && r.left <= qty
      && Total(Size, st.Get(k.Shelf())) ==
         Total(Size, r.st.Get(k.Shelf())) + (qty - r.left) + Struck(st, News(st, r.st))
  {
    hide State.Indexed, Match, Struck;
    MatchFrame(st, k, qty);
    MatchStrikesOwn(st, k, qty);
    MatchConservesMakers(st, k, qty);
    SpanSplits(st.Get(k.Shelf()), k, 0);
    SpanSplits(Match(st, k, qty).st.Get(k.Shelf()), k, 0);
  }
}
