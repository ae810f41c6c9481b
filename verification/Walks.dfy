/** Walking the book in priority order and the pending stops in trigger order. */
module Walks {
  import opened Types
  import opened Ladders
  import opened Book
  import opened Engine

  /** An order met on a walk, and the tick it was met at. */
  datatype Spot = Spot(tick: nat, order: Order)

  function Spots(q: Queue, i: nat): (r: seq<Spot>)
    ensures |r| == |q| && forall k :: 0 <= k < |q| ==> r[k] == Spot(i, q[k])
  {
    seq(|q|, k requires 0 <= k < |q| => Spot(i, q[k]))
  }

  /** Ticks below `n`, highest first, each in queue order. */
  function Downward(l: Ladder, n: nat): seq<Spot>
    requires n <= |l|
  {
    if n == 0 then [] else Spots(l[n - 1], n - 1) + Downward(l, n - 1)
  }

  /** Ticks from `i`, lowest first, each in queue order. */
  function Upward(l: Ladder, i: nat): seq<Spot>
    requires i <= |l|
    decreases |l| - i
  {
    if i == |l| then [] else Spots(l[i], i) + Upward(l, i + 1)
  }

  /** Everything on a ladder, best tick of side `s` first. */
  function Walk(s: Side, l: Ladder): seq<Spot> {
    if s.Buy? then Downward(l, |l|) else Upward(l, 0)
  }

  /** What a walk standing at tick `i` has still to meet; -1 ends it. */
  function WalkFrom(s: Side, l: Ladder, i: int): seq<Spot>
    requires -1 <= i < |l|
  {
    if i < 0 then [] else if s.Buy? then Downward(l, i + 1) else Upward(l, i)
  }

  lemma {:induction false} SkipDown(l: Ladder, lo: nat, hi: nat)
    requires lo <= hi <= |l| && forall j :: lo <= j < hi ==> l[j] == []
    ensures Downward(l, hi) == Downward(l, lo)
    decreases hi
  {
    if lo < hi { SkipDown(l, lo, hi - 1); }
  }

  lemma {:induction false} SkipUp(l: Ladder, lo: nat, hi: nat)
    requires lo <= hi <= |l| && forall j :: lo <= j < hi ==> l[j] == []
    ensures Upward(l, lo) == Upward(l, hi)
    decreases hi - lo
  {
    if lo < hi { SkipUp(l, lo + 1, hi); }
  }

  /** A walk may start at the best tick and hop over empty ones. */
  lemma WalkStarts(s: Side, l: Ladder)
    ensures WalkFrom(s, l, Best(s, l)) == Walk(s, l)
  {
    var b := Best(s, l);
    forall j | 0 <= j < |l| && (b < 0 || Beats(s, j, b)) ensures l[j] == [] {}
    if s.Buy? { SkipDown(l, if b < 0 then 0 else b + 1, |l|); } else { SkipUp(l, 0, if b < 0 then |l| else b); }
  }

  lemma WalkEnds(s: Side, l: Ladder)
    ensures WalkFrom(s, l, -1) == []
  {}

  lemma WalkHops(s: Side, l: Ladder, i: nat, b: int)
    requires i < |l| && -1 <= b < |l| && (b >= 0 ==> Beats(s, i, b))
    requires forall j :: 0 <= j < |l| && Beats(s, i, j) && (b < 0 || Beats(s, j, b)) ==> l[j] == []
    ensures WalkFrom(s, l, i) == Spots(l[i], i) + WalkFrom(s, l, b)
  {
    if s.Buy? { SkipDown(l, if b < 0 then 0 else b + 1, i); } else { SkipUp(l, i + 1, if b < 0 then |l| else b); }
  }

  // ---- the top of the book ---------------------------------------------

  /** A price level as a market-data consumer sees it. */
  datatype LevelView = LevelView(price: int, total: nat, count: nat)

  /** Each view is an occupied level of the ladder, with its displayed total and order count. */
  predicate Views(l: Ladder, min: int, views: seq<LevelView>) {
    forall k :: 0 <= k < |views| ==>
      && 0 <= views[k].price - min < |l| && l[views[k].price - min] != []
      && views[k].total == Sum(Shown, l[views[k].price - min]) && views[k].count == |l[views[k].price - min]|
  }

  /** Best first. */
  predicate BestFirst(s: Side, views: seq<LevelView>) {
    forall j, k :: 0 <= j < k < |views| ==> Beats(s, views[j].price, views[k].price)
  }

  predicate Listed(views: seq<LevelView>, price: int) {
    exists k :: 0 <= k < |views| && views[k].price == price
  }

  /** The best occupied levels of side `s`, best first, at most `max` of them: a level
      goes unlisted only when there is no room for it behind better ones. */
  ghost predicate IsTop(s: Side, l: Ladder, min: int, max: nat, views: seq<LevelView>) {
    && |views| <= max && Views(l, min, views) && BestFirst(s, views)
    && forall i :: 0 <= i < |l| && l[i] != [] && !Listed(views, min + i) ==>
         |views| == max && forall k :: 0 <= k < |views| ==> Beats(s, views[k].price, min + i)
  }

  /** If a view of `b` at `k` is a level `a` leaves out of its first `k + 1`, `a` has a better one there. */
  lemma TopAt(s: Side, l: Ladder, min: int, max: nat, a: seq<LevelView>, b: seq<LevelView>, k: nat)
    requires IsTop(s, l, min, max, a) && IsTop(s, l, min, max, b) && k < |b| && k <= |a| && a[..k] == b[..k]
    ensures k < |a| && !Beats(s, b[k].price, a[k].price)
  {
    forall j | 0 <= j < k ensures a[j].price != b[k].price {
      assert a[j] == a[..k][j] && b[j] == b[..k][j];
      assert Beats(s, b[j].price, b[k].price);
    }
    if Listed(a, b[k].price) {
      var j :| 0 <= j < |a| && a[j].price == b[k].price;
      assert j >= k;
    } else {
      assert !Listed(a, min + (b[k].price - min));
    }
  }

  /** There is only one top of the book. */
  lemma {:induction false} TopIsUnique(s: Side, l: Ladder, min: int, max: nat, a: seq<LevelView>, b: seq<LevelView>,
                                       k: nat)
    requires IsTop(s, l, min, max, a) && IsTop(s, l, min, max, b) && k <= |a| && k <= |b| && a[..k] == b[..k]
    ensures a == b
    decreases |a| - k
  {
    if k < |a| {
      TopAt(s, l, min, max, b, a, k);
      TopAt(s, l, min, max, a, b, k);
      assert a[k] == b[k];
      assert a[..k + 1] == a[..k] + [a[k]] && b[..k + 1] == b[..k] + [b[k]];
      TopIsUnique(s, l, min, max, a, b, k + 1);
    } else if k < |b| {
      TopAt(s, l, min, max, a, b, k);
    } else {
      assert a == a[..k] && b == b[..k];
    }
  }

  /** A walk standing at tick `i` has listed every occupied level ahead of it. */
  ghost predicate TopSoFar(s: Side, l: Ladder, min: int, views: seq<LevelView>, i: int) {
    && -1 <= i < |l| && (i >= 0 ==> l[i] != []) && Views(l, min, views) && BestFirst(s, views)
    && (i >= 0 ==> forall k :: 0 <= k < |views| ==> Beats(s, views[k].price, min + i))
    && forall j :: 0 <= j < |l| && l[j] != [] && (i < 0 || Beats(s, j, i)) ==> Listed(views, min + j)
  }

  lemma TopStarts(s: Side, l: Ladder, min: int)
    ensures TopSoFar(s, l, min, [], Best(s, l))
  {}

  lemma TopHops(s: Side, l: Ladder, min: int, views: seq<LevelView>, i: nat, b: int, v: LevelView)
    requires TopSoFar(s, l, min, views, i) && -1 <= b < |l| && (b >= 0 ==> Beats(s, i, b) && l[b] != [])
    requires forall j :: 0 <= j < |l| && Beats(s, i, j) && (b < 0 || Beats(s, j, b)) ==> l[j] == []
    requires v == LevelView(min + i, Sum(Shown, l[i]), |l[i]|)
    ensures TopSoFar(s, l, min, views + [v], b)
  {
    var w := views + [v];
    forall j | 0 <= j < |l| && l[j] != [] && (b < 0 || Beats(s, j, b)) ensures Listed(w, min + j) {
      if j == i {
        assert w[|views|].price == min + j;
      } else {
        assert Listed(views, min + j);
        var k :| 0 <= k < |views| && views[k].price == min + j;
        assert w[k].price == min + j;
      }
    }
  }

  lemma TopEnds(s: Side, l: Ladder, min: int, max: nat, views: seq<LevelView>, i: int)
    requires TopSoFar(s, l, min, views, i) && |views| <= max && (i < 0 || |views| == max)
    ensures IsTop(s, l, min, max, views)
  {
    forall j | 0 <= j < |l| && l[j] != [] && !Listed(views, min + j)
      ensures |views| == max && forall k :: 0 <= k < |views| ==> Beats(s, views[k].price, min + j)
    {
      assert i >= 0 && !Beats(s, j, i);
    }
  }

  // ---- a walk meets every order once ----------------------------------

  lemma {:induction false} DownMeets(l: Ladder, n: nat, i: nat, k: nat) returns (j: nat)
    requires i < n <= |l| && k < |l[i]|
    ensures j < |Downward(l, n)| && Downward(l, n)[j] == Spot(i, l[i][k])
  {
    if i == n - 1 { j := k; } else { j := DownMeets(l, n - 1, i, k); j := j + |l[n - 1]|; }
  }

  lemma {:induction false} UpMeets(l: Ladder, n: nat, i: nat, k: nat) returns (j: nat)
    requires n <= i < |l| && k < |l[i]|
    ensures j < |Upward(l, n)| && Upward(l, n)[j] == Spot(i, l[i][k])
    decreases |l| - n
  {
    if i == n { j := k; } else { j := UpMeets(l, n + 1, i, k); j := j + |l[n]|; }
  }

  lemma {:induction false} DownCounts(l: Ladder, n: nat)
    requires n <= |l|
    ensures |Downward(l, n)| == Span(One, l, 0, n)
  {
    if n > 0 {
      DownCounts(l, n - 1);
      SpanSplit(One, l, 0, n - 1, n);
      SumOne(l[n - 1]);
    }
  }

  lemma {:induction false} UpCounts(l: Ladder, n: nat)
    requires n <= |l|
    ensures |Upward(l, n)| == Span(One, l, n, |l|)
    decreases |l| - n
  {
    if n < |l| {
      UpCounts(l, n + 1);
      SumOne(l[n]);
    }
  }

  /** Where the walk finds its `j`-th order. */
  lemma {:induction false} DownAt(l: Ladder, n: nat, j: nat) returns (k: nat)
    requires n <= |l| && j < |Downward(l, n)|
    ensures var p := Downward(l, n)[j]; p.tick < n && k < |l[p.tick]| && p.order == l[p.tick][k]
  {
    if j < |l[n - 1]| { k := j; } else { k := DownAt(l, n - 1, j - |l[n - 1]|); }
  }

  lemma {:induction false} UpAt(l: Ladder, n: nat, j: nat) returns (k: nat)
    requires n <= |l| && j < |Upward(l, n)|
    ensures var p := Upward(l, n)[j]; n <= p.tick < |l| && k < |l[p.tick]| && p.order == l[p.tick][k]
    decreases |l| - n
  {
    if j < |l[n]| { k := j; } else { k := UpAt(l, n + 1, j - |l[n]|); }
  }

  // ---- every live id, once --------------------------------------------

  function SpotIds(spots: seq<Spot>): (ids: seq<nat>)
    ensures |ids| == |spots| && forall j :: 0 <= j < |ids| ==> ids[j] == spots[j].order.id
  {
    seq(|spots|, j requires 0 <= j < |spots| => spots[j].order.id)
  }

  /** The ids a walk over shelf `s` meets. */
  function ShelfIds(st: State, end: Side, s: Shelf): seq<nat> { SpotIds(Walk(end, st.Get(s))) }

  /** Resting buys and sells best first, then pending stops in trigger order. */
  function AllIds(st: State): seq<nat> {
    ShelfIds(st, Buy, Resting(Buy)) + ShelfIds(st, Sell, Resting(Sell))
    + ShelfIds(st, Sell, Pending(Buy)) + ShelfIds(st, Buy, Pending(Sell))
  }

  /** The spots are orders of shelf `s` at the ticks they say. */
  ghost predicate Stand(st: State, s: Shelf, spots: seq<Spot>) {
    forall j :: 0 <= j < |spots| ==>
      spots[j].order.id in st.live && st.live[spots[j].order.id] == Place(s, spots[j].tick)
  }

  lemma QueueUnique(st: State, s: Shelf, i: nat)
    requires st.Indexed() && i < st.width
    ensures Stand(st, s, Spots(st.Get(s)[i], i)) && Unique(SpotIds(Spots(st.Get(s)[i], i)))
  {
    var q := st.Get(s)[i];
    forall k | 0 <= k < |q| ensures q[k].id in st.live && st.live[q[k].id] == Place(s, i) && Seat(st, q[k].id) == k {
      Locate(st, s, i, k);
    }
  }

  /** One level's spots ahead of those of other ticks. */
  lemma SpotsAhead(st: State, s: Shelf, a: seq<Spot>, b: seq<Spot>, i: nat)
    requires Stand(st, s, a) && Stand(st, s, b) && Unique(SpotIds(a)) && Unique(SpotIds(b))
    requires forall j :: 0 <= j < |a| ==> a[j].tick == i
    requires forall j :: 0 <= j < |b| ==> b[j].tick != i
    ensures Stand(st, s, a + b) && Unique(SpotIds(a + b))
  {
    assert SpotIds(a + b) == SpotIds(a) + SpotIds(b);
    UniqueAppend(SpotIds(a), SpotIds(b));
  }

  lemma {:induction false} DownUnique(st: State, s: Shelf, n: nat)
    requires st.Indexed() && n <= st.width
    ensures Stand(st, s, Downward(st.Get(s), n)) && Unique(SpotIds(Downward(st.Get(s), n)))
    ensures forall j :: 0 <= j < |Downward(st.Get(s), n)| ==> Downward(st.Get(s), n)[j].tick < n
  {
    hide State.ListedAt, State.Bounded;
    if n > 0 {
      DownUnique(st, s, n - 1);
      QueueUnique(st, s, n - 1);
      SpotsAhead(st, s, Spots(st.Get(s)[n - 1], n - 1), Downward(st.Get(s), n - 1), n - 1);
    }
  }

  lemma {:induction false} UpUnique(st: State, s: Shelf, n: nat)
    requires st.Indexed() && n <= st.width
    ensures Stand(st, s, Upward(st.Get(s), n)) && Unique(SpotIds(Upward(st.Get(s), n)))
    ensures forall j :: 0 <= j < |Upward(st.Get(s), n)| ==> Upward(st.Get(s), n)[j].tick >= n
    decreases st.width - n
  {
    hide State.ListedAt, State.Bounded;
    if n < st.width {
      UpUnique(st, s, n + 1);
      QueueUnique(st, s, n);
      SpotsAhead(st, s, Spots(st.Get(s)[n], n), Upward(st.Get(s), n + 1), n);
    }
  }

  lemma ShelfIdsExact(st: State, end: Side, s: Shelf, id: nat)
    requires st.Indexed()
    ensures Unique(ShelfIds(st, end, s))
    ensures id in ShelfIds(st, end, s) <==> id in st.live && st.live[id].shelf == s
  {
    hide State.ListedAt;
    DownUnique(st, s, st.width);
    UpUnique(st, s, 0);
    if id in st.live && st.live[id].shelf == s {
      var j: nat;
      if end.Buy? { j := DownMeets(st.Get(s), st.width, st.live[id].tick, Seat(st, id)); }
      else { j := UpMeets(st.Get(s), 0, st.live[id].tick, Seat(st, id)); }
      assert ShelfIds(st, end, s)[j] == id;
    }
  }

  /** The visitors meet every live id exactly once. */
  lemma AllIdsExact(st: State)
    requires st.Indexed()
    ensures Unique(AllIds(st))
    ensures forall id :: id in AllIds(st) <==> id in st.live
  {
    hide State.ListedAt, State.Bounded, ShelfIds;
    var a, b := ShelfIds(st, Buy, Resting(Buy)), ShelfIds(st, Sell, Resting(Sell));
    var c, d := ShelfIds(st, Sell, Pending(Buy)), ShelfIds(st, Buy, Pending(Sell));
    forall id
      ensures id in a <==> id in st.live && st.live[id].shelf == Resting(Buy)
      ensures id in b <==> id in st.live && st.live[id].shelf == Resting(Sell)
      ensures id in c <==> id in st.live && st.live[id].shelf == Pending(Buy)
      ensures id in d <==> id in st.live && st.live[id].shelf == Pending(Sell)
    {
      ShelfIdsExact(st, Buy, Resting(Buy), id);
      ShelfIdsExact(st, Sell, Resting(Sell), id);
      ShelfIdsExact(st, Sell, Pending(Buy), id);
      ShelfIdsExact(st, Buy, Pending(Sell), id);
    }
    ShelfIdsExact(st, Buy, Resting(Buy), 0);
    ShelfIdsExact(st, Sell, Resting(Sell), 0);
    ShelfIdsExact(st, Sell, Pending(Buy), 0);
    ShelfIdsExact(st, Buy, Pending(Sell), 0);
    UniqueAppend(a, b);
    UniqueAppend(a + b, c);
    UniqueAppend(a + b + c, d);
    forall id ensures id in AllIds(st) <==> id in st.live {
      if id in st.live { ShelfCases(st.live[id].shelf); }
    }
  }

  // ---- counting them ---------------------------------------------------

  /** Resting orders and pending stops together. */
  function OpenOrders(st: State): nat {
    Count(st.Get(Resting(Buy))) + Count(st.Get(Resting(Sell))) + PendingStops(st)
  }

  lemma {:induction false} UniqueCount(ids: seq<nat>, x: set<nat>)
    requires Unique(ids) && forall id :: id in ids <==> id in x
    ensures |x| == |ids|
    decreases |ids|
  {
    if ids == [] {
      assert x == {};
    } else {
      assert forall k :: 1 <= k < |ids| ==> ids[k] != ids[0];
      UniqueCount(ids[1..], x - {ids[0]});
    }
  }

  /** What `open_orders` counts is the number of live ids. */
  lemma OpenIsLive(st: State)
    requires st.Indexed()
    ensures OpenOrders(st) == |st.live.Keys|
  {
    hide State.ListedAt, State.Bounded, Unique;
    AllIdsExact(st);
    UniqueCount(AllIds(st), st.live.Keys);
    DownCounts(st.Get(Resting(Buy)), st.width);
    UpCounts(st.Get(Resting(Sell)), 0);
    UpCounts(st.Get(Pending(Buy)), 0);
    DownCounts(st.Get(Pending(Sell)), st.width);
  }
}
