/** Price ladders: one FIFO queue per tick. Best levels and volumes. */
module Ladders {
  import opened Types

  type Queue = seq<Order>
  type Ladder = seq<Queue>

  // ---- one queue ------------------------------------------------------

  /** What an order contributes to a total. */
  type Weight = Order -> nat

  function Shown(o: Order): nat { o.qty }
  function Dark(o: Order): nat { o.reserve }
  /** All an order can execute: its displayed clip and its hidden reserve. */
  function Size(o: Order): nat { o.qty + o.reserve }
  function One(o: Order): nat { 1 }

  function Sum(w: Weight, q: Queue): nat {
    if q == [] then 0 else w(q[0]) + Sum(w, q[1..])
  }

  function Ids(q: Queue): set<nat> {
    if q == [] then {} else {q[0].id} + Ids(q[1..])
  }

  predicate Distinct(q: Queue) {
    q == [] || (q[0].id !in Ids(q[1..]) && Distinct(q[1..]))
  }

  function Without(q: Queue, k: nat): Queue
    requires k < |q|
  {
    q[..k] + q[k + 1..]
  }

  /** Position of the first order carrying `id`. */
  function IndexOf(q: Queue, id: nat): (k: nat)
    requires id in Ids(q)
    ensures k < |q| && q[k].id == id
  {
    if q[0].id == id then 0 else 1 + IndexOf(q[1..], id)
  }

  lemma {:induction false} IdAt(q: Queue, k: nat)
    requires k < |q|
    ensures q[k].id in Ids(q)
    ensures Distinct(q) ==> IndexOf(q, q[k].id) == k
  {
    if k > 0 { IdAt(q[1..], k - 1); }
  }

  lemma {:induction false} SumAppend(w: Weight, a: Queue, b: Queue)
    ensures Sum(w, a + b) == Sum(w, a) + Sum(w, b)
  {
    if a == [] {
      assert a + b == b;
    } else {
      assert (a + b)[1..] == a[1..] + b;
      SumAppend(w, a[1..], b);
    }
  }

  lemma SumAt(w: Weight, q: Queue, k: nat)
    requires k < |q|
    ensures Sum(w, q) == Sum(w, q[..k]) + w(q[k]) + Sum(w, q[k + 1..])
  {
    assert q == q[..k] + q[k..];
    SumAppend(w, q[..k], q[k..]);
    assert q[k..][1..] == q[k + 1..];
  }

  lemma SumWithout(w: Weight, q: Queue, k: nat)
    requires k < |q|
    ensures Sum(w, Without(q, k)) == Sum(w, q) - w(q[k])
  {
    SumAt(w, q, k);
    SumAppend(w, q[..k], q[k + 1..]);
  }

  lemma SumReplace(w: Weight, q: Queue, k: nat, o: Order)
    requires k < |q|
    ensures Sum(w, q[k := o]) == Sum(w, q) - w(q[k]) + w(o)
  {
    SumAt(w, q, k);
    SumAt(w, q[k := o], k);
    assert q[k := o][..k] == q[..k];
    assert q[k := o][k + 1..] == q[k + 1..];
  }

  lemma SumJoin(w: Weight, q: Queue, o: Order)
    ensures Sum(w, q + [o]) == Sum(w, q) + w(o)
  {
    SumAppend(w, q, [o]);
  }

  lemma {:induction false} SumOne(q: Queue)
    ensures Sum(One, q) == |q|
  {
    if q != [] { SumOne(q[1..]); }
  }

  lemma {:induction false} IdsAppend(q: Queue, o: Order)
    ensures Ids(q + [o]) == Ids(q) + {o.id}
    ensures Distinct(q) && o.id !in Ids(q) ==> Distinct(q + [o])
  {
    if q == [] {
      assert q + [o] == [o];
    } else {
      assert (q + [o])[1..] == q[1..] + [o];
      IdsAppend(q[1..], o);
    }
  }

  lemma {:induction false} IdsWithout(q: Queue, k: nat)
    requires k < |q| && Distinct(q)
    ensures Ids(Without(q, k)) == Ids(q) - {q[k].id}
    ensures Distinct(Without(q, k))
  {
    if k == 0 {
      assert Without(q, 0) == q[1..];
    } else {
      assert Without(q, k)[1..] == Without(q[1..], k - 1);
      IdsWithout(q[1..], k - 1);
      IdAt(q[1..], k - 1);
    }
  }

  lemma {:induction false} IdsReplace(q: Queue, k: nat, o: Order)
    requires k < |q| && o.id == q[k].id
    ensures Ids(q[k := o]) == Ids(q)
    ensures Distinct(q) ==> Distinct(q[k := o])
  {
    if k == 0 {
      assert q[k := o][1..] == q[1..];
    } else {
      assert q[k := o][1..] == q[1..][k - 1 := o];
      IdsReplace(q[1..], k - 1, o);
    }
  }

  lemma IdsRequeue(q: Queue, o: Order)
    requires q != [] && o.id == q[0].id && Distinct(q)
    ensures Ids(q[1..] + [o]) == Ids(q) && Distinct(q[1..] + [o])
  {
    IdsAppend(q[1..], o);
  }

  // ---- best level -----------------------------------------------------

  /** Tick `i` has priority over tick `j` on side `s`. */
  predicate Beats(s: Side, i: int, j: int) { if s.Buy? then i > j else i < j }

  predicate IsBest(s: Side, l: Ladder, b: int) {
    && -1 <= b < |l|
    && (b >= 0 ==> l[b] != [])
    && forall j :: 0 <= j < |l| && l[j] != [] ==> b >= 0 && !Beats(s, j, b)
  }

  function LowestFrom(l: Ladder, i: nat): (r: int)
    requires i <= |l|
    ensures -1 <= r < |l|
    ensures r >= 0 ==> i <= r && l[r] != []
    ensures forall j :: i <= j < |l| && l[j] != [] ==> 0 <= r <= j
    decreases |l| - i
  {
    if i == |l| then -1 else if l[i] != [] then i else LowestFrom(l, i + 1)
  }

  function HighestBelow(l: Ladder, i: nat): (r: int)
    requires i <= |l|
    ensures -1 <= r < i
    ensures r >= 0 ==> l[r] != []
    ensures forall j :: 0 <= j < i && l[j] != [] ==> j <= r
  {
    if i == 0 then -1 else if l[i - 1] != [] then i - 1 else HighestBelow(l, i - 1)
  }

  /** Highest occupied tick for buys, lowest for sells, -1 when empty. */
  function Best(s: Side, l: Ladder): (b: int)
    ensures IsBest(s, l, b)
  {
    if s.Buy? then HighestBelow(l, |l|) else LowestFrom(l, 0)
  }

  lemma BestIsUnique(s: Side, l: Ladder, b: int)
    requires IsBest(s, l, b)
    ensures b == Best(s, l)
  {
    var c := Best(s, l);
    if b >= 0 { assert l[b] != []; }
    if c >= 0 { assert l[c] != []; }
  }

  // ---- totals over a range of ticks -----------------------------------

  function Span(w: Weight, l: Ladder, lo: nat, hi: nat): nat
    requires lo <= hi <= |l|
    decreases hi - lo
  {
    if lo == hi then 0 else Sum(w, l[lo]) + Span(w, l, lo + 1, hi)
  }

  function Total(w: Weight, l: Ladder): nat { Span(w, l, 0, |l|) }

  lemma {:induction false} SpanSplit(w: Weight, l: Ladder, lo: nat, mid: nat, hi: nat)
    requires lo <= mid <= hi <= |l|
    ensures Span(w, l, lo, hi) == Span(w, l, lo, mid) + Span(w, l, mid, hi)
    decreases mid - lo
  {
    if lo < mid { SpanSplit(w, l, lo + 1, mid, hi); }
  }

  lemma {:induction false} SpanSame(w: Weight, l: Ladder, m: Ladder, lo: nat, hi: nat)
    requires lo <= hi <= |l| && |m| == |l|
    requires forall j :: lo <= j < hi ==> l[j] == m[j]
    ensures Span(w, l, lo, hi) == Span(w, m, lo, hi)
    decreases hi - lo
  {
    if lo < hi { SpanSame(w, l, m, lo + 1, hi); }
  }

  lemma SpanUpdate(w: Weight, l: Ladder, i: nat, q: Queue, lo: nat, hi: nat)
    requires i < |l| && lo <= hi <= |l|
    ensures lo <= i < hi ==> Span(w, l[i := q], lo, hi) == Span(w, l, lo, hi) - Sum(w, l[i]) + Sum(w, q)
    ensures !(lo <= i < hi) ==> Span(w, l[i := q], lo, hi) == Span(w, l, lo, hi)
  {
    var m := l[i := q];
    if lo <= i < hi {
      SpanSplit(w, l, lo, i, hi);
      SpanSplit(w, m, lo, i, hi);
      SpanSame(w, l, m, lo, i);
      SpanSame(w, l, m, i + 1, hi);
    } else {
      SpanSame(w, l, m, lo, hi);
    }
  }

  /** One occupied tick makes a range weigh at least what its head does. */
  lemma SpanOccupied(w: Weight, l: Ladder, i: nat, lo: nat, hi: nat)
    requires lo <= i < hi <= |l| && l[i] != []
    ensures Span(w, l, lo, hi) >= w(l[i][0])
  {
    SpanSplit(w, l, lo, i, hi);
  }

  lemma {:induction false} SpanEmpty(w: Weight, l: Ladder, lo: nat, hi: nat)
    requires lo <= hi <= |l|
    requires forall j :: lo <= j < hi ==> l[j] == []
    ensures Span(w, l, lo, hi) == 0
    decreases hi - lo
  {
    if lo < hi { SpanEmpty(w, l, lo + 1, hi); }
  }

  /** Number of orders on a ladder. */
  function Count(l: Ladder): nat { Total(One, l) }

  lemma CountUpdate(l: Ladder, i: nat, q: Queue)
    requires i < |l|
    ensures Count(l[i := q]) == Count(l) - |l[i]| + |q|
  {
    SpanUpdate(One, l, i, q, 0, |l|);
    SumOne(l[i]);
    SumOne(q);
  }

  lemma {:induction false} Position(q: Queue, o: Order) returns (k: nat)
    requires o in q
    ensures k < |q| && q[k] == o
  {
    if q[0] == o { k := 0; } else { k := Position(q[1..], o); k := k + 1; }
  }

  lemma KeptByWithout(q: Queue, k: nat, o: Order)
    requires k < |q| && o in q && o != q[k]
    ensures o in Without(q, k)
  {
    var j := Position(q, o);
    assert Without(q, k)[if j < k then j else j - 1] == o;
  }
}
