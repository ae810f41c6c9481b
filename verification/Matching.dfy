/** An aggressive order against the opposite side of the book, one maker at a time. */
module Matching {
  import opened Types
  import opened Ladders
  import opened Book

  /** The constant part of an incoming order; `limit` is a tick. */
  datatype Taker = Taker(id: nat, side: Side, limit: int, owner: nat, stp: StpPolicy) {
    function Against(): Side { side.Opposite() }
    function Shelf(): Shelf { Resting(Against()) }
    predicate Reaches(i: int) { if side.Buy? then i <= limit else i >= limit }
    predicate Own(o: Order) { owner != 0 && o.owner == owner }
    /** Self-trade prevention stops this taker at a queue holding one of its own orders. */
    predicate StoppedBy(o: Order) { Own(o) && !stp.CancelMaker? }
  }

  function Clip(o: Order): nat { Min(o.peak, o.reserve) }

  /** An iceberg whose displayed clip is gone shows the next one. */
  function Reload(o: Order): (r: Order)
    requires o.reserve > 0
    ensures r.qty + r.reserve == o.reserve && r.id == o.id && r.owner == o.owner
  {
    o.(qty := Clip(o), reserve := o.reserve - Clip(o))
  }

  /** The head of tick `b` trades `f` at its own price. */
  function Fill(st: State, k: Taker, b: nat, f: nat): State
    requires b < |st.Get(k.Shelf())| && st.Get(k.Shelf())[b] != []
    requires 0 < f <= st.Get(k.Shelf())[b][0].qty
  {
    var o := st.Get(k.Shelf())[b][0];
    Consume(st.Print(st.min + b, Traded(k.id, o.id, st.min + b, f, k.side)), k.Against(), b, f)
  }

  /** The head of tick `b` loses `f` of its displayed clip: it shrinks in place,
      or shows its next clip behind the rest of the queue, or is gone. */
  function Consume(st: State, s: Side, b: nat, f: nat): State
    requires b < |st.Get(Resting(s))| && st.Get(Resting(s))[b] != []
    requires 0 < f <= st.Get(Resting(s))[b][0].qty
  {
    var o := st.Get(Resting(s))[b][0];
    if f < o.qty then
      Amend(st, Resting(s), b, 0, o.(qty := o.qty - f))
    else if o.reserve > 0 then
      Replenish(st, s, b, st.min + b)
    else
      Leave(st, Resting(s), b, 0)
  }

  /** The head of tick `b` shows its next clip behind the others, announced at `price`. */
  function Replenish(st: State, s: Side, b: nat, price: int): State
    requires b < |st.Get(Resting(s))| && st.Get(Resting(s))[b] != []
    requires st.Get(Resting(s))[b][0].reserve > 0
  {
    var o := st.Get(Resting(s))[b][0];
    Requeue(st.Emit(Rested(o.id, s, price, Clip(o))), Resting(s), b, Reload(o))
  }

  function CancelHead(st: State, s: Side, b: nat): State
    requires b < |st.Get(Resting(s))| && st.Get(Resting(s))[b] != []
  {
    Leave(st, Resting(s), b, 0).Emit(Cancelled(st.Get(Resting(s))[b][0].id))
  }

  /** One encounter: either the taker is done, or it goes on against a changed book. */
  datatype Turn = Done(st: State, halt: bool) | Go(st: State, left: nat)

  function TakeTurn(st: State, k: Taker, qty: nat): (r: Turn)
    ensures r.Go? ==> |r.st.Get(k.Shelf())| == |st.Get(k.Shelf())|
    ensures r.Go? ==> r.left < qty || (r.left == qty && Count(r.st.Get(k.Shelf())) < Count(st.Get(k.Shelf())))
  {
    var b := Best(k.Against(), st.Get(k.Shelf()));
    if qty == 0 || b < 0 || !k.Reaches(b) then Done(st, false)
    else
      var o := st.Get(k.Shelf())[b][0];
      CountUpdate(st.Get(k.Shelf()), b, Without(st.Get(k.Shelf())[b], 0));
      if k.Own(o) then
        match k.stp
        case CancelTaker => Done(st, true)
        case CancelMaker => Go(CancelHead(st, k.Against(), b), qty)
        case CancelBoth => Done(CancelHead(st, k.Against(), b), true)
      else
        Go(Fill(st, k, b, Min(qty, o.qty)), qty - Min(qty, o.qty))
  }

  /** `left` is unfilled; `halt` says self-trade prevention stopped the taker. */
  datatype Sweep = Sweep(st: State, left: nat, halt: bool)

  function Match(st: State, k: Taker, qty: nat): Sweep
    decreases qty, Count(st.Get(k.Shelf()))
  {
    match TakeTurn(st, k, qty)
    case Done(st', halt) => Sweep(st', qty, halt)
    case Go(st', left) => Match(st', k, left)
  }

  // ---- what matching never touches ------------------------------------

  /** Matching only works on shelf `s`, moves the last price, and appends to the tape. */
  ghost predicate OnlyShelf(a: State, b: State, s: Shelf) {
    && (forall r: Shelf :: r != s ==> b.Get(r) == a.Get(r))
    && |b.Get(s)| == |a.Get(s)|
    && b.min == a.min && b.halted == a.halted && b.nextId == a.nextId
    && a.tape <= b.tape
    && (forall id :: id in b.live ==> id in a.live && b.live[id] == a.live[id])
    && (forall i :: 0 <= i < |a.Get(s)| && b.Get(s)[i] != [] ==> a.Get(s)[i] != [])
  }

  lemma OnlyShelfTrans(a: State, b: State, c: State, s: Shelf)
    requires OnlyShelf(a, b, s) && OnlyShelf(b, c, s)
    ensures OnlyShelf(a, c, s)
  {}

  lemma SetQueueOnly(st: State, s: Shelf, i: nat, q: Queue, where: map<nat, Place>)
    requires i < |st.Get(s)| && (q != [] ==> st.Get(s)[i] != [])
    requires forall id :: id in where ==> id in st.live && where[id] == st.live[id]
    ensures OnlyShelf(st, st.SetQueue(s, i, q, where), s)
  {}

  /** The index does not depend on the tape or the last price. */
  lemma TellFrame(st: State, last: Option<int>, news: seq<Event>, s: Shelf)
    requires st.Indexed()
    ensures st.(last := last, tape := st.tape + news).Indexed()
    ensures OnlyShelf(st, st.(last := last, tape := st.tape + news), s)
  {
    var t := st.(last := last, tape := st.tape + news);
    forall p: Place | p.tick < t.width ensures t.ListedAt(p) {
      assert st.ListedAt(p);
    }
  }

  lemma LeaveFrame(st: State, s: Shelf, i: nat, k: nat)
    requires st.Indexed() && i < st.width && k < |st.Get(s)[i]|
    ensures Leave(st, s, i, k).Indexed()
    ensures OnlyShelf(st, Leave(st, s, i, k), s)
  {
    LeaveIndexed(st, s, i, k);
    SetQueueOnly(st, s, i, Without(st.Get(s)[i], k), st.live - {st.Get(s)[i][k].id});
  }

  lemma AmendFrame(st: State, s: Shelf, i: nat, k: nat, o: Order)
    requires st.Indexed() && i < st.width && k < |st.Get(s)[i]| && o.id == st.Get(s)[i][k].id
    ensures Amend(st, s, i, k, o).Indexed()
    ensures OnlyShelf(st, Amend(st, s, i, k, o), s)
  {
    AmendIndexed(st, s, i, k, o);
    SetQueueOnly(st, s, i, st.Get(s)[i][k := o], st.live);
  }

  lemma RequeueFrame(st: State, s: Shelf, i: nat, o: Order)
    requires st.Indexed() && i < st.width && st.Get(s)[i] != [] && o.id == st.Get(s)[i][0].id
    ensures Requeue(st, s, i, o).Indexed()
    ensures OnlyShelf(st, Requeue(st, s, i, o), s)
  {
    RequeueIndexed(st, s, i, o);
    SetQueueOnly(st, s, i, st.Get(s)[i][1..] + [o], st.live);
  }

  lemma ReplenishFrame(st: State, s: Side, b: nat, price: int)
    requires st.Indexed() && b < st.width && st.Get(Resting(s))[b] != []
    requires st.Get(Resting(s))[b][0].reserve > 0
    ensures Replenish(st, s, b, price).Indexed()
    ensures OnlyShelf(st, Replenish(st, s, b, price), Resting(s))
  {
    var o := st.Get(Resting(s))[b][0];
    var clip := Rested(o.id, s, price, Clip(o));
    TellFrame(st, st.last, [clip], Resting(s));
    RequeueFrame(st.Emit(clip), Resting(s), b, Reload(o));
    OnlyShelfTrans(st, st.Emit(clip), Replenish(st, s, b, price), Resting(s));
  }

  lemma ConsumeFrame(st: State, s: Side, b: nat, f: nat)
    requires st.Indexed() && b < st.width && st.Get(Resting(s))[b] != []
    requires 0 < f <= st.Get(Resting(s))[b][0].qty
    ensures Consume(st, s, b, f).Indexed()
    ensures OnlyShelf(st, Consume(st, s, b, f), Resting(s))
  {
    hide OnlyShelf;
    hide State.ListedAt;
    var o := st.Get(Resting(s))[b][0];
    if f < o.qty {
      assert Consume(st, s, b, f) == Amend(st, Resting(s), b, 0, o.(qty := o.qty - f));
      AmendFrame(st, Resting(s), b, 0, o.(qty := o.qty - f));
    } else if o.reserve > 0 {
      assert Consume(st, s, b, f) == Replenish(st, s, b, st.min + b);
      ReplenishFrame(st, s, b, st.min + b);
    } else {
      assert Consume(st, s, b, f) == Leave(st, Resting(s), b, 0);
      LeaveFrame(st, Resting(s), b, 0);
    }
  }

  lemma FillFrame(st: State, k: Taker, b: nat, f: nat)
    requires st.Indexed() && b < st.width && st.Get(k.Shelf())[b] != []
    requires 0 < f <= st.Get(k.Shelf())[b][0].qty
    ensures Fill(st, k, b, f).Indexed()
    ensures OnlyShelf(st, Fill(st, k, b, f), k.Shelf())
  {
    var trade := Traded(k.id, st.Get(k.Shelf())[b][0].id, st.min + b, f, k.side);
    var st1 := st.Print(st.min + b, trade);
    TellFrame(st, Some(st.min + b), [trade], k.Shelf());
    ConsumeFrame(st1, k.Against(), b, f);
    OnlyShelfTrans(st, st1, Fill(st, k, b, f), k.Shelf());
  }

  lemma CancelHeadFrame(st: State, s: Side, b: nat)
    requires st.Indexed() && b < st.width && st.Get(Resting(s))[b] != []
    ensures CancelHead(st, s, b).Indexed()
    ensures OnlyShelf(st, CancelHead(st, s, b), Resting(s))
  {
    var t := Leave(st, Resting(s), b, 0);
    LeaveFrame(st, Resting(s), b, 0);
    TellFrame(t, t.last, [Cancelled(st.Get(Resting(s))[b][0].id)], Resting(s));
    OnlyShelfTrans(st, t, CancelHead(st, s, b), Resting(s));
  }

  lemma TurnFrame(st: State, k: Taker, qty: nat)
    requires st.Indexed()
    ensures TakeTurn(st, k, qty).st.Indexed()
    ensures OnlyShelf(st, TakeTurn(st, k, qty).st, k.Shelf())
  {
    var b := Best(k.Against(), st.Get(k.Shelf()));
    if qty > 0 && b >= 0 && k.Reaches(b) {
      var o := st.Get(k.Shelf())[b][0];
      if k.Own(o) {
        CancelHeadFrame(st, k.Against(), b);
      } else {
        FillFrame(st, k, b, Min(qty, o.qty));
      }
    }
  }

  lemma {:induction false} MatchFrame(st: State, k: Taker, qty: nat)
    requires st.Indexed()
    ensures Match(st, k, qty).st.Indexed()
    ensures OnlyShelf(st, Match(st, k, qty).st, k.Shelf())
    ensures Match(st, k, qty).left <= qty
    decreases qty, Count(st.Get(k.Shelf()))
  {
    TurnFrame(st, k, qty);
    var r := TakeTurn(st, k, qty);
    if r.Go? {
      MatchFrame(r.st, k, r.left);
      OnlyShelfTrans(st, r.st, Match(st, k, qty).st, k.Shelf());
    }
  }

  /** Matching stops only when filled, halted by self-trade prevention, or out of reach. */
  lemma {:induction false} MatchExhausts(st: State, k: Taker, qty: nat)
    ensures var r := Match(st, k, qty);
            r.left == 0 || r.halt ||
            r.st.BestTick(k.Against()) < 0 || !k.Reaches(r.st.BestTick(k.Against()))
    decreases qty, Count(st.Get(k.Shelf()))
  {
    var r := TakeTurn(st, k, qty);
    if r.Go? {
      MatchExhausts(r.st, k, r.left);
    }
  }
}
