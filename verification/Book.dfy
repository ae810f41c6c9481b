/** The abstract engine state and its one mutator: replacing the queue at a place. */
module Book {
  import opened Types
  import opened Ladders

  /** The four ladders: displayed book and pending stops, each with two sides. */
  datatype Shelf = Shelf(stop: bool, side: Side)

  datatype Place = Place(shelf: Shelf, tick: nat)

  function Resting(s: Side): Shelf { Shelf(false, s) }
  function Pending(s: Side): Shelf { Shelf(true, s) }

  lemma ShelfCases(s: Shelf)
    ensures s == Resting(Buy) || s == Resting(Sell) || s == Pending(Buy) || s == Pending(Sell)
  {
    assert s.side == Buy || s.side == Sell;
  }

  /** `live` says where every live order id is; `tape` is what the handler has been told. */
  datatype State = State(
    min: int, width: nat, book: map<Shelf, Ladder>,
    live: map<nat, Place>, nextId: nat,
    last: Option<int>, halted: bool,
    tape: seq<Event>)
  {
    ghost predicate Shaped() {
      width > 0 && forall s: Shelf :: s in book && |book[s]| == width
    }

    function Get(s: Shelf): Ladder { if s in book then book[s] else [] }

    /** Puts queue `q` at tick `i` of shelf `s`; `where` is the new index of live ids. */
    function SetQueue(s: Shelf, i: nat, q: Queue, where: map<nat, Place>): State
      requires i < |Get(s)|
    {
      this.(book := book[s := Get(s)[i := q]], live := where)
    }

    function Emit(e: Event): State { this.(tape := tape + [e]) }

    /** A trade at `price` is told to the handler and becomes the last trade. */
    function Print(price: int, e: Event): State { this.(last := Some(price)).Emit(e) }

    function Tick(price: int): int { price - min }
    function InBand(price: int): bool { min <= price < min + width }
    function BestTick(s: Side): int { Best(s, Get(Resting(s))) }

    /** The book is neither locked nor crossed. */
    predicate Uncrossed() {
      BestTick(Buy) < 0 || BestTick(Sell) < 0 || BestTick(Buy) < BestTick(Sell)
    }

    /** The queue at `p` holds distinct ids, exactly those that `live` files there. */
    ghost predicate ListedAt(p: Place)
      requires p.tick < |Get(p.shelf)|
    {
      var q := Get(p.shelf)[p.tick];
      && Distinct(q)
      && forall id :: id in Ids(q) <==> id in live && live[id] == p
    }

    ghost predicate Bounded() {
      && nextId > 0
      && forall id :: id in live ==> 0 < id < nextId && live[id].tick < width
    }

    /** Every id is at exactly one place, and `live` names it. */
    ghost predicate Indexed() {
      && Shaped()
      && Bounded()
      && forall p: Place :: p.tick < width ==> ListedAt(p)
    }
  }

  /** An engine with no orders over the band [min, min + width). */
  function Fresh(min: int, width: nat): State {
    var none := seq(width, i => []);
    State(min, width, map[Resting(Buy) := none, Resting(Sell) := none, Pending(Buy) := none, Pending(Sell) := none],
      map[], 1, None, false, [])
  }

  lemma FreshIsIndexed(min: int, width: nat)
    requires width > 0
    ensures Fresh(min, width).Indexed() && Fresh(min, width).Uncrossed()
  {
    var st := Fresh(min, width);
    forall s: Shelf ensures s in st.book && st.book[s] == seq(width, i => []) { ShelfCases(s); }
  }

  /** Replacing a queue keeps the index exact when the new index agrees with
      the old one away from that place and with the new queue at it. */
  lemma SetQueueIndexed(st: State, s: Shelf, i: nat, q: Queue, where: map<nat, Place>)
    requires st.Indexed() && i < st.width && Distinct(q)
    requires forall id :: id in Ids(q) <==> id in where && where[id] == Place(s, i)
    requires forall id :: id in Ids(q) ==> 0 < id < st.nextId
    requires forall id :: id in st.live && st.live[id] != Place(s, i) ==> id in where && where[id] == st.live[id]
    requires forall id :: id in where && where[id] != Place(s, i) ==> id in st.live && where[id] == st.live[id]
    ensures st.SetQueue(s, i, q, where).Indexed()
  {
    var t := st.SetQueue(s, i, q, where);
    forall p: Place | p.tick < t.width ensures t.ListedAt(p) {
      assert st.ListedAt(p);
      if p == Place(s, i) {
        assert t.Get(s)[i] == q;
      } else {
        assert t.Get(p.shelf)[p.tick] == st.Get(p.shelf)[p.tick];
      }
    }
  }

  /** The order filed under a live id, and its position in the queue. */
  function Seat(st: State, id: nat): (k: nat)
    requires st.Indexed() && id in st.live
    ensures k < |st.Get(st.live[id].shelf)[st.live[id].tick]|
    ensures st.Get(st.live[id].shelf)[st.live[id].tick][k].id == id
  {
    var p := st.live[id];
    assert st.ListedAt(p);
    IndexOf(st.Get(p.shelf)[p.tick], id)
  }

  function OrderOf(st: State, id: nat): (o: Order)
    requires st.Indexed() && id in st.live
    ensures o.id == id
  {
    st.Get(st.live[id].shelf)[st.live[id].tick][Seat(st, id)]
  }

  // ---- the moves every operation is made of ---------------------------

  /** Order `o` joins the back of the queue at tick `i`. */
  function Join(st: State, s: Shelf, i: nat, o: Order): State
    requires i < |st.Get(s)|
  {
    st.SetQueue(s, i, st.Get(s)[i] + [o], st.live[o.id := Place(s, i)])
  }

  /** The order at position `k` of tick `i` leaves. */
  function Leave(st: State, s: Shelf, i: nat, k: nat): State
    requires i < |st.Get(s)| && k < |st.Get(s)[i]|
  {
    st.SetQueue(s, i, Without(st.Get(s)[i], k), st.live - {st.Get(s)[i][k].id})
  }

  /** The order at position `k` of tick `i` changes in place. */
  function Amend(st: State, s: Shelf, i: nat, k: nat, o: Order): State
    requires i < |st.Get(s)| && k < |st.Get(s)[i]|
  {
    st.SetQueue(s, i, st.Get(s)[i][k := o], st.live)
  }

  /** The head of tick `i` moves, as `o`, to the back of its queue. */
  function Requeue(st: State, s: Shelf, i: nat, o: Order): State
    requires i < |st.Get(s)| && st.Get(s)[i] != []
  {
    st.SetQueue(s, i, st.Get(s)[i][1..] + [o], st.live)
  }

  lemma JoinIndexed(st: State, s: Shelf, i: nat, o: Order)
    requires st.Indexed() && i < st.width
    requires 0 < o.id < st.nextId && o.id !in st.live
    ensures Join(st, s, i, o).Indexed()
  {
    var q := st.Get(s)[i];
    assert st.ListedAt(Place(s, i));
    IdsAppend(q, o);
    SetQueueIndexed(st, s, i, q + [o], st.live[o.id := Place(s, i)]);
  }

  lemma LeaveIndexed(st: State, s: Shelf, i: nat, k: nat)
    requires st.Indexed() && i < st.width && k < |st.Get(s)[i]|
    ensures Leave(st, s, i, k).Indexed()
    ensures st.Get(s)[i][k].id in st.live && st.live[st.Get(s)[i][k].id] == Place(s, i)
  {
    var q := st.Get(s)[i];
    assert st.ListedAt(Place(s, i));
    IdsWithout(q, k);
    IdAt(q, k);
    SetQueueIndexed(st, s, i, Without(q, k), st.live - {q[k].id});
  }

  lemma AmendIndexed(st: State, s: Shelf, i: nat, k: nat, o: Order)
    requires st.Indexed() && i < st.width && k < |st.Get(s)[i]| && o.id == st.Get(s)[i][k].id
    ensures Amend(st, s, i, k, o).Indexed()
  {
    assert st.ListedAt(Place(s, i));
    IdsReplace(st.Get(s)[i], k, o);
    SetQueueIndexed(st, s, i, st.Get(s)[i][k := o], st.live);
  }

  lemma RequeueIndexed(st: State, s: Shelf, i: nat, o: Order)
    requires st.Indexed() && i < st.width && st.Get(s)[i] != [] && o.id == st.Get(s)[i][0].id
    ensures Requeue(st, s, i, o).Indexed()
  {
    assert st.ListedAt(Place(s, i));
    IdsRequeue(st.Get(s)[i], o);
    SetQueueIndexed(st, s, i, st.Get(s)[i][1..] + [o], st.live);
  }

  lemma Locate(e: State, s: Shelf, i: nat, k: nat)
    requires e.Indexed() && i < e.width && k < |e.Get(s)[i]|
    ensures var id := e.Get(s)[i][k].id;
      id in e.live && e.live[id] == Place(s, i) && Seat(e, id) == k && OrderOf(e, id) == e.Get(s)[i][k]
  {
    assert e.ListedAt(Place(s, i));
    IdAt(e.Get(s)[i], k);
  }

  /** The queue where a live id stands. */
  function Home(st: State, id: nat): (q: Queue)
    requires st.Indexed() && id in st.live
    ensures Seat(st, id) < |q| && q[Seat(st, id)] == OrderOf(st, id)
  {
    st.Get(st.live[id].shelf)[st.live[id].tick]
  }

  lemma InQueue(st: State, at: Place, o: Order)
    requires st.Indexed() && at.tick < st.width && o in st.Get(at.shelf)[at.tick]
    ensures o.id in st.live && st.live[o.id] == at && OrderOf(st, o.id) == o
  {
    var q := st.Get(at.shelf)[at.tick];
    var k := Position(q, o);
    Locate(st, at.shelf, at.tick, k);
  }

  /** A change to one queue leaves alone every order that stays in it or stands elsewhere. */
  lemma OrderKept(st: State, s: Shelf, i: nat, q: Queue, where: map<nat, Place>, id: nat)
    requires st.Indexed() && i < st.width && id in st.live
    requires var t := st.SetQueue(s, i, q, where); t.Indexed() && id in t.live && t.live[id] == st.live[id]
    requires OrderOf(st, id) in st.Get(s)[i] ==> OrderOf(st, id) in q
    ensures OrderOf(st.SetQueue(s, i, q, where), id) == OrderOf(st, id)
  {
    hide State.ListedAt;
    var t := st.SetQueue(s, i, q, where);
    var at := st.live[id];
    assert OrderOf(st, id) in Home(st, id);
    assert OrderOf(st, id) in t.Get(at.shelf)[at.tick];
    InQueue(t, at, OrderOf(st, id));
  }

  /** What happened between two states. */
  function News(a: State, t: State): seq<Event>
    requires a.tape <= t.tape
  {
    t.tape[|a.tape|..]
  }
}
