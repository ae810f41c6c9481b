/** What cancel, reduce and modify do, and how they answer. */
module Amends {
  import opened Types
  import opened Ladders
  import opened Book
  import opened Matching
  import opened SweepLaws
  import opened Reach
  import opened Engine
  import opened Entries

  // ---- leaving --------------------------------------------------------

  /** In `r` every queue is as in `st` but the one at `at`, which is `q`. */
  ghost predicate OneQueue(st: State, r: State, at: Place, q: Queue)
    requires st.Shaped() && at.tick < st.width
  {
    && r.min == st.min && r.width == st.width && r.halted == st.halted && r.last == st.last && r.nextId == st.nextId
    && (forall s: Shelf :: |r.Get(s)| == st.width)
    && r.Get(at.shelf)[at.tick] == q
    && forall s: Shelf, j :: 0 <= j < st.width && Place(s, j) != at ==> r.Get(s)[j] == st.Get(s)[j]
  }

  /** Order `id` stands at position `k` of the queue at `at`. */
  ghost predicate StandsAt(st: State, id: nat, at: Place, k: nat) {
    at.tick < |st.Get(at.shelf)| && k < |st.Get(at.shelf)[at.tick]| && st.Get(at.shelf)[at.tick][k].id == id
  }

  lemma StandsOnce(st: State, id: nat, at: Place, k: nat)
    requires st.Indexed() && StandsAt(st, id, at, k)
    ensures at.tick < st.width && id in st.live && st.live[id] == at && Seat(st, id) == k && 0 < id < st.nextId
    ensures OrderOf(st, id) == st.Get(at.shelf)[at.tick][k]
  {
    hide State.ListedAt;
    Locate(st, at.shelf, at.tick, k);
  }

  /** A cancel takes exactly that order out, displayed or pending, and says so. */
  lemma CancelOutcome(st: State, id: nat, at: Place, k: nat)
    requires st.Indexed() && StandsAt(st, id, at, k)
    ensures at.tick < st.width
    ensures var r, q := Do(st, Cancel(id)), st.Get(at.shelf)[at.tick];
      && r.reply == Answer(true) && r.st.tape == st.tape + [Cancelled(id)]
      && r.st.live == st.live - {id} && OneQueue(st, r.st, at, q[..k] + q[k + 1..])
  {
    hide State.ListedAt;
    StandsOnce(st, id, at, k);
  }

  /** Nothing of that id is live: no for an answer, and nothing happens. */
  lemma DeadIdIsRefused(st: State, id: nat, delta: nat, price: int, qty: nat)
    requires st.Indexed() && id !in st.live
    ensures Do(st, Cancel(id)) == Do(st, Reduce(id, delta)) == Do(st, Modify(id, price, qty)) ==
      Result(st, Answer(false))
  {}

  // ---- reducing -------------------------------------------------------

  /** A reduction shaves the hidden reserve before the displayed clip, where the order
      stands. One by the whole size or more takes the order out and still answers yes.
      Neither is told to the handler. */
  lemma ReduceOutcome(st: State, id: nat, delta: nat, at: Place, k: nat)
    requires st.Indexed() && StandsAt(st, id, at, k) && !at.shelf.stop
    ensures at.tick < st.width
    ensures var r, q := Do(st, Reduce(id, delta)), st.Get(at.shelf)[at.tick]; var o := q[k];
      && r.reply == Answer(true) && r.st.tape == st.tape
      && if delta >= o.qty + o.reserve
         then r.st.live == st.live - {id} && OneQueue(st, r.st, at, q[..k] + q[k + 1..])
         else r.st.live == st.live && OneQueue(st, r.st, at,
           q[k := if delta <= o.reserve then o.(reserve := o.reserve - delta)
                  else o.(qty := o.qty + o.reserve - delta, reserve := 0)])
  {
    hide State.ListedAt;
    StandsOnce(st, id, at, k);
  }

  /** A pending stop cannot be reduced, nor modified to anything but nothing. */
  lemma PendingStopsStay(st: State, id: nat, delta: nat, price: int, qty: nat)
    requires st.Indexed() && id in st.live && st.live[id].shelf.stop
    ensures Do(st, Reduce(id, delta)) == Result(st, Answer(false))
    ensures Do(st, Modify(id, price, qty)) == if qty == 0 then Do(st, Cancel(id)) else Result(st, Answer(false))
  {}

  // ---- modifying ------------------------------------------------------

  /** To nothing: a cancel. To a price outside the band: refused. To its own price and no
      more than its size: a reduction. */
  lemma ModifyInPlace(st: State, id: nat, price: int, qty: nat, at: Place, k: nat)
    requires st.Indexed() && StandsAt(st, id, at, k) && !at.shelf.stop
    ensures at.tick < st.width
    ensures var o := st.Get(at.shelf)[at.tick][k];
      && Do(st, Modify(id, price, 0)) == Do(st, Cancel(id))
      && (qty > 0 && !(st.min <= price < st.min + st.width) ==>
        Do(st, Modify(id, price, qty)) == Result(st, Answer(false)))
      && (0 < qty <= o.qty + o.reserve && price == st.min + at.tick ==>
            Do(st, Modify(id, price, qty)) == Do(st, Reduce(id, o.qty + o.reserve - qty)))
  {
    hide State.ListedAt;
    StandsOnce(st, id, at, k);
  }

  /** To another price, or to a larger size: the order leaves as if cancelled and comes back
      as a good-till-cancelled limit under the same id, owner, policy and display. It takes
      what is executable without it, and what is left rests last at the new price, showing
      its display when it exceeds that. */
  lemma ReplaceOutcome(st: State, id: nat, price: int, qty: nat, at: Place, k: nat, t: Taker)
    requires Valid(st) && StandsAt(st, id, at, k) && !at.shelf.stop && qty > 0
    requires st.min <= price < st.min + st.width
    requires var o := st.Get(at.shelf)[at.tick][k];
      && (price != st.min + at.tick || qty > o.qty + o.reserve)
      && Sends(t, id, at.shelf.side, o.owner, o.stp) && TakesAt(st, t, price)
    ensures var r, left, o := Do(st, Modify(id, price, qty)), Do(st, Cancel(id)).st, st.Get(at.shelf)[at.tick][k];
      var can := if st.halted then 0 else Executable(left, t); var done := if qty < can then qty else can;
      && r.reply == Answer(true) && r.st.nextId == st.nextId
      && st.tape + [Cancelled(id), Accepted(id, at.shelf.side, price, qty)] <= r.st.tape
      && if done < qty && (st.halted || !Walled(left, t))
         then TookAndRests(left, r.st, t, price - st.min, qty, o.peak, done)
         else Took(left, r.st, t, done) && (done < qty ==> LastSaid(r.st, Cancelled(id)))
  {
    hide State.ListedAt, State.Bounded, StopsInBand, Match, Remove, TradedQty, Executable, Walled, TookAndRests,
      OrderOf, Seat, Rest;
    StandsOnce(st, id, at, k);
    var o, side, tick := OrderOf(st, id), at.shelf.side, st.Tick(price);
    var a, u, left := Reentered(st, id, price, qty), Terms(o.owner, o.stp, o.peak), Do(st, Cancel(id)).st;
    RemoveValid(st, id);
    ReentryIndexed(st, id, price, qty);
    SameBookReach(left, a, t);
    TradedQtyPush(left.tape, Accepted(id, side, price, qty));
    PlaceSteady(a, id, side, tick, qty, GTC, u);
    if st.halted {
      RestsShown(a, id, side, tick, qty, u, t);
    } else {
      LimitTakes(a, id, side, tick, qty, GTC, u, t);
    }
    AcceptedThenTook(left, a, CancelReplace(st, id, price, qty), t, tick, qty, o.peak);
  }
}
