/** A venue's Replace message: what the book builder makes of it, and of the new reference. */
module FeedReplace {
  import opened Types
  import opened Ladders
  import opened Book
  import opened Matching
  import opened Engine
  import opened Safety
  import opened Amends
  import opened Icebergs
  import opened Feed
  import opened FeedMirror
  import opened StopHistory

  // ---- what every builder is ------------------------------------------

  /** The rebuilt engine holds orders of no owner that hide nothing, and no stop. */
  ghost predicate Builds(b: Builder) { BuilderValid(b) && AllProper(b.engine, true) && NoStops(b.engine) }

  /** The call an order-book message makes. */
  predicate FeedOp(op: Op) {
    || (op.SubmitLimit? && op.owner == 0) || op.Cancel? || op.Reduce? || op.Modify? || op.Halt? || op.Resume?
  }

  /** A call that submits no stop leaves none pending where none was. */
  lemma StaysStopless(e: State, op: Op)
    requires Valid(e) && NoStops(e) && !StopOrders.IsStop(op)
    ensures NoStops(Do(e, op).st)
  {
    hide State.ListedAt, StopsInBand, Do;
    DoFewer(e, op);
    DoValid(e, op);
    var t := Do(e, op).st;
    forall id | id in t.live ensures !t.live[id].shelf.stop {
      if t.live[id].shelf.stop { PendingBefore(e, t, id); }
    }
  }

  lemma PendingBefore(e: State, t: State, id: nat)
    requires e.Indexed() && t.Indexed() && OnlyFewer(e, t) && id in t.live && t.live[id].shelf.stop
    ensures id in e.live && e.live[id].shelf.stop
  {
    hide State.ListedAt;
    var at, o := t.live[id], OrderOf(t, id);
    assert at.shelf == Pending(at.shelf.side);
    assert o in t.Get(at.shelf)[at.tick] && o in e.Get(at.shelf)[at.tick];
    InQueue(e, at, o);
  }

  lemma FeedStep(e: State, op: Op)
    requires Valid(e) && NoStops(e) && AllProper(e, true) && FeedOp(op)
    ensures Step(e, op) == Do(e, op) && Valid(Do(e, op).st) && NoStops(Do(e, op).st) && AllProper(Do(e, op).st, true)
  {
    hide State.ListedAt, StopsInBand, Do, Pump, AllProper;
    DoValid(e, op);
    DoProper(e, op, true);
    StaysStopless(e, op);
    NoStopsQuiet(Do(e, op).st);
  }

  lemma NewBuilds(min: int, width: nat)
    requires width > 0
    ensures Builds(NewBuilder(min, width))
  {
    hide State.ListedAt, AllProper;
    FreshIsSafe(min, width);
    FreshProper(min, width, true);
  }

  /** Whatever messages it is fed, a builder stays one. */
  lemma ApplyBuilds(b: Builder, m: Message)
    requires Builds(b)
    ensures Builds(Apply(b, m))
  {
    hide State.ListedAt, StopsInBand, Step, Do, AllProper;
    ApplyValid(b, m);
    var e := b.engine;
    match m {
      case Add(_, side, qty, price) => FeedStep(e, SubmitLimit(side, price, qty, GTC, 0, CancelTaker));
      case Execute(ref, qty) => if ref in b.refmap { FeedStep(e, Op.Reduce(b.refmap[ref], qty)); }
      case ExecuteAt(ref, qty, _) => if ref in b.refmap { FeedStep(e, Op.Reduce(b.refmap[ref], qty)); }
      case Shrink(ref, qty) => if ref in b.refmap { FeedStep(e, Op.Reduce(b.refmap[ref], qty)); }
      case Delete(ref) => if ref in b.refmap { FeedStep(e, Op.Cancel(b.refmap[ref])); }
      case Replace(ref, _, qty, price) => if ref in b.refmap { FeedStep(e, Op.Modify(b.refmap[ref], price, qty)); }
      case CrossPrint(_, _) =>
      case Action(halted) => FeedStep(e, if halted then Op.Halt else Op.Resume);
    }
  }

  lemma {:induction false} ReplayBuilds(b: Builder, ms: seq<Message>)
    requires Builds(b)
    ensures Builds(Replay(b, ms))
    decreases |ms|
  {
    hide Apply, Builds;
    BuildsValid(b);
    if ms != [] {
      ReplayBuilds(b, ms[..|ms| - 1]);
      ApplyBuilds(Replay(b, ms[..|ms| - 1]), ms[|ms| - 1]);
    }
  }

  lemma BuildsValid(b: Builder)
    requires Builds(b)
    ensures BuilderValid(b)
  {}

  // ---- references -----------------------------------------------------

  /** Reference `newRef` took over from `ref` what that named, and no other changed. */
  ghost predicate TakesOver(before: map<nat, nat>, after: map<nat, nat>, ref: nat, newRef: nat) {
    && ref in before && newRef in after && after[newRef] == before[ref]
    && (ref != newRef ==> ref !in after)
    && forall x :: x != ref && x != newRef ==> (x in after <==> x in before) && (x in before ==> after[x] == before[x])
  }

  /** A Replace of an unknown reference does nothing. Of a known one it modifies the order the
      reference names; refused, nothing changes; taken, the new reference names that order
      and the old one is forgotten. */
  lemma ReplaceRebinds(b: Builder, ref: nat, newRef: nat, qty: nat, price: int)
    requires Builds(b)
    ensures var r := Apply(b, Replace(ref, newRef, qty, price));
      if ref !in b.refmap then r == b
      else
        var d := Do(b.engine, Modify(b.refmap[ref], price, qty));
        if d.reply == Answer(true) then r.engine == d.st && TakesOver(b.refmap, r.refmap, ref, newRef) else r == b
  {
    hide State.ListedAt, StopsInBand, Step, CancelReplace, DoReduce, Remove, AllProper;
    if ref in b.refmap {
      FeedStep(b.engine, Modify(b.refmap[ref], price, qty));
      RefusedModify(b.engine, b.refmap[ref], price, qty);
    }
  }

  lemma RefusedModify(e: State, id: nat, price: int, qty: nat)
    requires e.Indexed()
    ensures Do(e, Modify(id, price, qty)).reply != Answer(true) ==> Do(e, Modify(id, price, qty)).st == e
  {
    hide State.ListedAt, CancelReplace, Remove;
  }

  /** What names an order acts on that order: an execution or a shrink reduces it, a delete
      cancels it, and an unknown reference does nothing. */
  lemma ReferenceActs(b: Builder, ref: nat, qty: nat, price: int)
    requires Builds(b)
    ensures Apply(b, Execute(ref, qty)) == Apply(b, ExecuteAt(ref, qty, price)) == Apply(b, Shrink(ref, qty))
    ensures if ref !in b.refmap then Apply(b, Execute(ref, qty)) == Apply(b, Delete(ref)) == b
      else
        && Apply(b, Execute(ref, qty)).engine == Do(b.engine, Reduce(b.refmap[ref], qty)).st
        && Apply(b, Delete(ref)) == Builder(Do(b.engine, Cancel(b.refmap[ref])).st, b.refmap - {ref})
  {
    hide State.ListedAt, StopsInBand, Step, Do, AllProper;
    if ref in b.refmap {
      FeedStep(b.engine, Op.Reduce(b.refmap[ref], qty));
      FeedStep(b.engine, Op.Cancel(b.refmap[ref]));
    }
  }

  // ---- the order ------------------------------------------------------

  /** The taken order stands at `tick` with quantity `qty`: where it stood when it stays at its
      price and does not grow, else behind every other order there. */
  ghost predicate Restated(e: State, r: State, at: Place, k: nat, tick: nat, qty: nat)
    requires e.Shaped() && at.tick < e.width && k < |e.Get(at.shelf)[at.tick]| && tick < e.width && qty > 0
  {
    var q := e.Get(at.shelf)[at.tick]; var o := q[k].(qty := qty);
    if tick == at.tick && qty <= q[k].qty then OneQueue(e, r, at, q[k := o])
    else
      && r.Shaped() && r.width == e.width && r.min == e.min && r.halted == e.halted && r.last == e.last
      && r.Get(at.shelf)[tick] == (if tick == at.tick then q[..k] + q[k + 1..] else e.Get(at.shelf)[tick]) + [o]
      && (tick != at.tick ==> r.Get(at.shelf)[at.tick] == q[..k] + q[k + 1..])
      && forall s: Shelf, j :: 0 <= j < e.width && (s != at.shelf || (j != at.tick && j != tick)) ==>
        r.Get(s)[j] == e.Get(s)[j]
  }

  /** On a book where the new price meets nothing, the modified order stands exactly so. */
  lemma ReplaceStands(e: State, id: nat, at: Place, k: nat, tick: nat, qty: nat)
    requires Valid(e) && NoStops(e) && AllProper(e, true) && StandsAt(e, id, at, k) && tick < e.width && qty > 0
    requires e.halted || !WouldCross(e, at.shelf.side, tick)
    ensures at.tick < e.width && !at.shelf.stop
    ensures var d := Do(e, Modify(id, e.min + tick, qty));
      d.reply == Answer(true) && Restated(e, d.st, at, k, tick, qty)
  {
    hide State.ListedAt, StopsInBand, Match, AllProper;
    StandsOnce(e, id, at, k);
    ProperOrder(e, id, true);
    var o, op := e.Get(at.shelf)[at.tick][k], Modify(id, e.min + tick, qty);
    assert at.shelf == Resting(at.shelf.side);
    if tick == at.tick && qty <= o.qty {
      ModifyInPlace(e, id, e.min + tick, qty, at, k);
      ReduceOutcome(e, id, o.qty - qty, at, k);
    } else {
      MovedStands(e, id, at, k, tick, qty);
    }
  }

  lemma MovedStands(e: State, id: nat, at: Place, k: nat, tick: nat, qty: nat)
    requires Valid(e) && StandsAt(e, id, at, k) && at.shelf == Resting(at.shelf.side) && tick < e.width && qty > 0
    requires Proper(at.shelf, e.Get(at.shelf)[at.tick][k], true) && at.tick < e.width
    requires e.halted || !WouldCross(e, at.shelf.side, tick)
    requires tick != at.tick || qty > e.Get(at.shelf)[at.tick][k].qty
    ensures var d := Do(e, Modify(id, e.min + tick, qty));
      d.reply == Answer(true) && Restated(e, d.st, at, k, tick, qty)
  {
    hide State.ListedAt, StopsInBand, Do, Rest, OrderOf, Seat, Remove;
    CancelOutcome(e, id, at, k);
    RejoinsPlainly(e, id, at, k, tick, qty);
    var o, a := e.Get(at.shelf)[at.tick][k], Do(e, Cancel(id)).st.Emit(Accepted(id, at.shelf.side, e.min + tick, qty));
    RestBook(a, id, at.shelf.side, tick, qty, Terms(o.owner, o.stp, o.peak));
    RestOtherShelves(a, id, at.shelf.side, tick, qty, Terms(o.owner, o.stp, o.peak));
  }

  lemma RestOtherShelves(st: State, id: nat, side: Side, tick: nat, qty: nat, t: Terms)
    requires st.Shaped() && tick < st.width && qty > 0
    ensures var r := Rest(st, id, side, tick, qty, t);
      r.Shaped() && forall s: Shelf :: s != Resting(side) ==> r.Get(s) == st.Get(s)
  {}

  /** Replaced to a price that meets nothing, an order just rests again. */
  lemma RejoinsPlainly(e: State, id: nat, at: Place, k: nat, tick: nat, qty: nat)
    requires Valid(e) && StandsAt(e, id, at, k) && at.shelf == Resting(at.shelf.side) && tick < e.width && qty > 0
    requires Proper(at.shelf, e.Get(at.shelf)[at.tick][k], true) && at.tick < e.width
    requires e.halted || !WouldCross(e, at.shelf.side, tick)
    requires tick != at.tick || qty > e.Get(at.shelf)[at.tick][k].qty
    ensures var d, o := Do(e, Modify(id, e.min + tick, qty)), e.Get(at.shelf)[at.tick][k];
      var a := Do(e, Cancel(id)).st.Emit(Accepted(id, at.shelf.side, e.min + tick, qty));
      && a.Shaped() && a.width == e.width && d.reply == Answer(true)
      && d.st == Rest(a, id, at.shelf.side, tick, qty, Terms(o.owner, o.stp, o.peak))
      && Shape(id, qty, Terms(o.owner, o.stp, o.peak)) == o.(qty := qty)
  {
    hide State.ListedAt, StopsInBand, Match, OrderOf, Seat, Best, Rest;
    StandsOnce(e, id, at, k);
    CancelOutcome(e, id, at, k);
    var o, a := e.Get(at.shelf)[at.tick][k], Reentered(e, id, e.min + tick, qty);
    SameAcross(e, a, at.shelf);
    if !e.halted { OutOfReach(a, AsTaker(id, at.shelf.side, tick, Terms(o.owner, o.stp, o.peak)), qty); }
  }

  lemma SameAcross(e: State, a: State, s: Shelf)
    requires a.Get(Resting(s.side.Opposite())) == e.Get(Resting(s.side.Opposite()))
    ensures forall tick :: WouldCross(a, s.side, tick) == WouldCross(e, s.side, tick)
  {}

  // ---- the mirror -----------------------------------------------------

  /** The venue's own book after replacing the order at position `k` of tick `i`: it stands
      at tick `j` with `qty` displayed, in place when it stays there and does not grow. */
  function Replaced(st: State, s: Side, i: nat, k: nat, j: nat, qty: nat): State
    requires st.Shaped() && i < st.width && j < st.width && k < |st.Get(Resting(s))[i]| && qty > 0
  {
    var o := st.Get(Resting(s))[i][k].(qty := qty);
    if j == i && qty <= st.Get(Resting(s))[i][k].qty then Amend(st, Resting(s), i, k, o)
    else Join(Leave(st, Resting(s), i, k), Resting(s), j, o)
  }

  /** A venue that replaces a displayed order under a new reference is followed: the rebuilt
      book shows the replaced book under the new references. */
  lemma MirrorReplace(st: State, refs: Refs, b: Builder, s: Side, i: nat, k: nat, j: nat, qty: nat, newRef: nat)
    requires st.Indexed() && Mirrors(st, refs, b) && Builds(b) && i < st.width && k < |st.Get(Resting(s))[i]|
    requires j < st.width && qty > 0 && (st.halted || !WouldCross(b.engine, s, j))
    requires forall id :: id in refs && id != st.Get(Resting(s))[i][k].id ==> refs[id].ref != newRef
    ensures var id := st.Get(Resting(s))[i][k].id;
      && id in refs && Replaced(st, s, i, k, j, qty).Indexed()
      && Mirrors(Replaced(st, s, i, k, j, qty), refs[id := Ref(newRef, qty)],
                 Apply(b, Replace(refs[id].ref, newRef, qty, st.min + j)))
  {
    hide State.ListedAt, StopsInBand, Copies, Restated, AllProper, Apply, Join, Leave, Amend, Do;
    CopyAt(st, refs, b, s, i, k);
    var id, c := st.Get(Resting(s))[i][k].id, b.engine.Get(Resting(s))[i][k];
    var ref, price := refs[id].ref, st.min + j;
    ReplaceStands(b.engine, c.id, Place(Resting(s), i), k, j, qty);
    ReplaceRebinds(b, ref, newRef, qty, price);
    var b' := Apply(b, Replace(ref, newRef, qty, price));
    ApplyBuilds(b, Replace(ref, newRef, qty, price));
    if j == i && qty <= st.Get(Resting(s))[i][k].qty {
      MirrorAmended(st, refs, b, s, i, k, qty, newRef, b');
    } else {
      MirrorMoved(st, refs, b, s, i, k, j, qty, newRef, b');
    }
  }

  /** In place: the copy shrinks and is found under the new reference. */
  lemma MirrorAmended(st: State, refs: Refs, b: Builder, s: Side, i: nat, k: nat, qty: nat, newRef: nat, b': Builder)
    requires st.Indexed() && Mirrors(st, refs, b) && i < st.width && k < |st.Get(Resting(s))[i]|
    requires 0 < qty <= st.Get(Resting(s))[i][k].qty && b.engine.Get(Resting(s)) != [] &&
      k < |b.engine.Get(Resting(s))[i]|
    requires var id := st.Get(Resting(s))[i][k].id;
      && id in refs && TakesOver(b.refmap, b'.refmap, refs[id].ref, newRef)
      && forall x :: x in refs && x != id ==> refs[x].ref != newRef
    requires BuilderValid(b') && Restated(b.engine, b'.engine, Place(Resting(s), i), k, i, qty)
    ensures var id := st.Get(Resting(s))[i][k].id;
      && Replaced(st, s, i, k, i, qty).Indexed()
      && Mirrors(Replaced(st, s, i, k, i, qty), refs[id := Ref(newRef, qty)], b')
  {
    hide State.ListedAt, StopsInBand, Copies, Published;
    var q, r := st.Get(Resting(s))[i], b.engine.Get(Resting(s))[i];
    var o, refs' := q[k].(qty := qty), refs[q[k].id := Ref(newRef, qty)];
    AmendIndexed(st, Resting(s), i, k, o);
    CopyAt(st, refs, b, s, i, k);
    PublishedRenamed(st, refs, Amend(st, Resting(s), i, k, o), o.id, Ref(newRef, qty));
    CopiesRenamed(q, r, refs, b.refmap, k, qty, newRef, b'.refmap);
    OtherPlacesKept(st, refs, b, s, i, o.id, Amend(st, Resting(s), i, k, o), refs', b');
  }

  /** A displayed order under a reference nobody else has. */
  lemma PublishedRenamed(st: State, refs: Refs, t: State, id: nat, r: Ref)
    requires Published(st, refs) && t.live == st.live && id in refs
    requires forall x :: x in refs && x != id ==> refs[x].ref != r.ref
    ensures Published(t, refs[id := r])
    ensures forall x :: x in refs && x != id ==> refs[x].ref != refs[id].ref
  {}

  lemma CopiesRenamed(q: Queue, r: Queue, refs: Refs, refmap: map<nat, nat>, k: nat, qty: nat, newRef: nat,
                      refmap': map<nat, nat>)
    requires Copies(q, r, refs, refmap) && Distinct(q) && k < |q| && qty > 0
    requires TakesOver(refmap, refmap', refs[q[k].id].ref, newRef)
    requires forall x :: x in refs && x != q[k].id ==> refs[x].ref != newRef && refs[x].ref != refs[q[k].id].ref
    ensures Copies(q[k := q[k].(qty := qty)], r[k := r[k].(qty := qty)], refs[q[k].id := Ref(newRef, qty)], refmap')
  {
    forall j | 0 <= j < |q| && j != k ensures q[j].id != q[k].id {
      IdAt(q, j);
      IdAt(q, k);
    }
  }

  /** Elsewhere: as if deleted, and then added last at its new price under the new reference. */
  lemma MirrorMoved(st: State, refs: Refs, b: Builder, s: Side, i: nat, k: nat, j: nat, qty: nat, newRef: nat,
                    b': Builder)
    requires st.Indexed() && Mirrors(st, refs, b) && i < st.width && k < |st.Get(Resting(s))[i]| && j < st.width &&
      qty > 0
    requires b.engine.Get(Resting(s)) != [] && k < |b.engine.Get(Resting(s))[i]|
    requires j != i || qty > st.Get(Resting(s))[i][k].qty
    requires var id := st.Get(Resting(s))[i][k].id;
      && id in refs && TakesOver(b.refmap, b'.refmap, refs[id].ref, newRef)
      && forall x :: x in refs && x != id ==> refs[x].ref != newRef
    requires BuilderValid(b') && Restated(b.engine, b'.engine, Place(Resting(s), i), k, j, qty)
    ensures var id := st.Get(Resting(s))[i][k].id;
      && Replaced(st, s, i, k, j, qty).Indexed()
      && Mirrors(Replaced(st, s, i, k, j, qty), refs[id := Ref(newRef, qty)], b')
  {
    hide State.ListedAt, StopsInBand, Copies, Step, Published;
    CopyAt(st, refs, b, s, i, k);
    var q, r := st.Get(Resting(s))[i], b.engine.Get(Resting(s))[i];
    var id, o, c := q[k].id, q[k].(qty := qty), r[k].(qty := qty);
    var st1, refs1, b1 := Leave(st, Resting(s), i, k), refs - {id}, Apply(b, Delete(refs[id].ref));
    MirrorDelete(st, refs, b, s, i, k);
    CancelStep(b.engine, s, i, k);
    assert refs1[id := Ref(newRef, qty)] == refs[id := Ref(newRef, qty)];
    assert b'.refmap == b1.refmap[newRef := c.id];
    DeletedPlaces(b.engine, b1.engine, b'.engine, s, i, k, j, qty);
    MirrorJoined(st1, refs1, b1, s, j, o, newRef, c, b');
  }

  /** A restated order, seen from the book it has been deleted from. */
  lemma DeletedPlaces(e: State, e1: State, r: State, s: Side, i: nat, k: nat, j: nat, qty: nat)
    requires e.Shaped() && i < e.width && j < e.width && k < |e.Get(Resting(s))[i]| && qty > 0
    requires e1.book == Leave(e, Resting(s), i, k).book && Restated(e, r, Place(Resting(s), i), k, j, qty)
    requires j != i || qty > e.Get(Resting(s))[i][k].qty
    ensures r.Shaped() && r.width == e.width && r.min == e.min && r.halted == e.halted && r.last == e.last
    ensures forall t: Side :: |r.Get(Resting(t))| == e.width && |e1.Get(Resting(t))| == e.width
    ensures r.Get(Resting(s))[j] == e1.Get(Resting(s))[j] + [e.Get(Resting(s))[i][k].(qty := qty)]
    ensures forall t: Side, x :: 0 <= x < e.width && Place(Resting(t), x) != Place(Resting(s), j) ==>
      r.Get(Resting(t))[x] == e1.Get(Resting(t))[x]
  {}

  lemma MirrorJoined(st: State, refs: Refs, b: Builder, s: Side, j: nat, o: Order, newRef: nat, c: Order, b': Builder)
    requires st.Indexed() && Mirrors(st, refs, b) && j < st.width && 0 < o.id < st.nextId && o.id !in st.live
    requires forall id :: id in refs ==> refs[id].ref != newRef
    requires c.qty == o.qty && c.reserve == 0 && b'.refmap == b.refmap[newRef := c.id] && BuilderValid(b')
    requires b'.engine.width == b.engine.width && b'.engine.min == b.engine.min
    requires b'.engine.halted == b.engine.halted && b'.engine.last == b.engine.last
    requires forall t: Side :: |b'.engine.Get(Resting(t))| == st.width && |b.engine.Get(Resting(t))| == st.width
    requires b'.engine.Get(Resting(s))[j] == b.engine.Get(Resting(s))[j] + [c]
    requires forall t: Side, x :: 0 <= x < st.width && Place(Resting(t), x) != Place(Resting(s), j) ==>
      b'.engine.Get(Resting(t))[x] == b.engine.Get(Resting(t))[x]
    ensures Join(st, Resting(s), j, o).Indexed()
    ensures Mirrors(Join(st, Resting(s), j, o), refs[o.id := Ref(newRef, o.qty)], b')
  {
    hide State.ListedAt, StopsInBand, Copies, Published;
    JoinIndexed(st, Resting(s), j, o);
    JoinPublished(st, refs, s, j, o, newRef);
    NotElsewhere(st, Place(Resting(s), j), o.id);
    CopiesJoin(st.Get(Resting(s))[j], b.engine.Get(Resting(s))[j], refs, b.refmap, o, newRef, c);
    OtherPlacesKept(st, refs, b, s, j, o.id, Join(st, Resting(s), j, o), refs[o.id := Ref(newRef, o.qty)], b');
  }
}
