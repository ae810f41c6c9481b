/** When a rebuilt engine mirrors the displayed book, and how one message keeps it so. */
module FeedMirror {
  import opened Types
  import opened Ladders
  import opened Book
  import opened Engine
  import opened Safety
  import opened Feed

  // ---- the rebuilt engine ---------------------------------------------

  /** An engine that has never traded over the source's band, in the source's phase. */
  ghost predicate Untraded(st: State, e: State) {
    && Valid(e) && e.last.None?
    && e.min == st.min && e.width == st.width && e.halted == st.halted
  }

  lemma ReduceStep(e: State, s: Side, i: nat, k: nat, f: nat)
    requires Valid(e) && e.last.None? && i < e.width && k < |e.Get(Resting(s))[i]|
    requires e.Get(Resting(s))[i][k].reserve == 0 && 0 < f <= e.Get(Resting(s))[i][k].qty
    ensures var o := e.Get(Resting(s))[i][k]; var r := Step(e, Reduce(o.id, f));
      && Valid(r.st) && r.reply == Answer(true)
      && r.st == if f == o.qty then Leave(e, Resting(s), i, k) else Amend(e, Resting(s), i, k, o.(qty := o.qty - f))
  {
    hide State.ListedAt, StopsInBand;
    Locate(e, Resting(s), i, k);
    StepValid(e, Reduce(e.Get(Resting(s))[i][k].id, f));
  }

  lemma CancelStep(e: State, s: Side, i: nat, k: nat)
    requires Valid(e) && e.last.None? && i < e.width && k < |e.Get(Resting(s))[i]|
    ensures var o := e.Get(Resting(s))[i][k]; var r := Step(e, Cancel(o.id));
      && Valid(r.st) && r.st == Leave(e, Resting(s), i, k).Emit(Cancelled(o.id))
  {
    hide State.ListedAt, StopsInBand;
    Locate(e, Resting(s), i, k);
    StepValid(e, Cancel(e.Get(Resting(s))[i][k].id));
  }

  function Bare(id: nat, qty: nat): Order
    requires qty > 0
  {
    Node(id, qty, 0, CancelTaker, 0, 0, false, 0)
  }

  /** An Add that cannot match just rests. */
  lemma AddStep(e: State, s: Side, i: nat, qty: nat)
    requires Valid(e) && e.last.None? && i < e.width && qty > 0
    requires e.halted || !WouldCross(e, s, i)
    ensures var r := Step(e, SubmitLimit(s, e.min + i, qty, GTC, 0, CancelTaker));
      && Valid(r.st) && r.reply == Assigned(e.nextId) && e.nextId > 0
      && r.st.book == Join(e, Resting(s), i, Bare(e.nextId, qty)).book
      && r.st.last.None? && r.st.min == e.min && r.st.width == e.width && r.st.halted == e.halted
  {
    hide State.ListedAt, StopsInBand, Step;
    EntryRests(e, s, i, qty, 0, CancelTaker);
    StepValid(e, SubmitLimit(s, e.min + i, qty, GTC, 0, CancelTaker));
  }

  // ---- the correspondence ---------------------------------------------

  type Refs = map<nat, Ref>

  /** `c` is the rebuilt copy of the displayed part of `o`, found under its reference. */
  predicate CopyOf(o: Order, c: Order, refs: Refs, refmap: map<nat, nat>) {
    && o.id in refs && refs[o.id].displayed == o.qty
    && refs[o.id].ref in refmap && refmap[refs[o.id].ref] == c.id
    && c.qty == o.qty && c.reserve == 0
  }

  predicate Copies(q: Queue, r: Queue, refs: Refs, refmap: map<nat, nat>) {
    |q| == |r| && forall k :: 0 <= k < |q| ==> CopyOf(q[k], r[k], refs, refmap)
  }

  /** References name exactly the displayed orders, each its own. */
  ghost predicate Published(st: State, refs: Refs) {
    && (forall id :: id in refs <==> id in st.live && !st.live[id].shelf.stop)
    && (forall i, j :: i in refs && j in refs && refs[i].ref == refs[j].ref ==> i == j)
  }

  ghost predicate SameBook(st: State, refs: Refs, b: Builder)
    requires st.Shaped() && b.engine.Shaped() && st.width == b.engine.width
  {
    forall s: Side, i :: 0 <= i < st.width ==>
      Copies(st.Get(Resting(s))[i], b.engine.Get(Resting(s))[i], refs, b.refmap)
  }

  /** The rebuilt book is the displayed book: same prices, same queue order, same
      displayed quantities, under live references; and it never traded. */
  ghost predicate Mirrors(st: State, refs: Refs, b: Builder)
    requires st.Shaped()
  {
    Untraded(st, b.engine) && Published(st, refs) && SameBook(st, refs, b)
  }

  lemma CopiesKept(q: Queue, r: Queue, refs: Refs, refmap: map<nat, nat>, id: nat, refs': Refs, refmap': map<nat, nat>)
    requires Copies(q, r, refs, refmap) && id !in Ids(q)
    requires forall j :: j in refs && j != id ==> j in refs' && refs'[j] == refs[j]
    requires forall j :: j in refs && j != id && refs[j].ref in refmap ==>
               refs[j].ref in refmap' && refmap'[refs[j].ref] == refmap[refs[j].ref]
    ensures Copies(q, r, refs', refmap')
  {
    forall k | 0 <= k < |q| ensures CopyOf(q[k], r[k], refs', refmap') { IdAt(q, k); }
  }

  /** Everything away from place (s, i) is unaffected by a change to order `id` there. */
  lemma OtherPlacesKept(st: State, refs: Refs, b: Builder, s: Side, i: nat, id: nat, st': State, refs': Refs,
                        b': Builder)
    requires st.Indexed() && st'.Shaped() && Mirrors(st, refs, b) && st'.width == st.width && i < st.width
    requires b'.engine.Shaped() && b'.engine.width == st.width
    requires id in st.live ==> st.live[id] == Place(Resting(s), i)
    requires forall r: Side, j :: 0 <= j < st.width && Place(Resting(r), j) != Place(Resting(s), i) ==>
      st'.Get(Resting(r))[j] == st.Get(Resting(r))[j] && b'.engine.Get(Resting(r))[j] == b.engine.Get(Resting(r))[j]
    requires forall j :: j in refs && j != id ==> j in refs' && refs'[j] == refs[j]
    requires forall j :: j in refs && j != id && refs[j].ref in b.refmap ==>
      refs[j].ref in b'.refmap && b'.refmap[refs[j].ref] == b.refmap[refs[j].ref]
    requires Copies(st'.Get(Resting(s))[i], b'.engine.Get(Resting(s))[i], refs', b'.refmap)
    ensures SameBook(st', refs', b')
  {
    hide State.ListedAt, Copies, StopsInBand;
    forall r: Side, j | 0 <= j < st.width
      ensures Copies(st'.Get(Resting(r))[j], b'.engine.Get(Resting(r))[j], refs', b'.refmap)
    {
      if Place(Resting(r), j) != Place(Resting(s), i) {
        assert id !in Ids(st.Get(Resting(r))[j]) by { NotElsewhere(st, Place(Resting(r), j), id); }
        CopiesKept(st.Get(Resting(r))[j], b.engine.Get(Resting(r))[j], refs, b.refmap, id, refs', b'.refmap);
      }
    }
  }

  lemma NotElsewhere(st: State, p: Place, id: nat)
    requires st.Indexed() && p.tick < st.width
    requires id in st.live ==> st.live[id] != p
    ensures id !in Ids(st.Get(p.shelf)[p.tick])
  {
    assert st.ListedAt(p);
  }

  // ---- one message ----------------------------------------------------

  lemma CopiesJoin(q: Queue, r: Queue, refs: Refs, refmap: map<nat, nat>, o: Order, ref: nat, c: Order)
    requires Copies(q, r, refs, refmap) && o.id !in Ids(q)
    requires forall j :: j in refs && j != o.id ==> refs[j].ref != ref
    requires c.qty == o.qty && c.reserve == 0
    ensures Copies(q + [o], r + [c], refs[o.id := Ref(ref, o.qty)], refmap[ref := c.id])
  {
    CopiesKept(q, r, refs, refmap, o.id, refs[o.id := Ref(ref, o.qty)], refmap[ref := c.id]);
  }

  lemma JoinPublished(st: State, refs: Refs, s: Side, i: nat, o: Order, ref: nat)
    requires st.Indexed() && Published(st, refs) && i < st.width && o.id !in st.live
    requires forall id :: id in refs ==> refs[id].ref != ref
    ensures Published(Join(st, Resting(s), i, o), refs[o.id := Ref(ref, o.qty)])
  {}

  /** A rested order announced at its own level under a fresh reference. */
  lemma MirrorAdd(st: State, refs: Refs, b: Builder, s: Side, i: nat, o: Order, ref: nat)
    requires st.Indexed() && Mirrors(st, refs, b) && i < st.width
    requires 0 < o.id < st.nextId && o.id !in st.live
    requires forall id :: id in refs ==> refs[id].ref != ref
    requires st.halted || !WouldCross(b.engine, s, i)
    ensures Join(st, Resting(s), i, o).Indexed()
    ensures Mirrors(Join(st, Resting(s), i, o), refs[o.id := Ref(ref, o.qty)], Apply(b, Add(ref, s, o.qty, st.min + i)))
  {
    hide State.ListedAt, Step, Copies, StopsInBand, Published;
    JoinIndexed(st, Resting(s), i, o);
    JoinPublished(st, refs, s, i, o, ref);
    AddStep(b.engine, s, i, o.qty);
    var st' := Join(st, Resting(s), i, o);
    var refs' := refs[o.id := Ref(ref, o.qty)];
    var b' := Apply(b, Add(ref, s, o.qty, st.min + i));
    var c := Bare(b.engine.nextId, o.qty);
    NotElsewhere(st, Place(Resting(s), i), o.id);
    CopiesJoin(st.Get(Resting(s))[i], b.engine.Get(Resting(s))[i], refs, b.refmap, o, ref, c);
    assert b'.engine.Get(Resting(s))[i] == b.engine.Get(Resting(s))[i] + [c];
    OtherPlacesKept(st, refs, b, s, i, o.id, st', refs', b');
  }

  lemma CopiesShrink(q: Queue, r: Queue, refs: Refs, refmap: map<nat, nat>, k: nat, o: Order)
    requires Copies(q, r, refs, refmap) && Distinct(q) && k < |q| && o.id == q[k].id && o.qty <= q[k].qty
    ensures Copies(q[k := o], r[k := r[k].(qty := o.qty)], refs[o.id := refs[o.id].(displayed := o.qty)], refmap)
  {
    forall j | 0 <= j < |q| && j != k ensures q[j].id != q[k].id {
      IdAt(q, j);
      IdAt(q, k);
    }
  }

  lemma CopiesWithout(q: Queue, r: Queue, refs: Refs, refmap: map<nat, nat>, k: nat, refmap': map<nat, nat>)
    requires Copies(q, r, refs, refmap) && Distinct(q) && k < |q|
    requires forall j :: j in refs && j != q[k].id && refs[j].ref in refmap ==>
      refs[j].ref in refmap' && refmap'[refs[j].ref] == refmap[refs[j].ref]
    ensures Copies(Without(q, k), Without(r, k), refs - {q[k].id}, refmap')
  {
    forall j | 0 <= j < |q| && j != k ensures q[j].id != q[k].id {
      IdAt(q, j);
      IdAt(q, k);
    }
    forall j | 0 <= j < |q| - 1
      ensures CopyOf(Without(q, k)[j], Without(r, k)[j], refs - {q[k].id}, refmap')
    {
      var j' := if j < k then j else j + 1;
      assert Without(q, k)[j] == q[j'] && Without(r, k)[j] == r[j'];
    }
  }

  /** What is known of a displayed order's copy. */
  lemma CopyAt(st: State, refs: Refs, b: Builder, s: Side, i: nat, k: nat)
    requires st.Indexed() && Mirrors(st, refs, b) && i < st.width && k < |st.Get(Resting(s))[i]|
    ensures Copies(st.Get(Resting(s))[i], b.engine.Get(Resting(s))[i], refs, b.refmap)
    ensures k < |b.engine.Get(Resting(s))[i]|
    ensures CopyOf(st.Get(Resting(s))[i][k], b.engine.Get(Resting(s))[i][k], refs, b.refmap)
    ensures var id := st.Get(Resting(s))[i][k].id; id in st.live && st.live[id] == Place(Resting(s), i)
    ensures Distinct(st.Get(Resting(s))[i])
  {
    hide State.ListedAt, StopsInBand;
    Locate(st, Resting(s), i, k);
    assert st.ListedAt(Place(Resting(s), i)) && Distinct(st.Get(Resting(s))[i]) by {
      ListedDistinct(st, Place(Resting(s), i));
    }
  }

  lemma ListedDistinct(st: State, p: Place)
    requires st.Indexed() && p.tick < st.width
    ensures st.ListedAt(p) && Distinct(st.Get(p.shelf)[p.tick])
  {}

  /** A displayed order loses part of its clip, or some of its reserve, in place. */
  lemma MirrorShrink(st: State, refs: Refs, b: Builder, s: Side, i: nat, k: nat, o: Order)
    requires st.Indexed() && Mirrors(st, refs, b) && i < st.width && k < |st.Get(Resting(s))[i]|
    requires o.id == st.Get(Resting(s))[i][k].id && o.qty < st.Get(Resting(s))[i][k].qty
    ensures o.id in refs && Amend(st, Resting(s), i, k, o).Indexed()
    ensures Mirrors(Amend(st, Resting(s), i, k, o), refs[o.id := refs[o.id].(displayed := o.qty)],
                    ApplyReduce(b, refs[o.id].ref, st.Get(Resting(s))[i][k].qty - o.qty))
  {
    hide State.ListedAt, Step, Copies, StopsInBand;
    AmendIndexed(st, Resting(s), i, k, o);
    CopyAt(st, refs, b, s, i, k);
    var q, r := st.Get(Resting(s))[i], b.engine.Get(Resting(s))[i];
    ReduceStep(b.engine, s, i, k, q[k].qty - o.qty);
    CopiesShrink(q, r, refs, b.refmap, k, o);
    var refs' := refs[o.id := refs[o.id].(displayed := o.qty)];
    OtherPlacesKept(st, refs, b, s, i, o.id, Amend(st, Resting(s), i, k, o), refs',
      ApplyReduce(b, refs[o.id].ref, q[k].qty - o.qty));
  }

  /** A change to the reserve alone is invisible. */
  lemma MirrorReserve(st: State, refs: Refs, b: Builder, s: Side, i: nat, k: nat, o: Order)
    requires st.Indexed() && Mirrors(st, refs, b) && i < st.width && k < |st.Get(Resting(s))[i]|
    requires o.id == st.Get(Resting(s))[i][k].id && o.qty == st.Get(Resting(s))[i][k].qty
    ensures Amend(st, Resting(s), i, k, o).Indexed()
    ensures Mirrors(Amend(st, Resting(s), i, k, o), refs, b)
  {
    hide State.ListedAt, Step, StopsInBand;
    AmendIndexed(st, Resting(s), i, k, o);
    CopyAt(st, refs, b, s, i, k);
  }

  lemma LeavePublished(st: State, refs: Refs, s: Side, i: nat, k: nat)
    requires st.Indexed() && i < st.width && k < |st.Get(Resting(s))[i]| && Published(st, refs)
    ensures Published(Leave(st, Resting(s), i, k), refs - {st.Get(Resting(s))[i][k].id})
  {}

  /** A displayed order executed or reduced to nothing leaves; its reference goes stale. */
  lemma MirrorConsume(st: State, refs: Refs, b: Builder, s: Side, i: nat, k: nat)
    requires st.Indexed() && Mirrors(st, refs, b) && i < st.width && k < |st.Get(Resting(s))[i]|
    ensures var o := st.Get(Resting(s))[i][k];
      && o.id in refs && Leave(st, Resting(s), i, k).Indexed()
      && Mirrors(Leave(st, Resting(s), i, k), refs - {o.id}, ApplyReduce(b, refs[o.id].ref, o.qty))
  {
    hide State.ListedAt, Step, Copies, StopsInBand, Published;
    LeaveIndexed(st, Resting(s), i, k);
    CopyAt(st, refs, b, s, i, k);
    LeavePublished(st, refs, s, i, k);
    var q, r := st.Get(Resting(s))[i], b.engine.Get(Resting(s))[i];
    var o := q[k];
    ReduceStep(b.engine, s, i, k, o.qty);
    CopiesWithout(q, r, refs, b.refmap, k, b.refmap);
    OtherPlacesKept(st, refs, b, s, i, o.id, Leave(st, Resting(s), i, k), refs - {o.id},
      ApplyReduce(b, refs[o.id].ref, o.qty));
  }

  /** A displayed order retracted by name. */
  lemma MirrorDelete(st: State, refs: Refs, b: Builder, s: Side, i: nat, k: nat)
    requires st.Indexed() && Mirrors(st, refs, b) && i < st.width && k < |st.Get(Resting(s))[i]|
    ensures var o := st.Get(Resting(s))[i][k];
      && o.id in refs && Leave(st, Resting(s), i, k).Indexed()
      && Mirrors(Leave(st, Resting(s), i, k), refs - {o.id}, Apply(b, Delete(refs[o.id].ref)))
  {
    hide State.ListedAt, Step, Copies, StopsInBand;
    LeaveIndexed(st, Resting(s), i, k);
    CopyAt(st, refs, b, s, i, k);
    LeavePublished(st, refs, s, i, k);
    var q, r := st.Get(Resting(s))[i], b.engine.Get(Resting(s))[i];
    var o := q[k];
    var ref := refs[o.id].ref;
    CancelStep(b.engine, s, i, k);
    CopiesWithout(q, r, refs, b.refmap, k, b.refmap - {ref});
    OtherPlacesKept(st, refs, b, s, i, o.id, Leave(st, Resting(s), i, k), refs - {o.id}, Apply(b, Delete(ref)));
  }

  /** The correspondence looks only at the displayed book, the live ids and the phase. */
  lemma MirrorsSame(a: State, t: State, refs: Refs, b: Builder)
    requires a.Indexed() && t.Indexed() && Mirrors(a, refs, b)
    requires t.min == a.min && t.width == a.width && t.halted == a.halted
    requires t.Get(Resting(Buy)) == a.Get(Resting(Buy)) && t.Get(Resting(Sell)) == a.Get(Resting(Sell))
    requires forall id :: id in t.live && !t.live[id].shelf.stop <==> id in a.live && !a.live[id].shelf.stop
    ensures Mirrors(t, refs, b)
  {
    hide State.ListedAt, Step, Copies, StopsInBand;
    forall s: Side, i | 0 <= i < t.width
      ensures Copies(t.Get(Resting(s))[i], b.engine.Get(Resting(s))[i], refs, b.refmap)
    {
      assert s == Buy || s == Sell;
      assert Copies(a.Get(Resting(s))[i], b.engine.Get(Resting(s))[i], refs, b.refmap);
    }
  }

  lemma {:induction false} EmptyAlike(st: State, refs: Refs, b: Builder, s: Side)
    requires st.Shaped() && Mirrors(st, refs, b)
    ensures b.engine.BestTick(s) == st.BestTick(s)
  {
    var l, m := st.Get(Resting(s)), b.engine.Get(Resting(s));
    assert forall i :: 0 <= i < st.width ==> Copies(l[i], m[i], refs, b.refmap);
    assert IsBest(s, l, Best(s, m));
    BestIsUnique(s, l, Best(s, m));
  }
}
