/** The rebuilt engine follows the publisher through every event of a call. */
module FeedSync {
  import opened Types
  import opened Ladders
  import opened Book
  import opened Matching
  import opened SweepLaws
  import opened Engine
  import opened Safety
  import opened Feed
  import opened FeedMirror

  // ---- hearing the tape -----------------------------------------------

  /** The publisher after hearing what happened between `a` and `t`. */
  function Heard(a: State, t: State, p: Publisher): Publisher
    requires a.tape <= t.tape
  {
    OnEvents(p, t.tape[|a.tape|..])
  }

  lemma HeardTrans(a: State, m: State, t: State, p: Publisher)
    requires a.tape <= m.tape <= t.tape
    ensures Heard(a, t, p) == Heard(m, t, Heard(a, m, p))
  {
    assert t.tape[|a.tape|..] == m.tape[|a.tape|..] + t.tape[|m.tape|..];
    OnEventsAppend(p, m.tape[|a.tape|..], t.tape[|m.tape|..]);
  }

  lemma HeardOne(a: State, t: State, p: Publisher, e: Event)
    requires t.tape == a.tape + [e]
    ensures Heard(a, t, p) == OnEvent(p, e)
  {
    OneEvent(p, e);
    assert t.tape[|a.tape|..] == [e];
  }

  lemma OneEvent(p: Publisher, e: Event)
    ensures OnEvents(p, [e]) == OnEvent(p, e)
  {
    assert [e][1..] == [];
  }

  lemma HeardTwo(a: State, t: State, p: Publisher, e: Event, e': Event)
    requires t.tape == a.tape + [e, e']
    ensures Heard(a, t, p) == OnEvent(OnEvent(p, e), e')
  {
    assert t.tape[|a.tape|..] == [e] + [e'];
    OnEventsAppend(p, [e], [e']);
    OneEvent(p, e);
    OneEvent(OnEvent(p, e), e');
  }

  // ---- in step --------------------------------------------------------

  ghost predicate RefsBelow(p: Publisher) {
    p.nextRef > 0 && forall id :: id in p.refs ==> 0 < p.refs[id].ref < p.nextRef
  }

  /** Replaying everything published so far from `b` gives the displayed book. */
  ghost predicate Synced(st: State, p: Publisher, b: Builder)
    requires st.Shaped()
  {
    BuilderValid(b) && RefsBelow(p) && Mirrors(st, p.refs, Replay(b, p.out))
  }

  lemma Sent(b: Builder, p: Publisher, m: Message)
    requires BuilderValid(b)
    ensures Replay(b, p.out + [m]) == Apply(Replay(b, p.out), m)
  {
    assert (p.out + [m])[..|p.out|] == p.out;
  }

  /** News about an order that is not displayed changes nothing. */
  predicate Hidden(p: Publisher, e: Event) {
    e.Accepted? || e.Rejected? || (e.Cancelled? && e.id !in p.refs)
  }

  lemma SyncedQuiet(a: State, t: State, p: Publisher, b: Builder)
    requires a.Indexed() && t.Indexed() && Synced(a, p, b)
    requires t.min == a.min && t.width == a.width && t.halted == a.halted
    requires t.Get(Resting(Buy)) == a.Get(Resting(Buy)) && t.Get(Resting(Sell)) == a.Get(Resting(Sell))
    requires forall id :: id in t.live && !t.live[id].shelf.stop <==> id in a.live && !a.live[id].shelf.stop
    ensures Synced(t, p, b)
  {
    hide State.ListedAt, Untraded, Published, SameBook;
    MirrorsSame(a, t, p.refs, Replay(b, p.out));
  }

  /** An occupied tick of an uncrossed book is out of reach of the other side. */
  lemma OccupiedCannotCross(st: State, s: Side, i: nat)
    requires st.Shaped() && st.Uncrossed() && i < st.width && st.Get(Resting(s))[i] != []
    ensures !WouldCross(st, s, i)
  {}

  /** The order joins and the publisher announces it at its own level. */
  lemma SyncedJoin(st: State, p: Publisher, b: Builder, s: Side, i: nat, o: Order)
    requires st.Indexed() && Synced(st, p, b) && i < st.width
    requires 0 < o.id < st.nextId && o.id !in st.live
    requires st.halted || !WouldCross(st, s, i)
    ensures Join(st, Resting(s), i, o).Indexed()
    ensures Synced(Join(st, Resting(s), i, o), OnRest(p, o.id, s, st.min + i, o.qty), b)
  {
    hide State.ListedAt, Untraded, Published, SameBook, Replay, Apply;
    var r := Replay(b, p.out);
    EmptyAlike(st, p.refs, r, s.Opposite());
    MirrorAdd(st, p.refs, r, s, i, o, p.nextRef);
    Sent(b, p, Add(p.nextRef, s, o.qty, st.min + i));
  }

  predicate Lessens(m: Message, ref: nat, qty: nat) {
    (m.Execute? || m.ExecuteAt? || m.Shrink?) && m.ref == ref && m.qty == qty
  }

  /** An execution of part of a displayed clip. */
  lemma SyncedShrink(st: State, p: Publisher, b: Builder, s: Side, i: nat, k: nat, o: Order, f: nat, m: Message)
    requires st.Indexed() && Synced(st, p, b) && i < st.width && k < |st.Get(Resting(s))[i]|
    requires f > 0 && o.id == st.Get(Resting(s))[i][k].id && o.qty + f == st.Get(Resting(s))[i][k].qty
    requires o.id in p.refs && Lessens(m, p.refs[o.id].ref, f)
    ensures Amend(st, Resting(s), i, k, o).Indexed()
    ensures Synced(Amend(st, Resting(s), i, k, o), Take(p.Send(m), o.id, f), b)
  {
    hide State.ListedAt, Untraded, Published, SameBook, Replay, Copies, ApplyReduce;
    var r := Replay(b, p.out);
    Sent(b, p, m);
    CopyAt(st, p.refs, r, s, i, k);
    MirrorShrink(st, p.refs, r, s, i, k, o);
  }

  /** An execution of a whole displayed clip. */
  lemma SyncedConsume(st: State, p: Publisher, b: Builder, s: Side, i: nat, k: nat, o: Order, m: Message)
    requires st.Indexed() && Synced(st, p, b) && i < st.width && k < |st.Get(Resting(s))[i]|
    requires o == st.Get(Resting(s))[i][k]
    requires o.id in p.refs && Lessens(m, p.refs[o.id].ref, o.qty)
    ensures Leave(st, Resting(s), i, k).Indexed()
    ensures Synced(Leave(st, Resting(s), i, k), Take(p.Send(m), o.id, o.qty), b)
  {
    hide State.ListedAt, Untraded, Published, SameBook, Replay, Copies, ApplyReduce;
    var r := Replay(b, p.out);
    Sent(b, p, m);
    CopyAt(st, p.refs, r, s, i, k);
    MirrorConsume(st, p.refs, r, s, i, k);
  }

  /** A displayed order leaves and its cancellation is heard. */
  lemma SyncedDelete(st: State, p: Publisher, b: Builder, s: Side, i: nat, k: nat)
    requires st.Indexed() && Synced(st, p, b) && i < st.width && k < |st.Get(Resting(s))[i]|
    ensures var o := st.Get(Resting(s))[i][k];
      && o.id in p.refs && Leave(st, Resting(s), i, k).Indexed()
      && Synced(Leave(st, Resting(s), i, k), OnCancel(p, o.id), b)
  {
    hide State.ListedAt, Untraded, Published, SameBook, Replay, Apply;
    var o := st.Get(Resting(s))[i][k];
    MirrorDelete(st, p.refs, Replay(b, p.out), s, i, k);
    Sent(b, p, Delete(p.refs[o.id].ref));
  }

  // ---- one encounter --------------------------------------------------

  lemma RequeueIsRejoin(st: State, s: Shelf, i: nat, o: Order)
    requires st.Indexed() && i < st.width && st.Get(s)[i] != [] && o.id == st.Get(s)[i][0].id
    ensures var t := Join(Leave(st, s, i, 0), s, i, o);
      t.book == Requeue(st, s, i, o).book && t.live == Requeue(st, s, i, o).live
  {
    hide State.ListedAt;
    Locate(st, s, i, 0);
    var l, rest := st.Get(s), st.Get(s)[i][1..];
    assert Without(st.Get(s)[i], 0) == rest;
    assert l[i := rest][i := rest + [o]] == l[i := rest + [o]];
    assert st.book[s := l[i := rest]][s := l[i := rest + [o]]] == st.book[s := l[i := rest + [o]]];
    assert (st.live - {o.id})[o.id := Place(s, i)] == st.live;
  }

  /** A clip dies by execution and the next one is announced behind its level. */
  lemma SyncedReload(st: State, p: Publisher, b: Builder, s: Side, i: nat, o: Order, o': Order, m: Message, t: State)
    requires st.Indexed() && t.Indexed() && Synced(st, p, b) && i < st.width && st.Get(Resting(s))[i] != []
    requires o == st.Get(Resting(s))[i][0] && o'.id == o.id
    requires o.id in p.refs && Lessens(m, p.refs[o.id].ref, o.qty)
    requires st.halted || st.Uncrossed()
    requires t.book == Requeue(st, Resting(s), i, o').book && t.live == Requeue(st, Resting(s), i, o').live
    requires t.min == st.min && t.width == st.width && t.halted == st.halted
    ensures Synced(t, OnRest(Take(p.Send(m), o.id, o.qty), o.id, s, st.min + i, o'.qty), b)
  {
    hide State.ListedAt, Synced, Take;
    var l := Leave(st, Resting(s), i, 0);
    Locate(st, Resting(s), i, 0);
    SyncedConsume(st, p, b, s, i, 0, o, m);
    if !st.halted { OccupiedCannotCross(st, s, i); }
    RequeueIsRejoin(st, Resting(s), i, o');
    SyncedJoin(l, Take(p.Send(m), o.id, o.qty), b, s, i, o');
    SyncedQuiet(Join(l, Resting(s), i, o'), t, OnRest(Take(p.Send(m), o.id, o.qty), o.id, s, st.min + i, o'.qty), b);
  }

  /** A maker's fill, heard. */
  lemma SyncedFill(st: State, p: Publisher, b: Builder, k: Taker, i: nat, f: nat)
    requires st.Indexed() && st.Uncrossed() && Synced(st, p, b) && !p.inCross
    requires i < st.width && st.Get(k.Shelf())[i] != [] && 0 < f <= st.Get(k.Shelf())[i][0].qty
    ensures Fill(st, k, i, f).Indexed() && st.tape <= Fill(st, k, i, f).tape && Fill(st, k, i, f).width == st.width
    ensures Synced(Fill(st, k, i, f), Heard(st, Fill(st, k, i, f), p), b)
  {
    hide State.ListedAt, Synced, Take, Heard, OnlyShelf;
    FillFrame(st, k, i, f);
    var s, o := k.Against(), st.Get(k.Shelf())[i][0];
    var trade := Traded(k.id, o.id, st.min + i, f, k.side);
    var t := Fill(st, k, i, f);
    ShownIsReferenced(st, p, b, s, i, 0);
    var m := Execute(p.refs[o.id].ref, f);
    if f < o.qty {
      var o' := o.(qty := o.qty - f);
      SyncedShrink(st, p, b, s, i, 0, o', f, m);
      SyncedQuiet(Amend(st, Resting(s), i, 0, o'), t, Take(p.Send(m), o.id, f), b);
      HeardOne(st, t, p, trade);
    } else if o.reserve > 0 {
      SyncedReload(st, p, b, s, i, o, Reload(o), m, t);
      HeardTwo(st, t, p, trade, Rested(o.id, s, st.min + i, Clip(o)));
    } else {
      SyncedConsume(st, p, b, s, i, 0, o, m);
      SyncedQuiet(Leave(st, Resting(s), i, 0), t, Take(p.Send(m), o.id, f), b);
      HeardOne(st, t, p, trade);
    }
  }

  lemma ShownIsReferenced(st: State, p: Publisher, b: Builder, s: Side, i: nat, k: nat)
    requires st.Indexed() && Synced(st, p, b) && i < st.width && k < |st.Get(Resting(s))[i]|
    ensures st.Get(Resting(s))[i][k].id in p.refs
    ensures p.refs[st.Get(Resting(s))[i][k].id].displayed == st.Get(Resting(s))[i][k].qty
  {
    CopyAt(st, p.refs, Replay(b, p.out), s, i, k);
  }

  /** A self-trade cancellation of a maker, heard. */
  lemma SyncedCancelHead(st: State, p: Publisher, b: Builder, s: Side, i: nat)
    requires st.Indexed() && Synced(st, p, b) && i < st.width && st.Get(Resting(s))[i] != []
    ensures CancelHead(st, s, i).Indexed() && st.tape <= CancelHead(st, s, i).tape
    ensures Synced(CancelHead(st, s, i), Heard(st, CancelHead(st, s, i), p), b)
  {
    hide State.ListedAt, Synced, Heard, OnlyShelf, OnCancel;
    CancelHeadFrame(st, s, i);
    var o := st.Get(Resting(s))[i][0];
    SyncedDelete(st, p, b, s, i, 0);
    SyncedQuiet(Leave(st, Resting(s), i, 0), CancelHead(st, s, i), OnCancel(p, o.id), b);
    HeardOne(st, CancelHead(st, s, i), p, Cancelled(o.id));
  }

  lemma {:induction false} ModeKept(p: Publisher, es: seq<Event>)
    ensures OnEvents(p, es).inCross == p.inCross
    decreases |es|
  {
    if es != [] { ModeKept(OnEvent(p, es[0]), es[1..]); }
  }

  // ---- continuous trading ---------------------------------------------

  /** In step, outside a cross. */
  ghost predicate InStep(st: State, p: Publisher, b: Builder) {
    st.Indexed() && Synced(st, p, b) && !p.inCross
  }

  /** From `a` to `t` the feed, starting at `p`, keeps in step. */
  ghost predicate Follows(a: State, t: State, p: Publisher, b: Builder) {
    a.tape <= t.tape && t.width == a.width && InStep(t, Heard(a, t, p), b)
  }

  lemma FollowsTrans(a: State, m: State, t: State, p: Publisher, b: Builder)
    requires Follows(a, m, p, b) && Follows(m, t, Heard(a, m, p), b)
    ensures Follows(a, t, p, b)
  {
    hide InStep;
    HeardTrans(a, m, t, p);
  }

  /** Nothing displayed changed and nothing was heard about a displayed order. */
  lemma FollowsQuietly(a: State, t: State, p: Publisher, b: Builder, news: seq<Event>)
    requires InStep(a, p, b) && t.Indexed() && t.tape == a.tape + news && |news| <= 1
    requires forall e :: e in news ==> Hidden(p, e)
    requires t.min == a.min && t.width == a.width && t.halted == a.halted
    requires t.Get(Resting(Buy)) == a.Get(Resting(Buy)) && t.Get(Resting(Sell)) == a.Get(Resting(Sell))
    requires forall id :: id in t.live && !t.live[id].shelf.stop <==> id in a.live && !a.live[id].shelf.stop
    ensures Follows(a, t, p, b)
  {
    hide State.ListedAt, Synced;
    SyncedQuiet(a, t, p, b);
    if |news| == 1 {
      assert news == [news[0]] && news[0] in news;
      HeardOne(a, t, p, news[0]);
    } else {
      assert t.tape[|a.tape|..] == [];
    }
  }

  lemma FillFollows(st: State, p: Publisher, b: Builder, k: Taker, i: nat, f: nat)
    requires InStep(st, p, b) && st.Uncrossed()
    requires i < st.width && st.Get(k.Shelf())[i] != [] && 0 < f <= st.Get(k.Shelf())[i][0].qty
    ensures Follows(st, Fill(st, k, i, f), p, b)
  {
    hide State.ListedAt, Synced, Fill;
    SyncedFill(st, p, b, k, i, f);
    ModeKept(p, Fill(st, k, i, f).tape[|st.tape|..]);
  }

  lemma CancelHeadFollows(st: State, p: Publisher, b: Builder, s: Side, i: nat)
    requires InStep(st, p, b)
    requires i < st.width && st.Get(Resting(s))[i] != []
    ensures Follows(st, CancelHead(st, s, i), p, b)
  {
    hide State.ListedAt, Synced;
    SyncedCancelHead(st, p, b, s, i);
    ModeKept(p, CancelHead(st, s, i).tape[|st.tape|..]);
  }

  lemma FollowsSelf(st: State, p: Publisher, b: Builder)
    requires InStep(st, p, b)
    ensures Follows(st, st, p, b)
  {
    assert st.tape[|st.tape|..] == [];
  }

  lemma InStepIndexed(st: State, p: Publisher, b: Builder)
    requires InStep(st, p, b)
    ensures st.Indexed() && BuilderValid(b)
  {}

  lemma TurnFollows(st: State, p: Publisher, b: Builder, k: Taker, qty: nat)
    requires InStep(st, p, b) && st.Uncrossed()
    ensures Follows(st, TakeTurn(st, k, qty).st, p, b)
  {
    hide State.ListedAt, InStep, Heard, Fill, CancelHead;
    InStepIndexed(st, p, b);
    FollowsSelf(st, p, b);
    var i := Best(k.Against(), st.Get(k.Shelf()));
    if qty > 0 && i >= 0 && k.Reaches(i) {
      var o := st.Get(k.Shelf())[i][0];
      if k.Own(o) {
        CancelHeadFollows(st, p, b, k.Against(), i);
      } else {
        FillFollows(st, p, b, k, i, Min(qty, o.qty));
      }
    }
  }

  lemma TurnUncrossed(st: State, k: Taker, qty: nat)
    requires st.Indexed() && st.Uncrossed()
    ensures TakeTurn(st, k, qty).st.Uncrossed() && TakeTurn(st, k, qty).st.halted == st.halted
  {
    hide State.ListedAt, TakeTurn;
    TurnFrame(st, k, qty);
    EmptyingKeepsUncrossed(st, TakeTurn(st, k, qty).st, k.Against());
  }

  /** The feed keeps in step through a whole sweep. */
  lemma {:induction false} MatchFollows(st: State, p: Publisher, b: Builder, k: Taker, qty: nat)
    requires InStep(st, p, b) && st.Uncrossed()
    ensures Follows(st, Match(st, k, qty).st, p, b)
    decreases qty, Count(st.Get(k.Shelf()))
  {
    hide State.ListedAt, InStep, Heard, TakeTurn;
    InStepIndexed(st, p, b);
    TurnFollows(st, p, b, k, qty);
    var r := TakeTurn(st, k, qty);
    if r.Go? {
      TurnUncrossed(st, k, qty);
      MatchFollows(r.st, Heard(st, r.st, p), b, k, r.left);
      FollowsTrans(st, r.st, Match(st, k, qty).st, p, b);
    }
  }

  /** An order rests where the other side cannot reach it, or in a halt. */
  lemma RestFollows(st: State, p: Publisher, b: Builder, id: nat, side: Side, tick: nat, qty: nat, t: Terms)
    requires InStep(st, p, b) && tick < st.width && qty > 0 && 0 < id < st.nextId && id !in st.live
    requires st.halted || !WouldCross(st, side, tick)
    ensures Follows(st, Rest(st, id, side, tick, qty, t), p, b)
  {
    hide State.ListedAt, Synced, Heard;
    var o := Shape(id, qty, t);
    var j := Join(st, Resting(side), tick, o);
    var r := Rest(st, id, side, tick, qty, t);
    RestSteady(st, id, side, tick, qty, t);
    SyncedJoin(st, p, b, side, tick, o);
    SyncedQuiet(j, r, OnRest(p, id, side, st.min + tick, o.qty), b);
    HeardOne(st, r, p, Rested(id, side, st.min + tick, o.qty));
  }

  lemma StrangerIsHidden(st: State, p: Publisher, b: Builder, id: nat)
    requires InStep(st, p, b) && (id in st.live ==> st.live[id].shelf.stop)
    ensures Hidden(p, Cancelled(id))
  {}

  lemma PlaceFollows(st: State, p: Publisher, b: Builder, id: nat, side: Side, tick: nat, qty: nat, tif: TimeInForce,
                     t: Terms)
    requires InStep(st, p, b) && tick < st.width && qty > 0 && 0 < id < st.nextId && id !in st.live
    requires Safe(st)
    ensures Follows(st, PlaceLimit(st, id, side, tick, qty, tif, t), p, b)
  {
    hide State.ListedAt, InStep, Heard, Match, Rest;
    InStepIndexed(st, p, b);
    if st.halted {
      RestFollows(st, p, b, id, side, tick, qty, t);
    } else {
      var k := AsTaker(id, side, tick, t);
      var m := Match(st, k, qty);
      MatchSteady(st, k, qty);
      MatchFollows(st, p, b, k, qty);
      MatchExhausts(st, k, qty);
      var q := Heard(st, m.st, p);
      if m.left == 0 {
      } else if m.halt || tif.IOC? || tif.FOK? {
        StrangerIsHidden(m.st, q, b, id);
        TellSteady(m.st, [Cancelled(id)]);
        FollowsQuietly(m.st, m.st.Emit(Cancelled(id)), q, b, [Cancelled(id)]);
        FollowsTrans(st, m.st, m.st.Emit(Cancelled(id)), p, b);
      } else {
        RestFollows(m.st, q, b, id, side, tick, m.left, t);
        FollowsTrans(st, m.st, Rest(m.st, id, side, tick, m.left, t), p, b);
      }
    }
  }

  lemma ExecuteFollows(st: State, p: Publisher, b: Builder, side: Side, o: Node)
    requires InStep(st, p, b) && o.qty > 0 && (o.market || st.InBand(o.limit))
    requires 0 < o.id < st.nextId && o.id !in st.live && st.Uncrossed() && !st.halted
    ensures Follows(st, ExecuteStop(st, side, o), p, b)
  {
    hide State.ListedAt, InStep, Heard, Match, PlaceLimit;
    InStepIndexed(st, p, b);
    var t := Terms(o.owner, o.stp, 0);
    if o.market {
      MatchFollows(st, p, b, Sweeping(st, o.id, side, t), o.qty);
    } else {
      PlaceFollows(st, p, b, o.id, side, st.Tick(o.limit), o.qty, GTC, t);
    }
  }

  /** A pending stop leaves its shelf unheard. */
  lemma StopLeaveFollows(st: State, p: Publisher, b: Builder, s: Shelf, i: nat, k: nat)
    requires InStep(st, p, b) && s.stop && i < st.width && k < |st.Get(s)[i]|
    ensures Follows(st, Leave(st, s, i, k), p, b)
  {
    hide State.ListedAt, Synced, Heard;
    LeaveIndexed(st, s, i, k);
    FollowsQuietly(st, Leave(st, s, i, k), p, b, []);
  }

  lemma FireFollows(st: State, p: Publisher, b: Builder, at: Place)
    requires InStep(st, p, b) && Valid(st) && st.Uncrossed() && !st.halted
    requires at.shelf.stop && at.tick < st.width && st.Get(at.shelf)[at.tick] != []
    ensures var o := st.Get(at.shelf)[at.tick][0]; o.market || st.InBand(o.limit)
    ensures Follows(st, FireStop(st, at), p, b)
  {
    hide State.ListedAt, InStep, Heard, ExecuteStop;
    FireStopFrame(st, at);
    var l := Leave(st, at.shelf, at.tick, 0);
    LeaveIndexed(st, at.shelf, at.tick, 0);
    StopLeaveFollows(st, p, b, at.shelf, at.tick, 0);
    LeaveUncrossed(st, at.shelf, at.tick, 0);
    ExecuteFollows(l, Heard(st, l, p), b, at.shelf.side, st.Get(at.shelf)[at.tick][0]);
    FollowsTrans(st, l, FireStop(st, at), p, b);
  }

  /** The feed keeps in step through a whole stop cascade. */
  lemma {:induction false} PumpFollows(st: State, p: Publisher, b: Builder)
    requires InStep(st, p, b) && Valid(st) && Safe(st)
    ensures Follows(st, Pump(st), p, b)
    decreases PendingStops(st)
  {
    hide State.ListedAt, InStep, Heard, FireStop, StopsInBand;
    FollowsSelf(st, p, b);
    if !st.halted && NextStop(st).Some? {
      var at := NextStop(st).value;
      FireStopFrame(st, at);
      FireUncrossed(st, at);
      FireFollows(st, p, b, at);
      var t := FireStop(st, at);
      PumpFollows(t, Heard(st, t, p), b);
      FollowsTrans(st, t, Pump(st), p, b);
    }
  }
}
