/** Joining late: a snapshot of the displayed book, then the live stream. */
module FeedJoin {
  import opened Types
  import opened Ladders
  import opened Book
  import opened Engine
  import opened Safety
  import opened Feed
  import opened FeedMirror
  import opened FeedSync
  import opened FeedRuns
  import opened FeedServe
  import MoldUdp64

  // ---- the snapshot ---------------------------------------------------

  function AddOf(refs: Refs, s: Side, price: int, o: Order): Message {
    Add(if o.id in refs then refs[o.id].ref else 0, s, o.qty, price)
  }

  /** One level, in queue order. */
  function AddQueue(refs: Refs, s: Side, price: int, q: Queue): seq<Message> {
    if q == [] then [] else [AddOf(refs, s, price, q[0])] + AddQueue(refs, s, price, q[1..])
  }

  /** The bids below tick `n`, best first. */
  function AddBids(st: State, refs: Refs, n: nat): seq<Message>
    requires n <= |st.Get(Resting(Buy))|
  {
    if n == 0 then []
    else AddQueue(refs, Buy, st.min + n - 1, st.Get(Resting(Buy))[n - 1]) + AddBids(st, refs, n - 1)
  }

  /** The asks from tick `i`, best first. */
  function AddAsks(st: State, refs: Refs, i: nat): seq<Message>
    requires i <= |st.Get(Resting(Sell))|
    decreases |st.Get(Resting(Sell))| - i
  {
    if i == |st.Get(Resting(Sell))| then []
    else AddQueue(refs, Sell, st.min + i, st.Get(Resting(Sell))[i]) + AddAsks(st, refs, i + 1)
  }

  /** Live references in book priority order, behind a halt action when trading is halted. */
  function Snapshot(st: State, refs: Refs): seq<Message>
    requires st.Shaped()
  {
    (if st.halted then [Action(true)] else []) + AddBids(st, refs, st.width) + AddAsks(st, refs, 0)
  }

  // ---- a part of the book ---------------------------------------------

  /** `x` holds, of every displayed queue of `st`, a front part; `had` its references. */
  ghost predicate Part(x: State, had: Refs, st: State, refs: Refs)
    requires st.Indexed()
  {
    && x.Indexed() && x.min == st.min && x.width == st.width && x.halted == st.halted && x.nextId == st.nextId
    && (forall id :: id in x.live ==> id in st.live && x.live[id] == st.live[id] && !st.live[id].shelf.stop)
    && had.Keys == x.live.Keys
    && (forall id :: id in had ==> id in refs && had[id] == refs[id])
    && (forall s: Side, j :: 0 <= j < st.width ==> x.Get(Resting(s))[j] <= st.Get(Resting(s))[j])
  }

  lemma NextIsNew(x: State, had: Refs, st: State, refs: Refs, s: Side, j: nat)
    requires st.Indexed() && Part(x, had, st, refs) && j < st.width
    requires |x.Get(Resting(s))[j]| < |st.Get(Resting(s))[j]|
    ensures var o := st.Get(Resting(s))[j][|x.Get(Resting(s))[j]|];
      0 < o.id < st.nextId && o.id !in x.live && o.id in st.live && st.live[o.id] == Place(Resting(s), j)
  {
    var q, r := st.Get(Resting(s))[j], x.Get(Resting(s))[j];
    Locate(st, Resting(s), j, |r|);
    var id := q[|r|].id;
    if id in x.live {
      assert x.ListedAt(Place(Resting(s), j)) && id in Ids(r);
      var k := IndexOf(r, id);
      Locate(st, Resting(s), j, k);
    }
  }

  lemma PartCannotCross(x: State, had: Refs, st: State, refs: Refs, s: Side, j: nat)
    requires st.Indexed() && Part(x, had, st, refs) && j < st.width && st.Get(Resting(s))[j] != []
    requires st.Uncrossed()
    ensures !WouldCross(x, s, j)
  {
    hide State.ListedAt, State.Bounded;
    var t := s.Opposite();
    var i := x.BestTick(t);
    if i >= 0 {
      assert x.Get(Resting(t))[i] <= st.Get(Resting(t))[i] && st.Get(Resting(t))[i] != [];
    }
  }

  lemma JoinPart(x: State, had: Refs, st: State, refs: Refs, s: Side, j: nat, o: Order)
    requires st.Indexed() && Part(x, had, st, refs) && j < st.width
    requires |x.Get(Resting(s))[j]| < |st.Get(Resting(s))[j]| && o == st.Get(Resting(s))[j][|x.Get(Resting(s))[j]|]
    requires o.id in refs
    ensures Part(Join(x, Resting(s), j, o), had[o.id := refs[o.id]], st, refs)
  {
    hide State.ListedAt, State.Bounded;
    NextIsNew(x, had, st, refs, s, j);
    JoinIndexed(x, Resting(s), j, o);
  }

  /** What the snapshot needs of the publisher: live references to all displayed orders. */
  ghost predicate Referenced(st: State, refs: Refs)
    requires st.Indexed()
  {
    && Published(st, refs)
    && (forall s: Side, i, k :: 0 <= i < st.width && 0 <= k < |st.Get(Resting(s))[i]| ==>
          var o := st.Get(Resting(s))[i][k]; o.id in refs && refs[o.id].displayed == o.qty)
  }

  /** The part so far and its replay. */
  ghost predicate Joining(x: State, had: Refs, b: Builder, st: State, refs: Refs) {
    && st.Indexed() && Safe(st) && Referenced(st, refs)
    && Part(x, had, st, refs) && BuilderValid(b) && Mirrors(x, had, b)
  }

  /** The next order of a queue joins the part, and its Add the replay. */
  lemma AddNext(x: State, had: Refs, b: Builder, st: State, refs: Refs, s: Side, j: nat, o: Order)
    requires Joining(x, had, b, st, refs) && j < st.width
    requires |x.Get(Resting(s))[j]| < |st.Get(Resting(s))[j]| && o == st.Get(Resting(s))[j][|x.Get(Resting(s))[j]|]
    ensures o.id in refs
    ensures Joining(Join(x, Resting(s), j, o), had[o.id := refs[o.id]], Apply(b, AddOf(refs, s, st.min + j, o)), st,
      refs)
  {
    hide State.ListedAt, State.Bounded, Untraded, SameBook, Apply, OrderOf, Seat;
    NextIsNew(x, had, st, refs, s, j);
    JoinPart(x, had, st, refs, s, j, o);
    if !st.halted { PartCannotCross(x, had, st, refs, s, j); }
    EmptyAlike(x, had, b, s.Opposite());
    RefIsNew(x, had, st, refs, o.id);
    MirrorAdd(x, had, b, s, j, o, refs[o.id].ref);
    ApplyValid(b, AddOf(refs, s, st.min + j, o));
  }

  lemma RefIsNew(x: State, had: Refs, st: State, refs: Refs, id: nat)
    requires st.Indexed() && Part(x, had, st, refs) && Published(st, refs) && id in refs && id !in had
    ensures forall j :: j in had ==> had[j].ref != refs[id].ref
  {}

  lemma ReplayCons(b: Builder, m: Message, rest: seq<Message>)
    requires BuilderValid(b)
    ensures BuilderValid(Apply(b, m)) && Replay(b, [m] + rest) == Replay(Apply(b, m), rest)
  {
    hide Apply, BuilderValid;
    ApplyValid(b, m);
    ReplayAppend(b, [m], rest);
    ReplayOne(b, m);
  }

  lemma ReplayOne(b: Builder, m: Message)
    requires BuilderValid(b)
    ensures Replay(b, [m]) == Apply(b, m)
  {
    hide Apply, BuilderValid;
    assert [m][..0] == [];
  }

  ghost predicate SameQueue(x: State, t: State, s: Side, j: nat) {
    j < |x.Get(Resting(s))| == |t.Get(Resting(s))| && t.Get(Resting(s))[j] == x.Get(Resting(s))[j]
  }

  /** One level is joined to its end. */
  lemma {:induction false} FillQueue(x: State, had: Refs, b: Builder, st: State, refs: Refs, s: Side, j: nat)
    returns (x': State, had': Refs)
    requires Joining(x, had, b, st, refs) && j < st.width
    ensures Joining(x', had',
      Replay(b, AddQueue(refs, s, st.min + j, st.Get(Resting(s))[j][|x.Get(Resting(s))[j]|..])), st, refs)
    ensures SameQueue(st, x', s, j)
    ensures forall r: Side, i :: 0 <= i < st.width && (r != s || i != j) ==> SameQueue(x, x', r, i)
    decreases |st.Get(Resting(s))[j]| - |x.Get(Resting(s))[j]|
  {
    hide State.ListedAt, State.Bounded, Referenced, Mirrors, Apply, BuilderValid, Replay, AddOf, Safe;
    var q, k := st.Get(Resting(s))[j], |x.Get(Resting(s))[j]|;
    if k == |q| {
      x', had' := x, had;
      assert q[k..] == [];
      ReplayNone(b);
    } else {
      var o := q[k];
      AddNext(x, had, b, st, refs, s, j, o);
      var m, rest := AddOf(refs, s, st.min + j, o), AddQueue(refs, s, st.min + j, q[k + 1..]);
      assert q[k..][0] == o && q[k..][1..] == q[k + 1..];
      ReplayCons(b, m, rest);
      var y := Join(x, Resting(s), j, o);
      x', had' := FillQueue(y, had[o.id := refs[o.id]], Apply(b, m), st, refs, s, j);
      forall r: Side, i | 0 <= i < st.width && (r != s || i != j) ensures SameQueue(x, x', r, i) {
        assert SameQueue(x, y, r, i) && SameQueue(y, x', r, i);
      }
    }
  }

  lemma ReplayNone(b: Builder)
    requires BuilderValid(b)
    ensures Replay(b, []) == b
  {}

  lemma {:induction false} FillBids(x: State, had: Refs, b: Builder, st: State, refs: Refs, n: nat)
    returns (x': State, had': Refs)
    requires Joining(x, had, b, st, refs) && n <= st.width
    requires forall j :: 0 <= j < n ==> x.Get(Resting(Buy))[j] == []
    ensures Joining(x', had', Replay(b, AddBids(st, refs, n)), st, refs) && x'.Shaped() && x'.width == st.width
    ensures forall j :: 0 <= j < n ==> SameQueue(st, x', Buy, j)
    ensures forall r: Side, i :: 0 <= i < st.width && (r != Buy || i >= n) ==> SameQueue(x, x', r, i)
    decreases n
  {
    hide State.ListedAt, State.Bounded, Referenced, Mirrors, BuilderValid, Replay;
    if n == 0 {
      x', had' := x, had;
      ReplayNone(b);
    } else {
      var ms := AddQueue(refs, Buy, st.min + n - 1, st.Get(Resting(Buy))[n - 1]);
      assert st.Get(Resting(Buy))[n - 1][0..] == st.Get(Resting(Buy))[n - 1];
      var y, had1 := FillQueue(x, had, b, st, refs, Buy, n - 1);
      forall j | 0 <= j < n - 1 ensures y.Get(Resting(Buy))[j] == [] { assert SameQueue(x, y, Buy, j); }
      x', had' := FillBids(y, had1, Replay(b, ms), st, refs, n - 1);
      ReplayAppend(b, ms, AddBids(st, refs, n - 1));
      assert SameQueue(y, x', Buy, n - 1);
      forall r: Side, i | 0 <= i < st.width && (r != Buy || i >= n) ensures SameQueue(x, x', r, i) {
        assert SameQueue(x, y, r, i) && SameQueue(y, x', r, i);
      }
    }
  }

  lemma {:induction false} FillAsks(x: State, had: Refs, b: Builder, st: State, refs: Refs, n: nat)
    returns (x': State, had': Refs)
    requires Joining(x, had, b, st, refs) && n <= st.width
    requires forall j :: n <= j < st.width ==> x.Get(Resting(Sell))[j] == []
    ensures Joining(x', had', Replay(b, AddAsks(st, refs, n)), st, refs)
    ensures forall j :: n <= j < st.width ==> SameQueue(st, x', Sell, j)
    ensures forall r: Side, i :: 0 <= i < st.width && (r != Sell || i < n) ==> SameQueue(x, x', r, i)
    decreases st.width - n
  {
    hide State.ListedAt, State.Bounded, Referenced, Mirrors, BuilderValid, Replay;
    if n == st.width {
      x', had' := x, had;
      ReplayNone(b);
    } else {
      var ms := AddQueue(refs, Sell, st.min + n, st.Get(Resting(Sell))[n]);
      assert st.Get(Resting(Sell))[n][0..] == st.Get(Resting(Sell))[n];
      var y, had1 := FillQueue(x, had, b, st, refs, Sell, n);
      forall j | n < j < st.width ensures y.Get(Resting(Sell))[j] == [] { assert SameQueue(x, y, Sell, j); }
      x', had' := FillAsks(y, had1, Replay(b, ms), st, refs, n + 1);
      ReplayAppend(b, ms, AddAsks(st, refs, n + 1));
      assert SameQueue(y, x', Sell, n);
      forall r: Side, i | 0 <= i < st.width && (r != Sell || i < n) ensures SameQueue(x, x', r, i) {
        assert SameQueue(x, y, r, i) && SameQueue(y, x', r, i);
      }
    }
  }

  // ---- the whole snapshot ---------------------------------------------

  /** The source with nothing displayed. */
  function Blank(st: State): State { Fresh(st.min, st.width).(halted := st.halted, nextId := st.nextId) }

  lemma NothingJoined(st: State, refs: Refs)
    requires st.Indexed() && Safe(st) && Referenced(st, refs)
    ensures Joining(Blank(st), map[], Builder(Fresh(st.min, st.width).(halted := st.halted), map[]), st, refs)
  {
    hide State.ListedAt, Referenced;
    var e := Fresh(st.min, st.width);
    FreshIsSafe(st.min, st.width);
    HaltValid(e, st.halted);
    assert Blank(st).Indexed() by { FreshNext(e.(halted := st.halted), st.nextId); }
  }

  lemma FreshNext(e: State, n: nat)
    requires e.Indexed() && e.live == map[] && n > 0
    ensures e.(nextId := n).Indexed()
  {
    var t := e.(nextId := n);
    forall p: Place | p.tick < t.width ensures t.ListedAt(p) { assert e.ListedAt(p); }
  }

  /** A whole book joined is the displayed book under the live references. */
  lemma AllJoined(x: State, had: Refs, b: Builder, st: State, refs: Refs)
    requires Joining(x, had, b, st, refs)
    requires forall s: Side, j :: 0 <= j < st.width ==> SameQueue(st, x, s, j)
    ensures Mirrors(st, refs, b)
  {
    hide State.ListedAt, State.Bounded, Untraded, SameBook;
    forall s: Side ensures x.Get(Resting(s)) == st.Get(Resting(s)) {
      forall j | 0 <= j < st.width
        ensures x.Get(Resting(s))[j] == st.Get(Resting(s))[j] { assert SameQueue(st, x, s, j); }
    }
    forall id | id in st.live && !st.live[id].shelf.stop ensures id in x.live { DisplayedJoined(x, st, id); }
    MirrorsSame(x, st, had, b);
    assert had == refs;
  }

  lemma DisplayedJoined(x: State, st: State, id: nat)
    requires x.Indexed() && st.Indexed() && x.width == st.width && id in st.live && !st.live[id].shelf.stop
    requires forall s: Side :: x.Get(Resting(s)) == st.Get(Resting(s))
    ensures id in x.live
  {
    var at, k := st.live[id], Seat(st, id);
    assert at.shelf == Resting(at.shelf.side);
    Locate(x, at.shelf, at.tick, k);
  }

  /** A snapshot taken while halted or uncrossed rebuilds, on an empty engine, the
      displayed book in queue order under the live references. */
  lemma SnapshotMirrors(st: State, refs: Refs)
    requires st.Indexed() && Safe(st) && Referenced(st, refs)
    ensures BuilderValid(NewBuilder(st.min, st.width))
    ensures Mirrors(st, refs, Replay(NewBuilder(st.min, st.width), Snapshot(st, refs)))
  {
    hide State.ListedAt, State.Bounded, Referenced, Mirrors, Part, Replay, Apply;
    FreshIsSafe(st.min, st.width);
    var b := NewBuilder(st.min, st.width);
    var action := if st.halted then [Action(true)] else [];
    var b0 := Builder(Fresh(st.min, st.width).(halted := st.halted), map[]);
    NothingJoined(st, refs);
    assert Replay(b, action) == b0 by { Opening(st.min, st.width, st.halted); }
    var bids, asks := AddBids(st, refs, st.width), AddAsks(st, refs, 0);
    var x0 := Blank(st);
    var x1, had1 := FillBids(x0, map[], b0, st, refs, st.width);
    forall j | 0 <= j < st.width ensures x1.Get(Resting(Sell))[j] == [] { assert SameQueue(x0, x1, Sell, j); }
    var x2, had2 := FillAsks(x1, had1, Replay(b0, bids), st, refs, 0);
    forall s: Side, j | 0 <= j < st.width ensures SameQueue(st, x2, s, j) {
      if s == Buy { assert SameQueue(st, x1, Buy, j) && SameQueue(x1, x2, Buy, j); }
    }
    AllJoined(x2, had2, Replay(Replay(b0, bids), asks), st, refs);
    ReplayAppend(b, action, bids);
    ReplayAppend(b, action + bids, asks);
  }

  lemma Opening(min: int, width: nat, h: bool)
    requires width > 0
    ensures BuilderValid(NewBuilder(min, width))
    ensures Replay(NewBuilder(min, width), if h then [Action(true)] else []) ==
      Builder(Fresh(min, width).(halted := h), map[])
  {
    hide State.ListedAt, StopsInBand, Apply;
    FreshIsSafe(min, width);
    var b := NewBuilder(min, width);
    ReplayNone(b);
    if h {
      ReplayOne(b, Action(true));
      OpeningHalt(b);
    }
  }

  lemma OpeningHalt(b: Builder)
    requires BuilderValid(b) && b.engine.last.None?
    ensures Apply(b, Action(true)) == b.(engine := b.engine.(halted := true))
  {
    hide Step;
    PhaseStep(b.engine, true);
  }

  lemma ToldReferenced(st: State, p: Publisher)
    requires Told(st, p)
    ensures st.Indexed() && Referenced(st, p.refs) && RefsBelow(p)
  {
    hide State.ListedAt, OrderOf;
    forall s: Side, i, k | 0 <= i < st.width && 0 <= k < |st.Get(Resting(s))[i]|
      ensures var o := st.Get(Resting(s))[i][k]; o.id in p.refs && p.refs[o.id].displayed == o.qty
    {
      Locate(st, Resting(s), i, k);
    }
  }

  // ---- the later stream -----------------------------------------------

  /** The same publisher, having sent `pre` before. */
  function After(p: Publisher, pre: seq<Message>): Publisher { p.(out := pre + p.out) }

  lemma SendAfter(p: Publisher, pre: seq<Message>, m: Message)
    ensures After(p, pre).Send(m) == After(p.Send(m), pre)
  {
    assert pre + p.out + [m] == pre + (p.out + [m]);
  }

  lemma ExecCrossAfter(p: Publisher, pre: seq<Message>, id: nat, fill: nat, price: int)
    ensures ExecCross(After(p, pre), id, fill, price) == After(ExecCross(p, id, fill, price), pre)
  {
    if id in p.refs { SendAfter(p, pre, ExecuteAt(p.refs[id].ref, Min(fill, p.refs[id].displayed), price)); }
  }

  lemma OnEventAfter(p: Publisher, pre: seq<Message>, e: Event)
    ensures OnEvent(After(p, pre), e) == After(OnEvent(p, e), pre)
  {
    match e {
      case Rested(id, side, price, qty) =>
        var q := p.(refs := p.refs[id := Ref(p.nextRef, qty)], nextRef := p.nextRef + 1);
        SendAfter(q, pre, Add(p.nextRef, side, qty, price));
      case Traded(taker, maker, price, qty, _) =>
        if p.inCross {
          ExecCrossAfter(p, pre, taker, qty, price);
          ExecCrossAfter(ExecCross(p, taker, qty, price), pre, maker, qty, price);
        } else if maker in p.refs {
          SendAfter(p, pre, Execute(p.refs[maker].ref, qty));
        }
      case Cancelled(id) => if id in p.refs { SendAfter(p, pre, Delete(p.refs[id].ref)); }
      case Accepted(_, _, _, _) =>
      case Rejected(_) =>
    }
  }

  lemma {:induction false} OnEventsAfter(p: Publisher, pre: seq<Message>, es: seq<Event>)
    ensures OnEvents(After(p, pre), es) == After(OnEvents(p, es), pre)
    decreases |es|
  {
    if es != [] {
      OnEventAfter(p, pre, es[0]);
      OnEventsAfter(OnEvent(p, es[0]), pre, es[1..]);
    }
  }

  lemma ShrinkAfter(p: Publisher, pre: seq<Message>, id: nat, before: nat, after: nat)
    ensures PublishShrink(After(p, pre), id, before, after) == After(PublishShrink(p, id, before, after), pre)
  {
    if id in p.refs {
      SendAfter(p, pre, Delete(p.refs[id].ref));
      if after < before { SendAfter(p, pre, Shrink(p.refs[id].ref, before - after)); }
    }
  }

  /** What a call publishes does not depend on what was published before. */
  lemma PublishAfter(p: Publisher, pre: seq<Message>, st: State, op: Op)
    requires Valid(st)
    ensures Publish(After(p, pre), st, op) == After(Publish(p, st, op), pre)
  {
    hide State.ListedAt, StopsInBand, OnEvents, PublishShrink, After, SawBookEvent;
    StepValid(st, op);
    var t, reply := Step(st, op).st, Step(st, op).reply;
    hide Step;
    var news := t.tape[|st.tape|..];
    OnEventsAfter(p, pre, news);
    match op {
      case Halt => SendAfter(p, pre, Action(true)); OnEventsAfter(p.Send(Action(true)), pre, news);
      case Resume => SendAfter(p, pre, Action(false)); OnEventsAfter(p.Send(Action(false)), pre, news);
      case UncrossBook => UncrossAfter(p, pre, st, t, reply);
      case Reduce(id, _) => ShrinkAfter(OnEvents(p, news), pre, id, OrderQty(st, id), OrderQty(t, id));
      case Modify(id, _, _) => ShrinkAfter(OnEvents(p, news), pre, id, OrderQty(st, id), OrderQty(t, id));
      case _ =>
    }
  }

  lemma UncrossAfter(p: Publisher, pre: seq<Message>, st: State, t: State, reply: Reply)
    requires st.Indexed() && t.Indexed() && st.tape <= t.tape
    ensures PubStep(After(p, pre), st, UncrossBook, t, reply) == After(PubStep(p, st, UncrossBook, t, reply), pre)
  {
    hide State.ListedAt;
    var news := t.tape[|st.tape|..];
    OnEventsAfter(p.(inCross := true), pre, news);
    var q := OnEvents(p.(inCross := true), news).(inCross := false);
    if reply.Crossed? && t.last.Some? { SendAfter(q, pre, CrossPrint(reply.qty, t.last.value)); }
  }

  lemma {:induction false} PublishRunAfter(p: Publisher, pre: seq<Message>, st: State, ops: seq<Op>)
    requires Valid(st)
    ensures PublishRun(After(p, pre), st, ops) == After(PublishRun(p, st, ops), pre)
    decreases |ops|
  {
    hide State.ListedAt, StopsInBand, Publish, Step, After;
    if ops != [] {
      StepValid(st, ops[0]);
      PublishAfter(p, pre, st, ops[0]);
      PublishRunAfter(Publish(p, st, ops[0]), pre, Step(st, ops[0]).st, ops[1..]);
    }
  }

  /** An empty engine after a snapshot. */
  function Joined(st: State, refs: Refs): (b: Builder)
    requires st.Shaped()
    ensures BuilderValid(b)
  {
    FreshIsSafe(st.min, st.width);
    Replay(NewBuilder(st.min, st.width), Snapshot(st, refs))
  }

  /** `joined`, fed all that `q` published after its first `seen` messages, has the displayed book. */
  ghost predicate CaughtUp(t: State, q: Publisher, joined: Builder, seen: nat) {
    && t.Shaped() && seen <= |q.out| && BuilderValid(joined)
    && Mirrors(t, q.refs, Replay(joined, q.out[seen..]))
  }

  /** Behind a snapshot taken while halted or uncrossed a joiner is in step, whatever
      became of those who heard the earlier stream. */
  lemma SnapshotInStep(st: State, p: Publisher)
    requires Servable(st, p) && Safe(st)
    ensures st.Shaped() && InStep(st, p.(out := []), Joined(st, p.refs))
  {
    hide State.ListedAt, State.Bounded, Referenced, Mirrors, Replay, Told, Safe;
    ToldReferenced(st, p);
    SnapshotMirrors(st, p.refs);
    ReplayNone(Joined(st, p.refs));
  }

  /** A joiner applies a snapshot taken while halted or uncrossed, then everything
      published from there on, and ends with the displayed book. */
  lemma LateJoin(st: State, p: Publisher, ops: seq<Op>)
    requires Servable(st, p) && Valid(st) && Safe(st) && Quiet(st)
    requires ResumesUncrossed(st, ops) && AuctionsAtLimit(st, ops)
    ensures CaughtUp(Run(st, ops), PublishRun(p, st, ops), Joined(st, p.refs), |p.out|)
  {
    hide State.ListedAt, StopsInBand, State.Bounded, Referenced, Mirrors, Replay, PublishRun, Run, Safe, Quiet,
      ResumesUncrossed, AuctionsAtLimit, Servable;
    SnapshotInStep(st, p);
    var joined := Joined(st, p.refs);
    var p0 := p.(out := []);
    RunMirrorsIff(st, p0, joined, ops);
    ThroughoutEnds(st, p0, joined, ops);
    assert p == After(p0, p.out);
    PublishRunAfter(p0, p.out, st, ops);
    assert PublishRun(p, st, ops).out[|p.out|..] == PublishRun(p0, st, ops).out;
  }

  // ---- through packets ------------------------------------------------

  /** Every number names a published message; the first is number 1. */
  predicate Numbers(out: seq<Message>, ns: seq<nat>) { forall k :: 0 <= k < |ns| ==> 1 <= ns[k] <= |out| }

  /** The messages under these sequence numbers. */
  function Payloads(out: seq<Message>, ns: seq<nat>): seq<Message>
    requires Numbers(out, ns)
  {
    seq(|ns|, k requires 0 <= k < |ns| => out[ns[k] - 1])
  }

  /** Consecutive numbers pick a slice. */
  lemma PayloadsSlice(out: seq<Message>, from: nat, to: nat)
    requires 1 <= from <= to <= |out| + 1
    ensures Numbers(out, MoldUdp64.Count(from, to))
    ensures Payloads(out, MoldUdp64.Count(from, to)) == out[from - 1..to - 1]
  {}

  lemma {:induction false} RunSplit(st: State, p: Publisher, ops: seq<Op>, k: nat)
    requires Valid(st) && k <= |ops|
    ensures ResumesUncrossed(st, ops) ==> ResumesUncrossed(st, ops[..k])
    ensures AuctionsAtLimit(st, ops) ==> AuctionsAtLimit(st, ops[..k])
    ensures PublishRun(p, st, ops[..k]).out <= PublishRun(p, st, ops).out
    decreases |ops|
  {
    hide State.ListedAt, StopsInBand, Publish, Step;
    if ops != [] {
      StepValid(st, ops[0]);
      if k > 0 {
        assert ops[..k][0] == ops[0] && ops[..k][1..] == ops[1..][..k - 1];
        RunSplit(Step(st, ops[0]).st, Publish(p, st, ops[0]), ops[1..], k - 1);
      } else {
        RunSplit(Step(st, ops[0]).st, Publish(p, st, ops[0]), ops[1..], 0);
        PublishGrows(p, st, ops[0]);
        assert ops[1..][..0] == [] == ops[..0];
      }
    }
  }

  /** Publishing only appends. */
  lemma PublishGrows(p: Publisher, st: State, op: Op)
    requires Valid(st)
    ensures p.out <= Publish(p, st, op).out
  {
    hide State.ListedAt, StopsInBand, Publish, Step;
    var p0 := p.(out := []);
    assert p == After(p0, p.out);
    PublishAfter(p0, p.out, st, op);
  }

  /** The joiner in full: a snapshot, then whatever packets arrive, lost, duplicated,
      overlapping or reordered, through a tracker started at the number the snapshot came
      with. If nothing had to be given up, then as soon as the tracker stands at the end
      of what the first `k` calls published, the joiner's book is the displayed one. */
  lemma JoinThroughPackets(st: State, p: Publisher, ops: seq<Op>, k: nat, ps: seq<MoldUdp64.Span>)
    requires Servable(st, p) && Valid(st) && Safe(st) && Quiet(st) && k <= |ops|
    requires ResumesUncrossed(st, ops) && AuctionsAtLimit(st, ops)
    requires var u := MoldUdp64.Tracked(MoldUdp64.Track(|p.out| + 1, 0), ps);
      u.gap == 0 && u.expected == |PublishRun(p, st, ops[..k]).out| + 1
    ensures var applied := MoldUdp64.Delivered(MoldUdp64.Track(|p.out| + 1, 0), ps);
      && Run(st, ops[..k]).Shaped() && Numbers(PublishRun(p, st, ops).out, applied)
      && Mirrors(Run(st, ops[..k]), PublishRun(p, st, ops[..k]).refs,
                 Replay(Joined(st, p.refs), Payloads(PublishRun(p, st, ops).out, applied)))
  {
    hide State.ListedAt, StopsInBand, State.Bounded, Mirrors, Replay, PublishRun, Run, Safe, Quiet, ResumesUncrossed,
      AuctionsAtLimit, Joined, Servable, Payloads, Numbers;
    var t := MoldUdp64.Track(|p.out| + 1, 0);
    var part, whole := PublishRun(p, st, ops[..k]).out, PublishRun(p, st, ops).out;
    RunSplit(st, p, ops, k);
    LateJoin(st, p, ops[..k]);
    MoldUdp64.NoGapMeansAll(t, ps);
    MoldUdp64.AccountingIsExact(t, ps);
    PayloadsSlice(whole, |p.out| + 1, |part| + 1);
    assert whole[|p.out|..|part|] == part[|p.out|..];
  }

  /** After any run of calls on a fresh venue, resumes on crossed books and displaced clips
      included, a snapshot taken while halted or uncrossed rebuilds the displayed book. */
  lemma AnySnapshotServes(min: int, width: nat, before: seq<Op>)
    requires width > 0 && Valid(Fresh(min, width)) && Safe(Run(Fresh(min, width), before))
    ensures var st, p := Run(Fresh(min, width), before), PublishRun(NEW_PUBLISHER, Fresh(min, width), before);
      Valid(st) && Quiet(st) && Servable(st, p) && Mirrors(st, p.refs, Joined(st, p.refs))
  {
    hide State.ListedAt, StopsInBand, Safe, Quiet, Run, PublishRun, Mirrors, Servable;
    FreshIsSafe(min, width);
    FreshServable(min, width);
    RunServable(Fresh(min, width), NEW_PUBLISHER, before);
    var st, p := Run(Fresh(min, width), before), PublishRun(NEW_PUBLISHER, Fresh(min, width), before);
    SnapshotInStep(st, p);
    ReplayNone(Joined(st, p.refs));
  }

  /** Anyone may join then: the later stream, through packets, keeps the joiner's book the
      displayed one wherever `before` left the books of those who had been listening. */
  lemma AnyoneJoins(min: int, width: nat, before: seq<Op>, ops: seq<Op>, k: nat, ps: seq<MoldUdp64.Span>)
    requires width > 0 && Valid(Fresh(min, width)) && Valid(Run(Fresh(min, width), before)) && k <= |ops|
    requires var st, p := Run(Fresh(min, width), before), PublishRun(NEW_PUBLISHER, Fresh(min, width), before);
      && Safe(st) && ResumesUncrossed(st, ops) && AuctionsAtLimit(st, ops)
      && var u := MoldUdp64.Tracked(MoldUdp64.Track(|p.out| + 1, 0), ps);
        u.gap == 0 && u.expected == |PublishRun(p, st, ops[..k]).out| + 1
    ensures var st, p := Run(Fresh(min, width), before), PublishRun(NEW_PUBLISHER, Fresh(min, width), before);
      var applied := MoldUdp64.Delivered(MoldUdp64.Track(|p.out| + 1, 0), ps);
      && Run(st, ops[..k]).Shaped() && Numbers(PublishRun(p, st, ops).out, applied)
      && Mirrors(Run(st, ops[..k]), PublishRun(p, st, ops[..k]).refs,
                 Replay(Joined(st, p.refs), Payloads(PublishRun(p, st, ops).out, applied)))
  {
    hide State.ListedAt, StopsInBand, Safe, Quiet, Run, PublishRun, Mirrors, Servable, Joined, ResumesUncrossed,
      AuctionsAtLimit, Payloads, Numbers, Replay;
    AnySnapshotServes(min, width, before);
    var st, p := Run(Fresh(min, width), before), PublishRun(NEW_PUBLISHER, Fresh(min, width), before);
    JoinThroughPackets(st, p, ops, k, ps);
  }
}
