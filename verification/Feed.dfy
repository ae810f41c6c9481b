/** The displayed-book feed: engine events to messages, messages to a rebuilt engine. */
module Feed {
  import opened Types
  import opened Book
  import opened Engine
  import opened Safety

  /** The messages a book consumer tracks, plus the cross print it skips. A publisher
      of this venue never replaces: a reprice is a Delete and an Add. */
  datatype Message =
    | Add(ref: nat, side: Side, qty: nat, price: int)
    | Execute(ref: nat, qty: nat)
    | ExecuteAt(ref: nat, qty: nat, price: int)
    | Shrink(ref: nat, qty: nat)
    | Delete(ref: nat)
    | Replace(ref: nat, newRef: nat, qty: nat, price: int)
    | CrossPrint(qty: nat, price: int)
    | Action(halted: bool)

  // ---- publishing -----------------------------------------------------

  /** What the feed knows of a displayed order. */
  datatype Ref = Ref(ref: nat, displayed: nat)

  /** `refs` holds the displayed orders only; `out` is everything published. */
  datatype Publisher = Publisher(refs: map<nat, Ref>, nextRef: nat, out: seq<Message>, inCross: bool) {
    function Send(m: Message): Publisher { this.(out := out + [m]) }
  }

  const NEW_PUBLISHER := Publisher(map[], 1, [], false)

  /** An execution of `qty` against a displayed order; at zero it is gone. */
  function Take(p: Publisher, id: nat, qty: nat): Publisher
    requires id in p.refs
  {
    var left := p.refs[id].displayed - Min(qty, p.refs[id].displayed);
    if left == 0 then p.(refs := p.refs - {id}) else p.(refs := p.refs[id := p.refs[id].(displayed := left)])
  }

  function OnRest(p: Publisher, id: nat, side: Side, price: int, qty: nat): Publisher {
    p.(refs := p.refs[id := Ref(p.nextRef, qty)], nextRef := p.nextRef + 1).Send(Add(p.nextRef, side, qty, price))
  }

  /** An auction fill prints only the displayed part of each side. */
  function ExecCross(p: Publisher, id: nat, fill: nat, price: int): Publisher {
    if id !in p.refs || Min(fill, p.refs[id].displayed) == 0 then p
    else
      var part := Min(fill, p.refs[id].displayed);
      Take(p.Send(ExecuteAt(p.refs[id].ref, part, price)), id, part)
  }

  function OnTrade(p: Publisher, taker: nat, maker: nat, price: int, qty: nat): Publisher {
    if p.inCross then ExecCross(ExecCross(p, taker, qty, price), maker, qty, price)
    else if maker !in p.refs then p
    else Take(p.Send(Execute(p.refs[maker].ref, qty)), maker, qty)
  }

  function OnCancel(p: Publisher, id: nat): Publisher {
    if id !in p.refs then p
    else p.Send(Delete(p.refs[id].ref)).(refs := p.refs - {id})
  }

  function OnEvent(p: Publisher, e: Event): Publisher {
    match e
    case Rested(id, side, price, qty) => OnRest(p, id, side, price, qty)
    case Traded(taker, maker, price, qty, _) => OnTrade(p, taker, maker, price, qty)
    case Cancelled(id) => OnCancel(p, id)
    case Accepted(_, _, _, _) => p
    case Rejected(_) => p
  }

  function OnEvents(p: Publisher, es: seq<Event>): Publisher
    decreases |es|
  {
    if es == [] then p else OnEvents(OnEvent(p, es[0]), es[1..])
  }

  lemma {:induction false} OnEventsAppend(p: Publisher, a: seq<Event>, b: seq<Event>)
    ensures OnEvents(p, a + b) == OnEvents(OnEvents(p, a), b)
    decreases |a|
  {
    if a == [] {
      assert a + b == b;
    } else {
      assert (a + b)[1..] == a[1..] + b;
      OnEventsAppend(OnEvent(p, a[0]), a[1..], b);
    }
  }

  /** Displayed quantity of a live resting order; 0 for a dead id or a pending stop. */
  function OrderQty(st: State, id: nat): nat
    requires st.Indexed()
  {
    if id in st.live && !st.live[id].shelf.stop then OrderOf(st, id).qty else 0
  }

  /** After a silent in-place amend: a shrink, a delete, or nothing. */
  function PublishShrink(p: Publisher, id: nat, before: nat, after: nat): Publisher {
    if id !in p.refs then p
    else if after == 0 then p.Send(Delete(p.refs[id].ref)).(refs := p.refs - {id})
    else if after < before then
      p.Send(Shrink(p.refs[id].ref, before - after)).(refs := p.refs[id := p.refs[id].(displayed := after)])
    else p
  }

  predicate BookEvent(e: Event) { e.Rested? || e.Cancelled? }

  predicate SawBookEvent(es: seq<Event>) { exists e :: e in es && BookEvent(e) }

  /** One publisher call around one engine call that took `st` to `t`. */
  function PubStep(p: Publisher, st: State, op: Op, t: State, reply: Reply): Publisher
    requires st.Indexed() && t.Indexed() && st.tape <= t.tape
  {
    var news := t.tape[|st.tape|..];
    match op
    case Halt => OnEvents(p.Send(Action(true)), news)
    case Resume => OnEvents(p.Send(Action(false)), news)
    case UncrossBook =>
      var q := OnEvents(p.(inCross := true), news).(inCross := false);
      if reply.Crossed? && reply.qty > 0 && t.last.Some? then q.Send(CrossPrint(reply.qty, t.last.value)) else q
    case Reduce(id, _) =>
      var q := OnEvents(p, news);
      if reply == Answer(true) && OrderQty(st, id) > 0 then PublishShrink(q, id, OrderQty(st, id), OrderQty(t, id))
        else q
    case Modify(id, _, _) =>
      var q := OnEvents(p, news);
      if reply == Answer(true) && !SawBookEvent(news) && OrderQty(st, id) > 0
      then PublishShrink(q, id, OrderQty(st, id), OrderQty(t, id)) else q
    case _ => OnEvents(p, news)
  }

  // ---- rebuilding -----------------------------------------------------

  /** A consumer: an engine of its own and the reference-to-id map. */
  datatype Builder = Builder(engine: State, refmap: map<nat, nat>)

  function NewBuilder(min: int, width: nat): Builder { Builder(Fresh(min, width), map[]) }

  ghost predicate BuilderValid(b: Builder) { Engine.Valid(b.engine) }

  function Apply(b: Builder, m: Message): Builder
    requires BuilderValid(b)
  {
    match m
    case Add(ref, side, qty, price) =>
      var r := Step(b.engine, SubmitLimit(side, price, qty, GTC, 0, CancelTaker));
      Builder(r.st, if r.reply.Assigned? && r.reply.id != 0 then b.refmap[ref := r.reply.id] else b.refmap)
    case Execute(ref, qty) => ApplyReduce(b, ref, qty)
    case ExecuteAt(ref, qty, _) => ApplyReduce(b, ref, qty)
    case Shrink(ref, qty) => ApplyReduce(b, ref, qty)
    case Delete(ref) =>
      if ref !in b.refmap then b
      else Builder(Step(b.engine, Cancel(b.refmap[ref])).st, b.refmap - {ref})
    case Replace(ref, newRef, qty, price) =>
      if ref !in b.refmap then b
      else
        var r := Step(b.engine, Modify(b.refmap[ref], price, qty));
        // A rejected replace leaves the order reachable under its old reference.
        Builder(r.st, if r.reply == Answer(true) then (b.refmap - {ref})[newRef := b.refmap[ref]] else b.refmap)
    case CrossPrint(_, _) => b
    case Action(halted) => b.(engine := Step(b.engine, if halted then Halt else Resume).st)
  }

  /** Reduce keeps queue priority; a reference whose order is gone is dropped on its next touch. */
  function ApplyReduce(b: Builder, ref: nat, qty: nat): Builder
    requires BuilderValid(b)
  {
    if ref !in b.refmap then b
    else
      var r := Step(b.engine, Reduce(b.refmap[ref], qty));
      Builder(r.st, if r.reply == Answer(true) then b.refmap else b.refmap - {ref})
  }

  lemma ApplyValid(b: Builder, m: Message)
    requires BuilderValid(b)
    ensures BuilderValid(Apply(b, m))
  {
    hide Step, StopsInBand, State.ListedAt;
    match m {
      case Add(_, side, qty, price) => StepValid(b.engine, SubmitLimit(side, price, qty, GTC, 0, CancelTaker));
      case Execute(ref, qty) => if ref in b.refmap { StepValid(b.engine, Op.Reduce(b.refmap[ref], qty)); }
      case ExecuteAt(ref, qty, _) => if ref in b.refmap { StepValid(b.engine, Op.Reduce(b.refmap[ref], qty)); }
      case Shrink(ref, qty) => if ref in b.refmap { StepValid(b.engine, Op.Reduce(b.refmap[ref], qty)); }
      case Delete(ref) => if ref in b.refmap { StepValid(b.engine, Op.Cancel(b.refmap[ref])); }
      case Replace(ref, _, qty, price) =>
        if ref in b.refmap { StepValid(b.engine, Op.Modify(b.refmap[ref], price, qty)); }
      case CrossPrint(_, _) =>
      case Action(halted) => StepValid(b.engine, if halted then Op.Halt else Op.Resume);
    }
  }

  /** A builder that has applied all of `ms`. */
  function Replay(b: Builder, ms: seq<Message>): (r: Builder)
    requires BuilderValid(b)
    ensures BuilderValid(r)
    decreases |ms|
  {
    if ms == [] then b
    else
      var before := Replay(b, ms[..|ms| - 1]);
      ApplyValid(before, ms[|ms| - 1]);
      Apply(before, ms[|ms| - 1])
  }

  lemma {:induction false} ReplayAppend(b: Builder, ms: seq<Message>, more: seq<Message>)
    requires BuilderValid(b)
    ensures Replay(b, ms + more) == Replay(Replay(b, ms), more)
    decreases |more|
  {
    hide Apply, BuilderValid;
    if more == [] {
      assert ms + more == ms;
    } else {
      var n := |more| - 1;
      assert (ms + more)[..|ms| + n] == ms + more[..n];
      ReplayAppend(b, ms, more[..n]);
    }
  }
}
