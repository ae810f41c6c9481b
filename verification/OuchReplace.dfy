/** When a replace the session acknowledges leaves no order behind. */
module OuchReplace {
  import opened Types
  import opened Ladders
  import opened Book
  import opened Matching
  import opened SweepLaws
  import opened Reach
  import opened Engine
  import opened Safety
  import opened Entries
  import opened Ouch

  // ---- the engine's side ----------------------------------------------

  /** The order is not amended in place: its price changes or its size grows. */
  predicate Reenters(st: State, id: nat, price: int, qty: nat)
    requires st.Indexed() && id in st.live
  {
    st.Tick(price) != st.live[id].tick || qty > Size(OrderOf(st, id))
  }

  function ReplaceTaker(st: State, id: nat, price: int): Taker
    requires st.Indexed() && id in st.live
  {
    var o := OrderOf(st, id);
    AsTaker(id, st.live[id].shelf.side, st.Tick(price), Terms(o.owner, o.stp, o.peak))
  }

  /** Read off the book before the call: the replace asks for nothing, or the order
      re-enters continuous trading and wants more than lies in front of its owner's
      own orders. */
  predicate DiesInReplace(st: State, id: nat, price: int, qty: nat)
    requires st.Indexed() && id in st.live
  {
    var r, k := Remove(st, id), ReplaceTaker(st, id, price);
    qty == 0 || (!st.halted && Reenters(st, id, price, qty) && Walled(r, k) && qty > Executable(r, k))
  }

  /** The order is gone and not for having traded what was asked. */
  predicate Lost(st: State, t: State, id: nat, qty: nat) {
    id !in t.live && (qty == 0 || TradedQty(t.tape) < TradedQty(st.tape) + qty)
  }

  lemma ReentryLosesIff(st: State, id: nat, price: int, qty: nat)
    requires Valid(st) && id in st.live && !st.live[id].shelf.stop && st.InBand(price) && qty > 0
    ensures var r, k := Remove(st, id), ReplaceTaker(st, id, price);
      Lost(st, CancelReplace(st, id, price, qty), id, qty) <==> !st.halted && Walled(r, k) && qty > Executable(r, k)
  {
    hide State.ListedAt, StopsInBand, Match, Remove, TradedQty, Executable, Walled, Rest;
    RemoveValid(st, id);
    ReplaceNews(st, id, price, qty);
    var a, k, side := Reentered(st, id, price, qty), ReplaceTaker(st, id, price), st.live[id].shelf.side;
    var o := OrderOf(st, id);
    SilentTape(st.tape, Cancelled(id), Accepted(id, side, price, qty));
    if a.halted {
      RestsLive(a, id, side, st.Tick(price), qty, Terms(o.owner, o.stp, o.peak));
    } else {
      SameBookReach(Remove(st, id), a, k);
      ReentryIndexed(st, id, price, qty);
      MatchReaches(a, k, qty);
      MatchConservesTaker(a, k, qty);
      MatchSteady(a, k, qty);
      var m := Match(a, k, qty);
      TradedQtyPush(m.st.tape, Cancelled(id));
      if m.left > 0 && !m.halt { RestsLive(m.st, id, side, st.Tick(price), m.left, Terms(o.owner, o.stp, o.peak)); }
    }
  }

  lemma RestsLive(st: State, id: nat, side: Side, tick: nat, qty: nat, t: Terms)
    requires tick < |st.Get(Resting(side))| && qty > 0
    ensures id in Rest(st, id, side, tick, qty, t).live
  {}

  /** A modify the engine takes loses the order exactly when it dies in the replace. */
  lemma ReplaceLosesIff(st: State, id: nat, price: int, qty: nat)
    requires Valid(st) && id in st.live && DoModify(st, id, price, qty).reply == Answer(true)
    ensures Lost(st, DoModify(st, id, price, qty).st, id, qty) <==> DiesInReplace(st, id, price, qty)
  {
    hide State.ListedAt, StopsInBand, CancelReplace, Remove, TradedQty, Executable, Walled;
    RemoveValid(st, id);
    if qty > 0 && Reenters(st, id, price, qty) { ReentryLosesIff(st, id, price, qty); }
  }

  // ---- no stop is ever pending in a session's engine -------------------

  lemma PlaceNoStops(st: State, id: nat, side: Side, tick: nat, qty: nat, tif: TimeInForce, t: Terms)
    requires st.Indexed() && NoStops(st) && tick < st.width && qty > 0
    ensures NoStops(PlaceLimit(st, id, side, tick, qty, tif, t))
  {
    hide State.ListedAt, Match;
    MatchFrame(st, AsTaker(id, side, tick, t), qty);
  }

  lemma DoNoStops(st: State, op: Op)
    requires Valid(st) && NoStops(st) && (op.SubmitLimit? || op.SubmitIceberg? || op.Cancel? || op.Modify?)
    ensures NoStops(Do(st, op).st)
  {
    hide State.ListedAt, StopsInBand, PlaceLimit, Remove;
    match op {
      case SubmitLimit(side, price, qty, tif, owner, stp) =>
        if st.InBand(price) && qty > 0 { EnterNoStops(st, side, price, qty, tif, Terms(owner, stp, 0)); }
      case SubmitIceberg(side, price, qty, display, tif, owner, stp) =>
        if st.InBand(price) && qty > 0 { EnterNoStops(st, side, price, qty, tif, Terms(owner, stp, display)); }
      case Cancel(id) => if id in st.live { RemoveValid(st, id); }
      case Modify(id, price, qty) => if id in st.live { ModifyNoStops(st, id, price, qty); }
    }
  }

  lemma EnterNoStops(st: State, side: Side, price: int, qty: nat, tif: TimeInForce, t: Terms)
    requires Valid(st) && NoStops(st) && st.InBand(price) && qty > 0
    ensures NoStops(Enter(st, side, price, qty, tif, t).st)
  {
    hide State.ListedAt, StopsInBand, PlaceLimit;
    AcceptSteady(st, side, price, qty);
    PlaceNoStops(Accept(st, side, price, qty), st.nextId, side, st.Tick(price), qty, tif, t);
  }

  lemma ModifyNoStops(st: State, id: nat, price: int, qty: nat)
    requires Valid(st) && NoStops(st) && id in st.live
    ensures NoStops(DoModify(st, id, price, qty).st)
  {
    hide State.ListedAt, StopsInBand, PlaceLimit, Remove;
    RemoveValid(st, id);
    if st.InBand(price) && qty > 0 {
      var o := OrderOf(st, id);
      ReentryIndexed(st, id, price, qty);
      PlaceNoStops(Reentered(st, id, price, qty), id, st.live[id].shelf.side, st.Tick(price), qty, GTC,
        Terms(o.owner, o.stp, o.peak));
    }
  }

  lemma StepNoStops(st: State, op: Op)
    requires Valid(st) && NoStops(st) && (op.SubmitLimit? || op.SubmitIceberg? || op.Cancel? || op.Modify?)
    ensures Step(st, op) == Do(st, op) && NoStops(Step(st, op).st)
  {
    hide State.ListedAt, StopsInBand, Do, Pump;
    DoNoStops(st, op);
    DoValid(st, op);
    NoStopsQuiet(Do(st, op).st);
  }

  lemma {:induction false} SessionNoStops(g: Session, st: State, ms: seq<InMsg>)
    requires Inv(g, st) && NoStops(st)
    ensures NoStops(RunSession(g, st, ms).st)
    decreases |ms|
  {
    hide Inv, Step, Valid, Hear;
    if ms != [] {
      InvValid(g, st);
      MessageServes(g, st, ms[0]);
      match ms[0] {
        case EnterMsg(_, _, _, _, _, _, _, _) => StepNoStops(st, OpOfEnter(ms[0]));
        case CancelMsg(t) => if t in g.byToken { StepNoStops(st, Cancel(g.byToken[t])); }
        case ReplaceMsg(t, _, qty, price) => if t in g.byToken { StepNoStops(st, Modify(g.byToken[t], price, qty)); }
      }
      var r := OnMessage(g, st, ms[0]);
      SessionNoStops(r.session, r.st, ms[1..]);
    }
  }

  // ---- the session's side ---------------------------------------------

  /** No cancellation under token `t` from position `from` on. */
  predicate Spares(out: seq<OutMsg>, from: nat, t: Token) {
    forall i :: from <= i < |out| ==> !(out[i].OCanceled? && out[i].token == t)
  }

  /** During a replace no cancellation is reported under a token held by nobody else. */
  lemma {:induction false} FoldsCancels(g: Session, es: seq<Event>, t: Token)
    requires g.mode.Replacing? && forall e :: e in es ==> Known(g, e)
    requires forall id :: id in g.tokenOf && id != g.replacing ==> g.tokenOf[id] != t
    ensures Spares(OnEvents(g, es).out, |g.out|, t)
    decreases |es|
  {
    hide Known;
    if es != [] {
      var k := OnEvent(g, es[0]);
      FoldsOne(g, es[0], t);
      forall e | e in es[1..] ensures Known(k, e) { SameKnown(g, k, e); }
      FoldsCancels(k, es[1..], t);
      assert forall i :: 0 <= i < |k.out| ==> OnEvents(g, es).out[i] == k.out[i];
    }
  }

  lemma FoldsOne(g: Session, e: Event, t: Token)
    requires g.mode.Replacing? && Known(g, e)
    requires forall id :: id in g.tokenOf && id != g.replacing ==> g.tokenOf[id] != t
    ensures var h := OnEvent(g, e);
      && h.tokenOf == g.tokenOf && h.mode == g.mode && h.replacing == g.replacing
      && Spares(h.out, |g.out|, t)
  {}

  /** An accepted replace never reports its own order cancelled, and yet the order is lost
      exactly when the replace asks for nothing or its re-entry runs into its owner's own
      orders: the client hears `Replaced` for a dead order. */
  lemma ReplacedButDeadIff(g: Session, st: State, m: InMsg)
    requires Inv(g, st) && NoStops(st) && m.ReplaceMsg?
    requires m.token in g.byToken && g.byToken[m.token] != 0 && m.newToken !in g.byToken
    requires Step(st, Modify(g.byToken[m.token], m.price, m.qty)).reply == Answer(true)
    ensures g.byToken[m.token] in st.live
    ensures var r, id := HandleReplace(g, st, m), g.byToken[m.token];
      && |g.out| < |r.session.out| && r.session.out[|g.out|] == OReplaced(m.token, m.newToken, id, m.qty, m.price)
      && Spares(r.session.out, |g.out|, m.newToken)
      && (Lost(st, r.st, id, m.qty) <==> DiesInReplace(st, id, m.price, m.qty))
  {
    hide State.ListedAt, StopsInBand, Quiet, Lost, DiesInReplace, DoModify, Named, Tells;
    var id := g.byToken[m.token];
    var op := Modify(id, m.price, m.qty);
    RefusedUnlessLive(st, id, m.price, m.qty);
    StepNoStops(st, op);
    ReplaceLosesIff(st, id, m.price, m.qty);
    ReplaceServes(g, st, m);
    NeverCanceled(g, st, m);
  }

  lemma RefusedUnlessLive(st: State, id: nat, price: int, qty: nat)
    requires Valid(st)
    ensures DoModify(st, id, price, qty).reply == Answer(true) ==> id in st.live
    ensures Step(st, Modify(id, price, qty)).reply == DoModify(st, id, price, qty).reply
  {}

  lemma NeverCanceled(g: Session, st: State, m: InMsg)
    requires Inv(g, st) && m.ReplaceMsg?
    requires m.token in g.byToken && g.byToken[m.token] != 0 && m.newToken !in g.byToken
    requires Step(st, Modify(g.byToken[m.token], m.price, m.qty)).reply == Answer(true)
    ensures Spares(HandleReplace(g, st, m).session.out, |g.out|, m.newToken)
  {
    hide State.ListedAt, StopsInBand, Quiet, Step, Known, Dated, Spares;
    var id := g.byToken[m.token];
    var op, g1 := Modify(id, m.price, m.qty), BeginReplace(g, id, m);
    NameIs(g, st.nextId, m.token);
    ModifyNews(st, id, m.price, m.qty);
    StepValid(st, op);
    var t := Step(st, op).st;
    RenamedKnows(g, g1, st, t, id, m.newToken);
    FoldsCancels(g1, News(st, t), m.newToken);
    SparesAck(OnEvents(g1, News(st, t)).out, |g.out|, OReplaced(m.token, m.newToken, id, m.qty, m.price), m.newToken);
  }

  lemma SparesAck(out: seq<OutMsg>, pos: nat, ack: OutMsg, t: Token)
    requires pos <= |out| && Spares(out, pos, t) && !ack.OCanceled?
    ensures Spares(out[..pos] + [ack] + out[pos..], pos, t)
  {
    var said := out[..pos] + [ack] + out[pos..];
    assert forall i :: pos < i < |said| ==> said[i] == out[i - 1];
  }

  // ---- both causes are reachable ---------------------------------------

  /** A plain limit that cannot match is accepted, rests, and binds its token. */
  lemma RestingEntryHeard(g: Session, st: State, m: InMsg)
    requires Inv(g, st) && m.EnterMsg? && m.display == 0 && m.tif.GTC? && st.InBand(m.price) && m.qty > 0
    requires m.token !in g.byToken && !st.halted && !WouldCross(st, m.side, st.Tick(m.price))
    ensures var r, id := HandleEnter(g, st, m), st.nextId;
      && r.st == Rest(Accept(st, m.side, m.price, m.qty), id, m.side, st.Tick(m.price), m.qty, Terms(m.owner, m.stp, 0))
      && r.session.byToken == g.byToken[m.token := id]
  {
    hide State.ListedAt, StopsInBand, Step, Hear, Rest, Bound;
    EntryRests(st, m.side, st.Tick(m.price), m.qty, m.owner, m.stp);
    EntryStep(st, m);
    BoundIsKeyed(g, st.nextId);
    HearEntry(BeginEnter(g, m), st, m);
  }

  /** The client is told `Replaced`, and then nothing of an order that is dead. */
  ghost predicate HeardAlive(g: Session, st: State, m: InMsg)
    requires Valid(st) && m.ReplaceMsg? && m.token in g.byToken
  {
    var r, id := HandleReplace(g, st, m), g.byToken[m.token];
    && |g.out| < |r.session.out| && r.session.out[|g.out|] == OReplaced(m.token, m.newToken, id, m.qty, m.price)
    && Spares(r.session.out, |g.out|, m.newToken) && id !in r.st.live
  }

  const A: Token := [65]
  const B: Token := [66]
  const C: Token := [67]

  /** A bid of 5 by owner 7 at the lower of two ticks, an offer of owner 7 at the upper. */
  ghost predicate OwnAcross(st: State) {
    && Valid(st) && NoStops(st) && !st.halted && st.min == 0 && st.width == 2
    && |st.Get(Resting(Buy))[0]| == 1 && st.Get(Resting(Buy))[0][0] == Node(2, 5, 7, CancelTaker, 0, 0, false, 0)
    && |st.Get(Resting(Sell))[1]| == 1 && st.Get(Resting(Sell))[1][0].owner == 7 && st.Get(Resting(Sell))[0] == []
  }

  lemma OwnAcrossDies(st: State)
    requires OwnAcross(st)
    ensures 2 in st.live && DiesInReplace(st, 2, 1, 5) && DoModify(st, 2, 1, 5).reply == Answer(true)
  {
    hide State.ListedAt, StopsInBand, CancelReplace;
    Locate(st, Resting(Buy), 0, 0);
    var r, k := Remove(st, 2), ReplaceTaker(st, 2, 1);
    var l := r.Get(k.Shelf());
    assert l == st.Get(Resting(Sell));
    assert Depth(k, 2) == 2 && TickAt(Sell, 2, 0) == 0 && TickAt(Sell, 2, 1) == 1;
    assert Blocked(l[1], k) && ShownAhead(l[1], k) == 0;
    assert !Blocked(l[0], k) && QueueReach(l[0], k) == 0;
    assert ReachFrom(l, k, 1, 2) == 0 && WalledFrom(l, k, 1, 2);
  }

  lemma OwnAcrossHeard(g: Session, st: State)
    requires Inv(g, st) && OwnAcross(st) && B in g.byToken && g.byToken[B] == 2 && C !in g.byToken
    ensures HeardAlive(g, st, ReplaceMsg(B, C, 5, 1))
  {
    hide State.ListedAt, StopsInBand, Quiet, Bound, DiesInReplace, DoModify, HandleReplace, Spares;
    OwnAcrossDies(st);
    RefusedUnlessLive(st, 2, 1, 5);
    ReplacedButDeadIff(g, st, ReplaceMsg(B, C, 5, 1));
  }

  lemma RunOne(g: Session, st: State, m: InMsg, ms: seq<InMsg>)
    requires Inv(g, st)
    ensures var r := OnMessage(g, st, m);
      Inv(r.session, r.st) && RunSession(g, st, [m] + ms) == RunSession(r.session, r.st, ms)
  {
    hide OnMessage, Inv;
    InvValid(g, st);
    MessageServes(g, st, m);
    assert ([m] + ms)[1..] == ms;
  }

  const OFFER := EnterMsg(A, Sell, 5, 1, GTC, 0, 7, CancelTaker)
  const BID := EnterMsg(B, Buy, 5, 0, GTC, 0, 7, CancelTaker)

  /** On a fresh two-tick venue, the offer and the bid both rest. */
  lemma OwnAcrossReached() returns (r: Served)
    ensures Inv(NEW_SESSION, Fresh(0, 2)) && r == RunSession(NEW_SESSION, Fresh(0, 2), [OFFER, BID])
    ensures Inv(r.session, r.st) && OwnAcross(r.st) && B in r.session.byToken && r.session.byToken[B] == 2
    ensures C !in r.session.byToken
  {
    hide State.ListedAt, StopsInBand, Inv, HandleEnter, Rest;
    NewSessionInv(0, 2);
    var st := Fresh(0, 2);
    InvValid(NEW_SESSION, st);
    RestingEntryHeard(NEW_SESSION, st, OFFER);
    RestBook(Accept(st, Sell, 1, 5), 1, Sell, 1, 5, Terms(7, CancelTaker, 0));
    RunOne(NEW_SESSION, st, OFFER, [BID]);
    var r1 := OnMessage(NEW_SESSION, st, OFFER);
    InvValid(r1.session, r1.st);
    RestingEntryHeard(r1.session, r1.st, BID);
    RestBook(Accept(r1.st, Buy, 0, 5), 2, Buy, 0, 5, Terms(7, CancelTaker, 0));
    RunOne(r1.session, r1.st, BID, []);
    r := OnMessage(r1.session, r1.st, BID);
    assert [OFFER] + [BID] == [OFFER, BID] && [BID] + [] == [BID];
    InvValid(r.session, r.st);
    SessionNoStops(NEW_SESSION, st, [OFFER, BID]);
    assert st.Get(Resting(Sell)) == [[], []] && st.Get(Resting(Buy)) == [[], []];
  }

  /** A session on a fresh venue replaces its bid up into its own offer: it hears
      `Replaced`, and the order is dead. */
  lemma OwnOfferKillsQuietly()
    ensures Inv(NEW_SESSION, Fresh(0, 2))
    ensures var r := RunSession(NEW_SESSION, Fresh(0, 2), [OFFER, BID]);
      Valid(r.st) && B in r.session.byToken && HeardAlive(r.session, r.st, ReplaceMsg(B, C, 5, 1))
  {
    hide OwnAcross, HeardAlive, Inv, RunSession;
    var r := OwnAcrossReached();
    InvValid(r.session, r.st);
    OwnAcrossHeard(r.session, r.st);
  }

  /** The same session replaces its bid down to nothing instead. */
  lemma ZeroQtyKillsQuietly()
    ensures Inv(NEW_SESSION, Fresh(0, 2))
    ensures var r := RunSession(NEW_SESSION, Fresh(0, 2), [OFFER, BID]);
      Valid(r.st) && B in r.session.byToken && HeardAlive(r.session, r.st, ReplaceMsg(B, C, 0, 0))
  {
    hide HeardAlive, Inv, RunSession;
    var r := OwnAcrossReached();
    InvValid(r.session, r.st);
    ZeroHeard(r.session, r.st);
  }

  lemma ZeroHeard(g: Session, st: State)
    requires Inv(g, st) && OwnAcross(st) && B in g.byToken && g.byToken[B] == 2 && C !in g.byToken
    ensures HeardAlive(g, st, ReplaceMsg(B, C, 0, 0))
  {
    hide State.ListedAt, StopsInBand, Quiet, Bound, HandleReplace, Spares;
    Locate(st, Resting(Buy), 0, 0);
    RefusedUnlessLive(st, 2, 0, 0);
    ReplacedButDeadIff(g, st, ReplaceMsg(B, C, 0, 0));
  }
}
