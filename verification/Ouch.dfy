/** The order-entry session: single-use tokens, and what each message is answered with. */
module Ouch {
  import opened Types
  import opened Ladders
  import opened Book
  import opened Matching
  import opened Engine
  import opened Safety

  /** A token as the session keys it: the C string in the 14-byte field. */
  type Token = seq<nat>

  datatype InMsg =
    | EnterMsg(token: Token, side: Side, qty: nat, price: int, tif: TimeInForce, display: nat, owner: nat,
      stp: StpPolicy)
    | ReplaceMsg(token: Token, newToken: Token, qty: nat, price: int)
    | CancelMsg(token: Token)

  datatype Reason = UserRequested | KilledOnEntry | SelfTrade | BadToken | Validation

  datatype OutMsg =
    | OAccepted(token: Token, id: nat, side: Side, qty: nat, price: int)
    | OExecuted(token: Token, qty: nat, price: int, match_: nat)
    | OCanceled(token: Token, reason: Reason)
    | OReplaced(token: Token, newToken: Token, id: nat, qty: nat, price: int)
    | ORejected(token: Token, reason: Reason)

  datatype Mode = Idle | Entering | Replacing | Cancelling

  /** `byToken` holds 0 for a token burned by a replace; `tokenOf` the token an id prints under. */
  datatype Session = Session(byToken: map<Token, nat>, tokenOf: map<nat, Token>, out: seq<OutMsg>, matchSeq: nat,
                             mode: Mode, pending: Token, entered: nat, replacing: nat)
  {
    function Say(m: OutMsg): Session { this.(out := out + [m]) }
    function NameOf(id: nat): Token { if id in tokenOf then tokenOf[id] else [] }
  }

  const NEW_SESSION := Session(map[], map[], [], 0, Idle, [], 0, 0)

  // ---- engine events --------------------------------------------------

  /** A cancellation outside a replace of its own order, and why. */
  function WhyCancelled(g: Session, id: nat): Reason {
    if g.mode.Cancelling? then UserRequested
    else if g.mode.Entering? && id == g.entered then KilledOnEntry
    else SelfTrade
  }

  function OnEvent(g: Session, e: Event): (h: Session)
    ensures g.out <= h.out
  {
    match e
    case Accepted(id, side, price, qty) =>
      if !g.mode.Entering? then g
      else g.(entered := id, tokenOf := g.tokenOf[id := g.pending]).Say(OAccepted(g.pending, id, side, qty, price))
    case Traded(taker, maker, price, qty, _) =>
      var n := g.matchSeq + 1;
      g.(matchSeq := n).Say(OExecuted(g.NameOf(taker), qty, price, n)).Say(OExecuted(g.NameOf(maker), qty, price, n))
    case Cancelled(id) =>
      if g.mode.Replacing? && id == g.replacing then g else g.Say(OCanceled(g.NameOf(id), WhyCancelled(g, id)))
    case Rejected(_) =>
      if !g.mode.Entering? then g else g.Say(ORejected(g.pending, Validation))
    case Rested(_, _, _, _) => g
  }

  function OnEvents(g: Session, es: seq<Event>): (h: Session)
    ensures g.out <= h.out
    decreases |es|
  {
    if es == [] then g else OnEvents(OnEvent(g, es[0]), es[1..])
  }

  // ---- inbound messages -----------------------------------------------

  function OpOfEnter(m: InMsg): Op
    requires m.EnterMsg?
  {
    if m.display != 0 && m.display < m.qty
    then SubmitIceberg(m.side, m.price, m.qty, m.display, m.tif, m.owner, m.stp)
    else SubmitLimit(m.side, m.price, m.qty, m.tif, m.owner, m.stp)
  }

  datatype Served = Served(session: Session, st: State)

  /** The session after an engine call's events. */
  function Hear(g: Session, st: State, op: Op): (h: Session)
    requires Valid(st)
    ensures g.out <= h.out
  {
    StepValid(st, op);
    OnEvents(g, News(st, Step(st, op).st))
  }

  /** A fresh token goes to the engine. */
  function BeginEnter(g: Session, m: InMsg): Session
    requires m.EnterMsg?
  {
    g.(mode := Entering, pending := m.token, entered := 0)
  }

  /** An accepted entry binds its token. */
  function EndEnter(h: Session, m: InMsg, reply: Reply): Session
    requires m.EnterMsg?
  {
    if reply.Assigned? && reply.id != 0 then h.(mode := Idle, byToken := h.byToken[m.token := reply.id])
      else h.(mode := Idle)
  }

  function HandleEnter(g: Session, st: State, m: InMsg): Served
    requires Valid(st) && m.EnterMsg?
  {
    if m.token in g.byToken then Served(g.Say(ORejected(m.token, BadToken)), st)
    else
      var r := Step(st, OpOfEnter(m));
      Served(EndEnter(Hear(BeginEnter(g, m), st, OpOfEnter(m)), m, r.reply), r.st)
  }

  function HandleCancel(g: Session, st: State, m: InMsg): Served
    requires Valid(st) && m.CancelMsg?
  {
    if m.token !in g.byToken || g.byToken[m.token] == 0 then Served(g.Say(ORejected(m.token, BadToken)), st)
    else
      var op := Cancel(g.byToken[m.token]);
      var r := Step(st, op);
      var h := Hear(g.(mode := Cancelling), st, op).(mode := Idle);
      Served(if r.reply == Answer(true) then h else h.Say(ORejected(m.token, BadToken)), r.st)
  }

  /** The new token is bound to the id up front, so re-entry executions print under it. */
  function BeginReplace(g: Session, id: nat, m: InMsg): Session
    requires m.ReplaceMsg?
  {
    g.(tokenOf := g.tokenOf[id := m.newToken], mode := Replacing, replacing := id)
  }

  /** The old token dies, the new one is bound, and the ack is inserted at `pos`, where
      the queue ended before the engine call. */
  function Acknowledge(h: Session, pos: nat, id: nat, old_: Token, m: InMsg): Session
    requires m.ReplaceMsg? && pos <= |h.out|
  {
    h.(mode := Idle, byToken := h.byToken[m.token := 0][m.newToken := id],
       out := h.out[..pos] + [OReplaced(old_, m.newToken, id, m.qty, m.price)] + h.out[pos..])
  }

  /** Nothing happened: the id prints under its old token again. */
  function Restore(h: Session, id: nat, old_: Token, m: InMsg): Session
    requires m.ReplaceMsg?
  {
    h.(mode := Idle, tokenOf := h.tokenOf[id := old_]).Say(ORejected(m.newToken, Validation))
  }

  function HandleReplace(g: Session, st: State, m: InMsg): Served
    requires Valid(st) && m.ReplaceMsg?
  {
    if m.token !in g.byToken || g.byToken[m.token] == 0 || m.newToken in g.byToken
    then Served(g.Say(ORejected(m.newToken, BadToken)), st)
    else
      var id := g.byToken[m.token];
      var old_ := g.NameOf(id);
      var op := Modify(id, m.price, m.qty);
      var r := Step(st, op);
      var h := Hear(BeginReplace(g, id, m), st, op);
      Served(if r.reply == Answer(true) then Acknowledge(h, |g.out|, id, old_, m) else Restore(h, id, old_, m), r.st)
  }

  function OnMessage(g: Session, st: State, m: InMsg): Served
    requires Valid(st)
  {
    match m
    case EnterMsg(_, _, _, _, _, _, _, _) => HandleEnter(g, st, m)
    case CancelMsg(_) => HandleCancel(g, st, m)
    case ReplaceMsg(_, _, _, _) => HandleReplace(g, st, m)
  }

  // ---- what the engine emits ------------------------------------------

  /** Every id it names has been given out before `n`. */
  predicate Dated(e: Event, n: nat) {
    match e
    case Traded(taker, maker, _, _, _) => 0 < taker < n && 0 < maker < n
    case Cancelled(id) => 0 < id < n
    case _ => true
  }

  /** Neither an acceptance nor a rejection, and about known orders. */
  predicate Plain(e: Event, n: nat) { !e.Accepted? && !e.Rejected? && Dated(e, n) }

  ghost predicate AddsPlain(a: State, t: State) {
    a.tape <= t.tape && t.nextId == a.nextId && forall i :: |a.tape| <= i < |t.tape| ==> Plain(t.tape[i], a.nextId)
  }

  lemma PlainTrans(a: State, m: State, t: State)
    requires AddsPlain(a, m) && AddsPlain(m, t)
    ensures AddsPlain(a, t)
  {}

  lemma TurnPlain(st: State, k: Taker, qty: nat)
    requires st.Indexed() && 0 < k.id < st.nextId
    ensures AddsPlain(st, TakeTurn(st, k, qty).st)
  {
    hide State.ListedAt;
    var b := Best(k.Against(), st.Get(k.Shelf()));
    if b >= 0 { Locate(st, k.Shelf(), b, 0); }
  }

  lemma {:induction false} MatchPlain(st: State, k: Taker, qty: nat)
    requires st.Indexed() && 0 < k.id < st.nextId
    ensures AddsPlain(st, Match(st, k, qty).st)
    decreases qty, Count(st.Get(k.Shelf()))
  {
    hide State.ListedAt, TakeTurn, Plain;
    TurnPlain(st, k, qty);
    TurnFrame(st, k, qty);
    var r := TakeTurn(st, k, qty);
    if r.Go? {
      MatchPlain(r.st, k, r.left);
      PlainTrans(st, r.st, Match(st, k, qty).st);
    }
  }

  lemma PlacePlain(st: State, id: nat, side: Side, tick: nat, qty: nat, tif: TimeInForce, t: Terms)
    requires st.Indexed() && tick < st.width && qty > 0 && 0 < id < st.nextId
    ensures AddsPlain(st, PlaceLimit(st, id, side, tick, qty, tif, t))
  {
    hide State.ListedAt, State.Bounded, Match;
    var k := AsTaker(id, side, tick, t);
    MatchPlain(st, k, qty);
    MatchFrame(st, k, qty);
  }

  lemma ExecutePlain(st: State, side: Side, o: Node)
    requires st.Indexed() && o.qty > 0 && (o.market || st.InBand(o.limit)) && 0 < o.id < st.nextId
    ensures AddsPlain(st, ExecuteStop(st, side, o))
  {
    hide State.ListedAt, State.Bounded, Match, PlaceLimit;
    var t := Terms(o.owner, o.stp, 0);
    if o.market {
      MatchPlain(st, Sweeping(st, o.id, side, t), o.qty);
    } else {
      PlacePlain(st, o.id, side, st.Tick(o.limit), o.qty, GTC, t);
    }
  }

  lemma {:induction false} PumpPlain(st: State)
    requires Valid(st)
    ensures AddsPlain(st, Pump(st))
    decreases PendingStops(st)
  {
    hide State.ListedAt, StopsInBand, ExecuteStop, AddsPlain;
    PlainSelf(st);
    if !st.halted && NextStop(st).Some? {
      var p := NextStop(st).value;
      FireStopFrame(st, p);
      Locate(st, p.shelf, p.tick, 0);
      LeaveIndexed(st, p.shelf, p.tick, 0);
      var l := Leave(st, p.shelf, p.tick, 0);
      ExecutePlain(l, p.shelf.side, st.Get(p.shelf)[p.tick][0]);
      PlainFrom(st, l, FireStop(st, p));
      PumpPlain(FireStop(st, p));
      PlainTrans(st, FireStop(st, p), Pump(st));
    }
  }

  lemma PlainSelf(st: State)
    ensures AddsPlain(st, st)
  {}

  lemma PlainFrom(a: State, l: State, t: State)
    requires l.tape == a.tape && l.nextId == a.nextId && AddsPlain(l, t)
    ensures AddsPlain(a, t)
  {}

  /** An entry is first accepted under the next id, or rejected; nothing later accepts or rejects. */
  ghost predicate EntryNews(st: State, t: State, accepted: bool, side: Side, price: int, qty: nat) {
    && |st.tape| < |t.tape| && st.tape <= t.tape
    && t.tape[|st.tape|] == (if accepted then Accepted(st.nextId, side, price, qty) else Rejected(0))
    && forall i :: |st.tape| < i < |t.tape| ==> Plain(t.tape[i], t.nextId)
  }

  lemma EnterNews(st: State, side: Side, price: int, qty: nat, tif: TimeInForce, t: Terms)
    requires Valid(st) && st.InBand(price) && qty > 0
    ensures EntryNews(st, Enter(st, side, price, qty, tif, t).st, true, side, price, qty)
  {
    hide State.ListedAt, StopsInBand, PlaceLimit;
    AcceptSteady(st, side, price, qty);
    PlacePlain(Accept(st, side, price, qty), st.nextId, side, st.Tick(price), qty, tif, t);
  }

  lemma EntryNewsPumped(st: State, m: State, t: State, accepted: bool, side: Side, price: int, qty: nat)
    requires EntryNews(st, m, accepted, side, price, qty) && AddsPlain(m, t)
    ensures EntryNews(st, t, accepted, side, price, qty)
  {}

  lemma EntryStep(st: State, m: InMsg)
    requires Valid(st) && m.EnterMsg?
    ensures var r := Step(st, OpOfEnter(m));
      && r.reply.Assigned? && (r.reply.id == 0 || r.reply.id == st.nextId) && st.nextId > 0
      && EntryNews(st, r.st, r.reply.id != 0, m.side, m.price, m.qty)
      && r.st.nextId == st.nextId + (if r.reply.id != 0 then 1 else 0)
  {
    hide State.ListedAt, StopsInBand, Enter, EntryNews, Pump;
    var op := OpOfEnter(m);
    DoValid(st, op);
    PumpPlain(Do(st, op).st);
    PumpSettles(Do(st, op).st);
    var display := if op.SubmitIceberg? then m.display else 0;
    if st.InBand(m.price) && m.qty > 0 {
      EnterNews(st, m.side, m.price, m.qty, m.tif, Terms(m.owner, m.stp, display));
      EnterNextId(st, m.side, m.price, m.qty, m.tif, Terms(m.owner, m.stp, display));
      EntryNewsPumped(st, Do(st, op).st, Pump(Do(st, op).st), true, m.side, m.price, m.qty);
    } else {
      RejectNews(st, m.side, m.price, m.qty);
      EntryNewsPumped(st, Do(st, op).st, Pump(Do(st, op).st), false, m.side, m.price, m.qty);
    }
  }

  lemma RejectNews(st: State, side: Side, price: int, qty: nat)
    ensures EntryNews(st, Reject(st).st, false, side, price, qty)
  {}

  lemma EnterNextId(st: State, side: Side, price: int, qty: nat, tif: TimeInForce, t: Terms)
    requires Valid(st) && st.InBand(price) && qty > 0
    ensures var r := Enter(st, side, price, qty, tif, t);
      r.reply == Assigned(st.nextId) && st.nextId > 0 && r.st.nextId == st.nextId + 1
  {
    hide State.ListedAt, StopsInBand, PlaceLimit;
    AcceptSteady(st, side, price, qty);
    PlaceSteady(Accept(st, side, price, qty), st.nextId, side, st.Tick(price), qty, tif, t);
  }

  // ---- the session invariant ------------------------------------------

  /** The ids given out so far are those that print under a token. */
  ghost predicate Keyed(g: Session, nextId: nat) { forall id :: id in g.tokenOf <==> 0 < id < nextId }

  /** Every id given out prints under a token, and live tokens and ids are in one-to-one
      correspondence. */
  ghost predicate Bound(g: Session, nextId: nat) {
    && Keyed(g, nextId)
    && (forall id :: id in g.tokenOf ==> g.tokenOf[id] in g.byToken && g.byToken[g.tokenOf[id]] == id)
    && (forall t :: t in g.byToken && g.byToken[t] != 0 ==>
          g.byToken[t] in g.tokenOf && g.tokenOf[g.byToken[t]] == t)
  }

  ghost predicate Inv(g: Session, st: State) {
    Valid(st) && Quiet(st) && g.mode.Idle? && Bound(g, st.nextId)
  }

  lemma NewSessionInv(min: int, width: nat)
    requires width > 0
    ensures Inv(NEW_SESSION, Fresh(min, width))
  {
    FreshIsSafe(min, width);
  }

  /** The token a message tells the client about, when it is good news of that token. */
  function Spoken(m: OutMsg): Option<Token> {
    match m
    case OAccepted(token, _, _, _, _) => Some(token)
    case OExecuted(token, _, _, _) => Some(token)
    case OCanceled(token, _) => Some(token)
    case OReplaced(_, newToken, _, _, _) => Some(newToken)
    case ORejected(_, _) => None
  }

  /** An execution or cancellation under the token of an id of `g`. */
  predicate Named(g: Session, m: OutMsg) {
    (m.OExecuted? || m.OCanceled?) && exists id :: id in g.tokenOf && g.tokenOf[id] == m.token
  }

  /** Every order the event names prints under a token. */
  predicate Known(g: Session, e: Event) {
    match e
    case Traded(taker, maker, _, _, _) => taker in g.tokenOf && maker in g.tokenOf
    case Cancelled(id) => id in g.tokenOf
    case _ => true
  }

  lemma DatedIsKnown(g: Session, nextId: nat, e: Event)
    requires Keyed(g, nextId) && Dated(e, nextId)
    ensures Known(g, e)
  {}

  /** Events that accept nothing leave the bindings alone and speak of named orders only. */
  lemma {:induction false} EventsKeepBindings(g: Session, es: seq<Event>)
    requires forall e :: e in es ==> Known(g, e) && (g.mode.Entering? ==> !e.Accepted? && !e.Rejected?)
    ensures var h := OnEvents(g, es);
      && h.byToken == g.byToken && h.tokenOf == g.tokenOf && h.mode == g.mode
      && (forall i :: |g.out| <= i < |h.out| ==> Named(g, h.out[i]))
    decreases |es|
  {
    hide Named, Known;
    if es != [] {
      EventNamed(g, es[0]);
      var k := OnEvent(g, es[0]);
      forall e | e in es[1..] ensures Known(k, e) { SameKnown(g, k, e); }
      EventsKeepBindings(k, es[1..]);
      forall i | |g.out| <= i < |OnEvents(g, es).out| ensures Named(g, OnEvents(g, es).out[i]) {
        if i < |k.out| { assert OnEvents(g, es).out[i] == k.out[i]; }
        else { assert Named(k, OnEvents(g, es).out[i]); SameNames(k, g, OnEvents(g, es).out[i]); }
      }
    }
  }

  lemma SameNames(a: Session, b: Session, m: OutMsg)
    requires Named(a, m) && b.tokenOf == a.tokenOf
    ensures Named(b, m)
  {}

  lemma SameKnown(a: Session, b: Session, e: Event)
    requires Known(a, e) && b.tokenOf == a.tokenOf
    ensures Known(b, e)
  {}

  lemma EventNamed(g: Session, e: Event)
    requires Known(g, e) && (g.mode.Entering? ==> !e.Accepted? && !e.Rejected?)
    ensures var h := OnEvent(g, e);
      && h.byToken == g.byToken && h.tokenOf == g.tokenOf && h.mode == g.mode
      && (forall i :: |g.out| <= i < |h.out| ==> Named(g, h.out[i]))
  {}

  // ---- entering -------------------------------------------------------

  /** The first event of an entry is its acceptance or rejection; the rest are plain. */
  lemma HearEntry(g: Session, st: State, m: InMsg)
    requires Valid(st) && m.EnterMsg? && g.mode.Entering? && g.pending == m.token && Keyed(g, st.nextId)
    ensures var id := Step(st, OpOfEnter(m)).reply.id; var h := Hear(g, st, OpOfEnter(m));
      && h.byToken == g.byToken && |h.out| > |g.out|
      && h.tokenOf == (if id != 0 then g.tokenOf[id := m.token] else g.tokenOf)
      && h.out[|g.out|] ==
        (if id != 0 then OAccepted(m.token, id, m.side, m.qty, m.price) else ORejected(m.token, Validation))
      && (forall i :: |g.out| < i < |h.out| ==> Named(h, h.out[i]))
  {
    hide State.ListedAt, StopsInBand, Step, Named, Known, Dated;
    EntryStep(st, m);
    var t := Step(st, OpOfEnter(m)).st;
    StepValid(st, OpOfEnter(m));
    var news := News(st, t);
    assert news[0] == t.tape[|st.tape|];
    var k, h := OnEvent(g, news[0]), Hear(g, st, OpOfEnter(m));
    assert Keyed(k, t.nextId);
    forall e | e in news[1..] ensures Plain(e, t.nextId) && Known(k, e) {
      RestIsPlain(st, t, e);
      DatedIsKnown(k, t.nextId, e);
    }
    EventsKeepBindings(k, news[1..]);
    forall i | |g.out| < i < |h.out| ensures Named(h, h.out[i]) { SameNames(k, h, h.out[i]); }
  }

  lemma RestIsPlain(st: State, t: State, e: Event)
    requires st.tape <= t.tape && |st.tape| < |t.tape| && e in News(st, t)[1..]
    requires forall i :: |st.tape| < i < |t.tape| ==> Plain(t.tape[i], t.nextId)
    ensures Plain(e, t.nextId)
  {
    var i :| 0 <= i < |News(st, t)[1..]| && News(st, t)[1..][i] == e;
    assert t.tape[|st.tape| + 1 + i] == e;
  }

  /** What one message did: the bindings stay one-to-one, burned tokens stay burned, it
      is answered, and it speaks only of tokens bound afterwards, granting at most one. */
  ghost predicate GoodStep(g: Session, st: State, r: Served) {
    && Inv(r.session, r.st) && g.out < r.session.out
    && (forall t :: t in g.byToken ==> t in r.session.byToken)
    && (forall t :: t in g.byToken && g.byToken[t] == 0 ==> r.session.byToken[t] == 0)
    && (forall i :: |g.out| <= i < |r.session.out| ==> Tells(g, r.session, r.session.out[i]))
    && (forall i, j :: |g.out| <= i < j < |r.session.out| ==> !(Grants(r.session.out[i]) && Grants(r.session.out[j])))
  }

  predicate Grants(m: OutMsg) { m.OAccepted? || m.OReplaced? }

  /** A message speaks of a token that is bound afterwards; a grant is of a token not known before. */
  predicate Tells(g: Session, h: Session, m: OutMsg) {
    match Spoken(m)
    case None => true
    case Some(t) =>
      && t in h.byToken && h.byToken[t] != 0
      && (Grants(m) ==> t !in g.byToken)
  }

  lemma NamedTells(g: Session, k: Session, h: Session, nextId: nat, m: OutMsg)
    requires Named(k, m) && k.tokenOf == h.tokenOf && Bound(h, nextId)
    ensures Tells(g, h, m) && !Grants(m)
  {}

  lemma BindFresh(g: Session, h: Session, id: nat, token: Token)
    requires Bound(g, id) && id > 0 && token !in g.byToken
    requires h.byToken == g.byToken[token := id] && h.tokenOf == g.tokenOf[id := token]
    ensures Bound(h, id + 1)
  {}

  lemma EnterServes(g: Session, st: State, m: InMsg)
    requires Inv(g, st) && m.EnterMsg?
    ensures GoodStep(g, st, HandleEnter(g, st, m))
    ensures m.token !in g.byToken ==>
      (m.token in HandleEnter(g, st, m).session.byToken <==> Grants(HandleEnter(g, st, m).session.out[|g.out|]))
  {
    hide State.ListedAt, StopsInBand, Quiet, Step, Hear, Named, Tells, Bound, Valid;
    var r := HandleEnter(g, st, m);
    if m.token in g.byToken {
      assert r.session.out[|g.out|] == ORejected(m.token, BadToken);
      RejectTells(g, r.session, ORejected(m.token, BadToken));
      SameBound(g, r.session, st.nextId);
    } else {
      var g1 := g.(mode := Entering, pending := m.token, entered := 0);
      EntryStep(st, m);
      StepValid(st, OpOfEnter(m));
      BoundIsKeyed(g, st.nextId);
      HearEntry(g1, st, m);
      var h := Hear(g1, st, OpOfEnter(m));
      var id := Step(st, OpOfEnter(m)).reply.id;
      if id != 0 {
        BindFresh(g, r.session, id, m.token);
        GrantTells(g, r.session, h.out[|g.out|]);
      } else {
        SameBound(g, r.session, st.nextId);
        RejectTells(g, r.session, h.out[|g.out|]);
      }
      forall i | |g.out| < i < |h.out| ensures Tells(g, r.session, h.out[i]) && !Grants(h.out[i]) {
        NamedTells(g, h, r.session, r.st.nextId, h.out[i]);
      }
    }
  }

  lemma BoundIsKeyed(g: Session, nextId: nat)
    requires Bound(g, nextId)
    ensures Keyed(g, nextId)
  {}

  lemma SameBound(g: Session, h: Session, nextId: nat)
    requires Bound(g, nextId) && h.byToken == g.byToken && h.tokenOf == g.tokenOf
    ensures Bound(h, nextId)
  {}

  lemma RejectTells(g: Session, h: Session, m: OutMsg)
    requires m.ORejected?
    ensures Tells(g, h, m) && !Grants(m)
  {}

  lemma GrantTells(g: Session, h: Session, m: OutMsg)
    requires Grants(m) && Spoken(m).value !in g.byToken
    requires Spoken(m).value in h.byToken && h.byToken[Spoken(m).value] != 0
    ensures Tells(g, h, m)
  {}

  // ---- cancelling and replacing ---------------------------------------

  /** Everything the handler hears between two states names ids given out by then. */
  ghost predicate AddsDated(a: State, t: State) {
    a.tape <= t.tape && t.nextId == a.nextId && forall e :: e in News(a, t) ==> Dated(e, a.nextId)
  }

  lemma DatedFrom(a: State, first: seq<Event>, l: State, t: State)
    requires l.tape == a.tape + first && l.nextId == a.nextId && AddsPlain(l, t)
    requires forall e :: e in first ==> Dated(e, a.nextId)
    ensures AddsDated(a, t)
  {
    forall e | e in News(a, t) ensures Dated(e, a.nextId) {
      var i :| 0 <= i < |News(a, t)| && News(a, t)[i] == e;
      if i < |first| { assert e == t.tape[|a.tape| + i] == first[i]; } else { assert e == t.tape[|a.tape| + i]; }
    }
  }

  lemma HearsKnown(g: Session, st: State, t: State)
    requires Bound(g, st.nextId) && AddsDated(st, t)
    ensures forall e :: e in News(st, t) ==> Known(g, e)
  {
    hide Known, Dated;
    forall e | e in News(st, t) ensures Known(g, e) { DatedIsKnown(g, st.nextId, e); }
  }

  lemma CancelNews(st: State, id: nat)
    requires Valid(st)
    ensures var r := Step(st, Cancel(id));
      && AddsDated(st, r.st) && r.st.nextId == st.nextId && r.reply.Answer?
      && (r.reply == Answer(true) ==> |st.tape| < |r.st.tape| && r.st.tape[|st.tape|] == Cancelled(id))
  {
    hide State.ListedAt, StopsInBand, Pump, Remove, AddsDated, AddsPlain;
    DoValid(st, Cancel(id));
    var d := Do(st, Cancel(id)).st;
    PumpSettles(d);
    PumpPlain(d);
    if id in st.live { RemoveValid(st, id); }
    DatedFrom(st, if id in st.live then [Cancelled(id)] else [], d, Pump(d));
  }

  lemma CancelServes(g: Session, st: State, m: InMsg)
    requires Inv(g, st) && m.CancelMsg?
    ensures GoodStep(g, st, HandleCancel(g, st, m))
  {
    hide State.ListedAt, StopsInBand, Quiet, Step, Named, Tells, Bound, Valid;
    var r := HandleCancel(g, st, m);
    RejectTells(g, r.session, ORejected(m.token, BadToken));
    if m.token !in g.byToken || g.byToken[m.token] == 0 {
      SameBound(g, r.session, st.nextId);
    } else {
      var id, g1 := g.byToken[m.token], g.(mode := Cancelling);
      CancelNews(st, id);
      StepValid(st, Cancel(id));
      var t := Step(st, Cancel(id)).st;
      var news := News(st, t);
      SameBound(g, g1, st.nextId);
      HearsKnown(g1, st, t);
      EventsKeepBindings(g1, news);
      SameBound(g, r.session, st.nextId);
      var h := OnEvents(g1, news);
      if Step(st, Cancel(id)).reply == Answer(true) { assert news[0] == Cancelled(id); }
      forall i | |g.out| <= i < |h.out| ensures Tells(g, r.session, h.out[i]) && !Grants(h.out[i]) {
        NamedTells(g, h, r.session, r.st.nextId, HeardAt(g1, h, i));
      }
    }
  }

  /** A message heard under `g`'s bindings, as one heard under `h`'s. */
  function HeardAt(g: Session, h: Session, i: nat): (m: OutMsg)
    requires i < |h.out| && Named(g, h.out[i]) && h.tokenOf == g.tokenOf
    ensures Named(h, m) && m == h.out[i]
  {
    h.out[i]
  }

  /** A refused modify says nothing and moves nothing; an accepted one takes no new id. */
  lemma ModifyNews(st: State, id: nat, price: int, qty: nat)
    requires Valid(st) && Quiet(st)
    ensures var r := Step(st, Modify(id, price, qty));
      && AddsDated(st, r.st) && r.st.nextId == st.nextId && r.reply.Answer?
      && (r.reply != Answer(true) ==> r.st == st)
  {
    hide State.ListedAt, StopsInBand, Pump, CancelReplace, Remove, DoReduce, Quiet, AddsPlain, AddsDated;
    var op := Modify(id, price, qty);
    DoValid(st, op);
    var d := Do(st, op).st;
    PumpSettles(d);
    PumpPlain(d);
    PumpNothing(st, st);
    PlainSelf(st);
    if id in st.live {
      RemoveValid(st, id);
      if st.InBand(price) && qty > 0 {
        var o := OrderOf(st, id);
        if qty <= Size(o) { ReduceKeepsIds(st, id, Size(o) - qty); }
        ReplaceNews(st, id, price, qty);
      }
    }
    if d.tape == st.tape {
      DatedFrom(st, [], d, Pump(d));
    } else if qty == 0 {
      DatedFrom(st, [Cancelled(id)], d, Pump(d));
    } else {
      var a := Reentered(st, id, price, qty);
      PlainTrans(a, d, Pump(d));
      DatedFrom(st, [Cancelled(id), Accepted(id, st.live[id].shelf.side, price, qty)], a, Pump(d));
    }
  }

  lemma ReduceKeepsIds(st: State, id: nat, delta: nat)
    requires Valid(st) && id in st.live
    ensures DoReduce(st, id, delta).st.nextId == st.nextId && DoReduce(st, id, delta).st.tape == st.tape
    ensures !st.live[id].shelf.stop ==> DoReduce(st, id, delta).reply == Answer(true)
  {}

  lemma ReplaceNews(st: State, id: nat, price: int, qty: nat)
    requires Valid(st) && id in st.live && st.InBand(price) && qty > 0
    ensures CancelReplace(st, id, price, qty).nextId == st.nextId
    ensures Reentered(st, id, price, qty).nextId == st.nextId
    ensures Reentered(st, id, price, qty).tape ==
      st.tape + [Cancelled(id), Accepted(id, st.live[id].shelf.side, price, qty)]
    ensures AddsPlain(Reentered(st, id, price, qty), CancelReplace(st, id, price, qty))
  {
    hide State.ListedAt, StopsInBand, PlaceLimit, Remove, AddsPlain;
    RemoveValid(st, id);
    var o, side := OrderOf(st, id), st.live[id].shelf.side;
    var r := Remove(st, id);
    TellSteady(r, [Cancelled(id)]);
    TellSteady(r.Emit(Cancelled(id)), [Accepted(id, side, price, qty)]);
    var a := Reentered(st, id, price, qty);
    PlacePlain(a, id, side, st.Tick(price), qty, GTC, Terms(o.owner, o.stp, o.peak));
    PlaceSteady(a, id, side, st.Tick(price), qty, GTC, Terms(o.owner, o.stp, o.peak));
  }

  lemma Rebind(g: Session, h: Session, nextId: nat, old_: Token, new_: Token, id: nat)
    requires Bound(g, nextId) && old_ in g.byToken && g.byToken[old_] == id && id != 0 && new_ !in g.byToken
    requires h.byToken == g.byToken[old_ := 0][new_ := id] && h.tokenOf == g.tokenOf[id := new_]
    ensures Bound(h, nextId)
  {}

  lemma NameIs(g: Session, nextId: nat, token: Token)
    requires Bound(g, nextId) && token in g.byToken && g.byToken[token] != 0
    ensures g.NameOf(g.byToken[token]) == token && g.byToken[token] in g.tokenOf
  {}

  /** A replace that the engine takes is acknowledged first, then come the executions its
      re-entry caused, none of them under the old token; otherwise it is rejected. */
  lemma ReplaceServes(g: Session, st: State, m: InMsg)
    requires Inv(g, st) && m.ReplaceMsg?
    ensures var r := HandleReplace(g, st, m);
      && GoodStep(g, st, r)
      && (var known := m.token in g.byToken && g.byToken[m.token] != 0 && m.newToken !in g.byToken;
          if known && Step(st, Modify(g.byToken[m.token], m.price, m.qty)).reply == Answer(true) then
            && r.session.out[|g.out|] == OReplaced(m.token, m.newToken, g.byToken[m.token], m.qty, m.price)
            && (forall i :: |g.out| < i < |r.session.out| ==>
              r.session.out[i].OExecuted? || r.session.out[i].OCanceled?)
            && (forall i :: |g.out| < i < |r.session.out| ==> Spoken(r.session.out[i]) != Some(m.token))
          else
            r.session.out == g.out + [ORejected(m.newToken, if known then Validation else BadToken)] && r.st == st)
  {
    hide State.ListedAt, StopsInBand, Quiet, Step, Named, Tells, Bound, Valid;
    var r := HandleReplace(g, st, m);
    if m.token !in g.byToken || g.byToken[m.token] == 0 || m.newToken in g.byToken {
      RejectTells(g, r.session, ORejected(m.newToken, BadToken));
      SameBound(g, r.session, st.nextId);
    } else {
      ReplaceKnown(g, st, m);
    }
  }

  lemma ReplaceKnown(g: Session, st: State, m: InMsg)
    requires Inv(g, st) && m.ReplaceMsg?
    requires m.token in g.byToken && g.byToken[m.token] != 0 && m.newToken !in g.byToken
    ensures var r := HandleReplace(g, st, m);
      && GoodStep(g, st, r)
      && (if Step(st, Modify(g.byToken[m.token], m.price, m.qty)).reply == Answer(true) then
            && r.session.out[|g.out|] == OReplaced(m.token, m.newToken, g.byToken[m.token], m.qty, m.price)
            && (forall i :: |g.out| < i < |r.session.out| ==>
              r.session.out[i].OExecuted? || r.session.out[i].OCanceled?)
            && (forall i :: |g.out| < i < |r.session.out| ==> Spoken(r.session.out[i]) != Some(m.token))
          else r.session.out == g.out + [ORejected(m.newToken, Validation)] && r.st == st)
  {
    hide State.ListedAt, StopsInBand, Quiet, Step, Named, Tells, Bound, Valid;
    var r := HandleReplace(g, st, m);
    var id := g.byToken[m.token];
    var op := Modify(id, m.price, m.qty);
    NameIs(g, st.nextId, m.token);
    ModifyNews(st, id, m.price, m.qty);
    StepValid(st, op);
    var g1 := g.(tokenOf := g.tokenOf[id := m.newToken], mode := Replacing, replacing := id);
    var h := OnEvents(g1, News(st, Step(st, op).st));
    RenamedKnows(g, g1, st, Step(st, op).st, id, m.newToken);
    EventsKeepBindings(g1, News(st, Step(st, op).st));
    if Step(st, op).reply == Answer(true) {
      Rebind(g, r.session, st.nextId, m.token, m.newToken, id);
      var ack := OReplaced(m.token, m.newToken, id, m.qty, m.price);
      GrantTells(g, r.session, ack);
      forall i | |g.out| < i < |r.session.out|
        ensures Tells(g, r.session, r.session.out[i]) && !Grants(r.session.out[i])
        ensures r.session.out[i].OExecuted? || r.session.out[i].OCanceled?
        ensures Spoken(r.session.out[i]) != Some(m.token)
      {
        assert r.session.out[i] == h.out[i - 1];
        NamedTells(g, h, r.session, r.st.nextId, HeardAt(g1, h, i - 1));
        NotTheOld(g, r.session, m, r.session.out[i]);
        NamedShape(h, h.out[i - 1]);
      }
    } else {
      NothingHeard(st, g1);
      assert r.session.tokenOf == g.tokenOf;
      SameBound(g, r.session, st.nextId);
      RejectTells(g, r.session, ORejected(m.newToken, Validation));
    }
  }

  lemma RenamedKnows(g: Session, k: Session, st: State, t: State, id: nat, token: Token)
    requires Bound(g, st.nextId) && AddsDated(st, t) && id in g.tokenOf && k.tokenOf == g.tokenOf[id := token]
    ensures forall e :: e in News(st, t) ==> Known(k, e)
  {
    hide Known, Dated;
    forall e | e in News(st, t) ensures Known(k, e) { DatedIsKnown(k, st.nextId, e); }
  }

  lemma NothingHeard(st: State, g: Session)
    ensures OnEvents(g, News(st, st)) == g
  {
    assert News(st, st) == [];
  }

  lemma NamedShape(g: Session, m: OutMsg)
    requires Named(g, m)
    ensures m.OExecuted? || m.OCanceled?
  {}

  lemma NotTheOld(g: Session, h: Session, m: InMsg, said: OutMsg)
    requires m.ReplaceMsg? && m.token in h.byToken && h.byToken[m.token] == 0 && Tells(g, h, said)
    ensures Spoken(said) != Some(m.token)
  {}

  // ---- executions -----------------------------------------------------

  /** One side of a print. */
  datatype Leg = Leg(id: nat, qty: nat, price: int)

  /** Both sides of a print, taker first. */
  function SidesOf(e: Event): seq<Leg> {
    match e
    case Traded(taker, maker, price, qty, _) => [Leg(taker, qty, price), Leg(maker, qty, price)]
    case _ => []
  }

  function Fills(es: seq<Event>): seq<Leg> {
    if es == [] then [] else SidesOf(es[0]) + Fills(es[1..])
  }

  datatype Report = Report(token: Token, qty: nat, price: int)

  /** The executions among the outbound messages. */
  function Reports(out: seq<OutMsg>): seq<Report> {
    if out == [] then []
    else (if out[0].OExecuted? then [Report(out[0].token, out[0].qty, out[0].price)] else []) + Reports(out[1..])
  }

  /** Each fill under the token of its own order. */
  function Under(g: Session, fs: seq<Leg>): seq<Report> {
    if fs == [] then [] else [Report(g.NameOf(fs[0].id), fs[0].qty, fs[0].price)] + Under(g, fs[1..])
  }

  ghost predicate AllNamed(g: Session, fs: seq<Leg>) { forall f :: f in fs ==> f.id in g.tokenOf }

  lemma {:induction false} ReportsAppend(a: seq<OutMsg>, b: seq<OutMsg>)
    ensures Reports(a + b) == Reports(a) + Reports(b)
  {
    if a == [] {
      assert a + b == b;
    } else {
      assert (a + b)[1..] == a[1..] + b;
      ReportsAppend(a[1..], b);
    }
  }

  lemma {:induction false} UnderAppend(g: Session, a: seq<Leg>, b: seq<Leg>)
    ensures Under(g, a + b) == Under(g, a) + Under(g, b)
  {
    if a == [] {
      assert a + b == b;
    } else {
      assert (a + b)[1..] == a[1..] + b;
      UnderAppend(g, a[1..], b);
    }
  }

  lemma {:induction false} UnderSame(g: Session, h: Session, fs: seq<Leg>)
    requires g.tokenOf == h.tokenOf
    ensures Under(g, fs) == Under(h, fs)
  {
    if fs != [] { UnderSame(g, h, fs[1..]); }
  }

  lemma {:induction false} KnownFills(g: Session, es: seq<Event>)
    requires forall e :: e in es ==> Known(g, e)
    ensures AllNamed(g, Fills(es))
  {
    if es != [] {
      assert Known(g, es[0]);
      KnownFills(g, es[1..]);
    }
  }

  lemma PairReports(a: OutMsg, b: OutMsg)
    requires a.OExecuted? && b.OExecuted?
    ensures Reports([a, b]) == [Report(a.token, a.qty, a.price), Report(b.token, b.qty, b.price)]
  {
    assert [a, b][1..] == [b];
    assert Reports([b]) == [Report(b.token, b.qty, b.price)];
  }

  lemma PairUnder(g: Session, a: Leg, b: Leg)
    ensures Under(g, [a, b]) == [Report(g.NameOf(a.id), a.qty, a.price), Report(g.NameOf(b.id), b.qty, b.price)]
  {
    assert [a, b][1..] == [b];
    assert Under(g, [b]) == [Report(g.NameOf(b.id), b.qty, b.price)];
  }

  /** What one event adds to the outbound executions. */
  lemma EventReports(g: Session, e: Event)
    ensures Reports(OnEvent(g, e).out) == Reports(g.out) + Under(g, SidesOf(e))
  {
    var h := OnEvent(g, e);
    var said := h.out[|g.out|..];
    assert h.out == g.out + said;
    ReportsAppend(g.out, said);
    match e {
      case Traded(taker, maker, price, qty, _) =>
        assert said == [h.out[|g.out|], h.out[|g.out| + 1]];
        PairReports(said[0], said[1]);
        PairUnder(g, Leg(taker, qty, price), Leg(maker, qty, price));
      case _ =>
        assert |said| <= 1;
    }
  }

  lemma EventKeepsNames(g: Session, e: Event)
    requires g.mode.Entering? ==> !e.Accepted?
    ensures OnEvent(g, e).tokenOf == g.tokenOf && OnEvent(g, e).mode == g.mode
  {}

  lemma {:induction false} EventsReport(g: Session, es: seq<Event>)
    requires forall e :: e in es ==> g.mode.Entering? ==> !e.Accepted?
    ensures Reports(OnEvents(g, es).out) == Reports(g.out) + Under(g, Fills(es))
    decreases |es|
  {
    hide Reports, OnEvent, SidesOf;
    if es != [] {
      var k := OnEvent(g, es[0]);
      EventKeepsNames(g, es[0]);
      EventReports(g, es[0]);
      EventsReport(k, es[1..]);
      UnderSame(k, g, Fills(es[1..]));
      UnderAppend(g, SidesOf(es[0]), Fills(es[1..]));
      assert Reports(g.out) + Under(g, SidesOf(es[0])) + Under(g, Fills(es[1..]))
        == Reports(g.out) + (Under(g, SidesOf(es[0])) + Under(g, Fills(es[1..])));
    }
  }

  /** The executions sent for one message are the engine's fills, both sides of each and
      in order, every one under the token of its own order. */
  lemma FillsAreReported(g: Session, st: State, m: InMsg)
    requires Inv(g, st)
    ensures var r := OnMessage(g, st, m);
      && st.tape <= r.st.tape && AllNamed(r.session, Fills(News(st, r.st)))
      && Reports(r.session.out) == Reports(g.out) + Under(r.session, Fills(News(st, r.st)))
  {
    hide Step, Hear, Valid, Quiet, Bound, Reports, Under, Fills, AllNamed;
    match m {
      case EnterMsg(token, _, _, _, _, _, _, _) =>
        if token !in g.byToken { EntryReports(g, st, m); }
          else { SilentReports(g, g.Say(ORejected(token, BadToken)), st); }
      case CancelMsg(token) =>
        if token !in g.byToken || g.byToken[token] == 0 {
          SilentReports(g, g.Say(ORejected(token, BadToken)), st);
        } else {
          CancelReports(g, st, m);
        }
      case ReplaceMsg(token, newToken, _, _) =>
        if token !in g.byToken || g.byToken[token] == 0 || newToken in g.byToken {
          SilentReports(g, g.Say(ORejected(newToken, BadToken)), st);
        } else {
          ReplaceReports(g, st, m);
        }
    }
  }

  lemma SilentReports(g: Session, h: Session, st: State)
    requires |h.out| == |g.out| + 1 && h.out[..|g.out|] == g.out && !h.out[|g.out|].OExecuted?
    ensures AllNamed(h, Fills(News(st, st))) && Under(h, Fills(News(st, st))) == [] && Reports(h.out) == Reports(g.out)
  {
    assert News(st, st) == [];
    assert h.out == g.out + [h.out[|g.out|]];
    ReportsAppend(g.out, [h.out[|g.out|]]);
  }

  /** What an entry prints after its first event, under the bindings that event leaves. */
  lemma EntryRest(g: Session, st: State, m: InMsg)
    requires Valid(st) && m.EnterMsg? && g.mode.Entering? && Keyed(g, st.nextId)
    ensures var t := Step(st, OpOfEnter(m)).st;
      && st.tape <= t.tape && News(st, t) != [] && !News(st, t)[0].Traded?
      && var k := OnEvent(g, News(st, t)[0]);
      forall e :: e in News(st, t)[1..] ==> Known(k, e) && !e.Accepted? && !e.Rejected?
  {
    hide State.ListedAt, StopsInBand, Step, Known, Dated;
    EntryStep(st, m);
    var t := Step(st, OpOfEnter(m)).st;
    StepValid(st, OpOfEnter(m));
    var k := OnEvent(g, News(st, t)[0]);
    assert News(st, t)[0] == t.tape[|st.tape|];
    assert Keyed(k, t.nextId);
    forall e | e in News(st, t)[1..] ensures Known(k, e) && !e.Accepted? && !e.Rejected? {
      RestIsPlain(st, t, e);
      DatedIsKnown(k, t.nextId, e);
    }
  }

  lemma EntryReports(g: Session, st: State, m: InMsg)
    requires Inv(g, st) && m.EnterMsg? && m.token !in g.byToken
    ensures var r := HandleEnter(g, st, m);
      && st.tape <= r.st.tape && AllNamed(r.session, Fills(News(st, r.st)))
      && Reports(r.session.out) == Reports(g.out) + Under(r.session, Fills(News(st, r.st)))
  {
    hide Valid, Step, Known, Reports, Under, Named, OnEvent, Safe, Quiet;
    var g1, r := BeginEnter(g, m), HandleEnter(g, st, m);
    EntryRest(g1, st, m);
    StepValid(st, OpOfEnter(m));
    var news := News(st, r.st);
    var k := OnEvent(g1, news[0]);
    EventsKeepBindings(k, news[1..]);
    KnownFills(k, news[1..]);
    EventReports(g1, news[0]);
    NoFills(g1, news[0]);
    EventsReport(k, news[1..]);
    assert Fills(news) == Fills(news[1..]);
    assert r.session.out == OnEvents(k, news[1..]).out;
    UnderSame(k, r.session, Fills(news));
  }

  lemma NoFills(g: Session, e: Event)
    requires !e.Traded?
    ensures SidesOf(e) == [] && Under(g, []) == []
  {}

  lemma CancelReports(g: Session, st: State, m: InMsg)
    requires Inv(g, st) && m.CancelMsg? && m.token in g.byToken && g.byToken[m.token] != 0
    ensures var r := HandleCancel(g, st, m);
      && st.tape <= r.st.tape && AllNamed(r.session, Fills(News(st, r.st)))
      && Reports(r.session.out) == Reports(g.out) + Under(r.session, Fills(News(st, r.st)))
  {
    hide State.ListedAt, StopsInBand, Quiet, Step, Known, Dated, Reports, Under, Fills, Bound;
    var id, g1, r := g.byToken[m.token], g.(mode := Cancelling), HandleCancel(g, st, m);
    StepValid(st, Cancel(id));
    CancelNews(st, id);
    var news := News(st, r.st);
    SameBound(g, g1, st.nextId);
    HearsKnown(g1, st, r.st);
    EventsKeepBindings(g1, news);
    KnownFills(g1, news);
    EventsReport(g1, news);
    UnderSame(g1, r.session, Fills(news));
    var h := OnEvents(g1, news);
    if Step(st, Cancel(id)).reply != Answer(true) { SilentReports(h, h.Say(ORejected(m.token, BadToken)), r.st); }
  }

  lemma ReplaceReports(g: Session, st: State, m: InMsg)
    requires Inv(g, st) && m.ReplaceMsg?
    requires m.token in g.byToken && g.byToken[m.token] != 0 && m.newToken !in g.byToken
    ensures var r := HandleReplace(g, st, m);
      && st.tape <= r.st.tape && AllNamed(r.session, Fills(News(st, r.st)))
      && Reports(r.session.out) == Reports(g.out) + Under(r.session, Fills(News(st, r.st)))
  {
    hide State.ListedAt, StopsInBand, Quiet, Step, Known, Dated, Reports, Under, Fills, Bound;
    var id, r := g.byToken[m.token], HandleReplace(g, st, m);
    var op, g1 := Modify(id, m.price, m.qty), BeginReplace(g, id, m);
    NameIs(g, st.nextId, m.token);
    StepValid(st, op);
    ModifyNews(st, id, m.price, m.qty);
    var news := News(st, r.st);
    var h := OnEvents(g1, news);
    if Step(st, op).reply == Answer(true) {
      RenamedKnows(g, g1, st, r.st, id, m.newToken);
      EventsKeepBindings(g1, news);
      KnownFills(g1, news);
      EventsReport(g1, news);
      UnderSame(g1, r.session, Fills(news));
      AckReports(g, h, OReplaced(m.token, m.newToken, id, m.qty, m.price));
    } else {
      NothingHeard(st, g1);
      SilentReports(g, r.session, st);
    }
  }

  /** An acknowledgement slipped in before the executions leaves them as they were. */
  lemma AckReports(g: Session, h: Session, ack: OutMsg)
    requires g.out <= h.out && !ack.OExecuted?
    ensures Reports(h.out[..|g.out|] + [ack] + h.out[|g.out|..]) == Reports(h.out)
  {
    var a, b := h.out[..|g.out|], h.out[|g.out|..];
    assert h.out == a + b;
    ReportsAppend(a, b);
    ReportsAppend(a + [ack], b);
    ReportsAppend(a, [ack]);
  }

  // ---- whole sessions -------------------------------------------------

  /** Every well-formed message is answered, and leaves the session sound. */
  lemma MessageServes(g: Session, st: State, m: InMsg)
    requires Inv(g, st)
    ensures GoodStep(g, st, OnMessage(g, st, m))
  {
    hide GoodStep, Inv, HandleEnter, HandleCancel, HandleReplace;
    InvValid(g, st);
    match m {
      case EnterMsg(_, _, _, _, _, _, _, _) => EnterServes(g, st, m);
      case CancelMsg(_) => CancelServes(g, st, m);
      case ReplaceMsg(_, _, _, _) => ReplaceServes(g, st, m);
    }
  }

  lemma InvValid(g: Session, st: State)
    requires Inv(g, st)
    ensures Valid(st)
  {}

  function RunSession(g: Session, st: State, ms: seq<InMsg>): Served
    requires Inv(g, st)
    decreases |ms|
  {
    if ms == [] then Served(g, st)
    else
      MessageServes(g, st, ms[0]);
      var r := OnMessage(g, st, ms[0]);
      RunSession(r.session, r.st, ms[1..])
  }

  /** The tokens granted over a stretch of output. */
  predicate GrantedOnce(out: seq<OutMsg>) {
    forall i, j :: 0 <= i < j < |out| && Grants(out[i]) && Grants(out[j]) ==> Spoken(out[i]) != Spoken(out[j])
  }

  predicate GrantsKnown(g: Session) {
    forall i :: 0 <= i < |g.out| && Grants(g.out[i]) ==> Spoken(g.out[i]).value in g.byToken
  }

  /** Over every message sequence an accepted or replaced-in token is never granted again. */
  lemma {:induction false} TokensAreSingleUse(g: Session, st: State, ms: seq<InMsg>)
    requires Inv(g, st) && GrantedOnce(g.out) && GrantsKnown(g)
    ensures var r := RunSession(g, st, ms);
      && Inv(r.session, r.st) && GrantedOnce(r.session.out) && GrantsKnown(r.session)
      && |r.session.out| >= |g.out| + |ms|
    decreases |ms|
  {
    hide OnMessage, Inv;
    if ms != [] {
      InvValid(g, st);
      MessageServes(g, st, ms[0]);
      var r := OnMessage(g, st, ms[0]);
      GrantsStayUnique(g, st, r);
      TokensAreSingleUse(r.session, r.st, ms[1..]);
    }
  }

  /** A session on a fresh venue, whatever it is sent. */
  lemma SessionIsSound(min: int, width: nat, ms: seq<InMsg>)
    requires width > 0
    ensures Inv(NEW_SESSION, Fresh(min, width))
    ensures var r := RunSession(NEW_SESSION, Fresh(min, width), ms);
      Inv(r.session, r.st) && GrantedOnce(r.session.out) && |r.session.out| >= |ms|
  {
    hide Inv, RunSession;
    NewSessionInv(min, width);
    TokensAreSingleUse(NEW_SESSION, Fresh(min, width), ms);
  }

  lemma GrantsStayUnique(g: Session, st: State, r: Served)
    requires GoodStep(g, st, r) && GrantedOnce(g.out) && GrantsKnown(g)
    ensures GrantedOnce(r.session.out) && GrantsKnown(r.session)
  {
    hide Inv;
    var out := r.session.out;
    forall i | 0 <= i < |out| ensures i < |g.out| ==> out[i] == g.out[i] {}
    forall i, j | 0 <= i < j < |out| && Grants(out[i]) && Grants(out[j]) ensures Spoken(out[i]) != Spoken(out[j]) {
      if i < |g.out| && j >= |g.out| {
        assert Spoken(g.out[i]).value in g.byToken;
        assert Tells(g, r.session, out[j]);
      }
    }
    forall i | 0 <= i < |out| && Grants(out[i]) ensures Spoken(out[i]).value in r.session.byToken {
      if i >= |g.out| { assert Tells(g, r.session, out[i]); }
    }
  }

  /** A burned token is never heard of again except in a rejection. */
  lemma {:induction false} BurnedTokensStaySilent(g: Session, st: State, ms: seq<InMsg>, t: Token, i: nat)
    requires Inv(g, st) && t in g.byToken && g.byToken[t] == 0
    requires |g.out| <= i < |RunSession(g, st, ms).session.out|
    ensures Spoken(RunSession(g, st, ms).session.out[i]) != Some(t)
    decreases |ms|
  {
    hide OnMessage, Inv, Tells;
    if ms != [] {
      InvValid(g, st);
      MessageServes(g, st, ms[0]);
      var r := OnMessage(g, st, ms[0]);
      RunKeepsOut(r.session, r.st, ms[1..]);
      if i < |r.session.out| {
        assert RunSession(g, st, ms).session.out[i] == r.session.out[i];
        BurnedNotTold(g, r.session, t, r.session.out[i]);
      } else {
        BurnedTokensStaySilent(r.session, r.st, ms[1..], t, i);
      }
    }
  }

  lemma BurnedNotTold(g: Session, h: Session, t: Token, m: OutMsg)
    requires t in h.byToken && h.byToken[t] == 0 && Tells(g, h, m)
    ensures Spoken(m) != Some(t)
  {}

  lemma {:induction false} RunKeepsOut(g: Session, st: State, ms: seq<InMsg>)
    requires Inv(g, st)
    ensures g.out <= RunSession(g, st, ms).session.out
    decreases |ms|
  {
    hide OnMessage, Inv;
    if ms != [] {
      InvValid(g, st);
      MessageServes(g, st, ms[0]);
      var r := OnMessage(g, st, ms[0]);
      RunKeepsOut(r.session, r.st, ms[1..]);
    }
  }
}
