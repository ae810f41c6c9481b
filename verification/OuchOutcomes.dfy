/** What a session message does to the book and what the client hears of it, by the
    message's own fields. */
module OuchOutcomes {
  import opened Types
  import opened Book
  import opened Matching
  import opened SweepLaws
  import opened Reach
  import opened Engine
  import opened Safety
  import opened Entries
  import opened Ouch
  import opened OuchReplace

  // ---- entering -------------------------------------------------------

  /** Priced in the band, and of some quantity. */
  predicate WellEntered(st: State, m: InMsg)
    requires m.EnterMsg?
  {
    st.min <= m.price < st.min + st.width && m.qty > 0
  }

  /** The book is as it was, nothing traded, and order `id` is cancelled. */
  predicate Untouched(st: State, r: State, id: nat) {
    r.book == st.book && r.live == st.live && TradedQty(r.tape) == TradedQty(st.tape) && LastSaid(r, Cancelled(id))
  }

  lemma EntryHeard(g: Session, st: State, m: InMsg)
    requires Inv(g, st) && NoStops(st) && m.EnterMsg? && m.token !in g.byToken && WellEntered(st, m)
    ensures var r, id := HandleEnter(g, st, m), st.nextId;
      && r.session.byToken == g.byToken[m.token := id] && r.session.tokenOf == g.tokenOf[id := m.token]
      && |g.out| < |r.session.out| && g.out <= r.session.out
      && r.session.out[|g.out|] == OAccepted(m.token, id, m.side, m.qty, m.price)
      && r.st == Do(st, OpOfEnter(m)).st && NoStops(r.st)
  {
    hide State.ListedAt, StopsInBand, Quiet, Do, Pump, Hear, Bound;
    var op := OpOfEnter(m);
    StepNoStops(st, op);
    EntryStep(st, m);
    BoundIsKeyed(g, st.nextId);
    HearEntry(BeginEnter(g, m), st, m);
    EntryAnswered(st, m);
  }

  lemma EntryAnswered(st: State, m: InMsg)
    requires Valid(st) && m.EnterMsg? && WellEntered(st, m)
    ensures Do(st, OpOfEnter(m)).reply == Assigned(st.nextId) && st.nextId > 0
  {
    hide State.ListedAt, StopsInBand, PlaceLimit, WouldCross;
  }

  /** In continuous trading a fresh token's order trades what is executable within its price
      for its owner and policy. An immediate-or-cancel or fill-or-kill order never rests; a
      post-only that would meet anything, and a fill-or-kill that the size within its limit
      cannot fill, touch nothing; what is left of the others rests last at the message's
      price and side, showing the display when it exceeds that. */
  lemma EnterOutcome(g: Session, st: State, m: InMsg, k: Taker)
    requires Inv(g, st) && NoStops(st) && !st.halted
    requires m.EnterMsg? && m.token !in g.byToken && WellEntered(st, m)
    requires Sends(k, st.nextId, m.side, m.owner, m.stp) && TakesAt(st, k, m.price)
    ensures var r, id, can := HandleEnter(g, st, m), st.nextId, Executable(st, k);
      var done := if m.qty < can then m.qty else can;
      && r.session.byToken == g.byToken[m.token := id] && r.session.tokenOf == g.tokenOf[id := m.token]
      && |g.out| < |r.session.out| && r.session.out[|g.out|] == OAccepted(m.token, id, m.side, m.qty, m.price)
      && (m.tif.IOC? || m.tif.FOK? ==> id !in r.st.live)
      && (m.tif.PostOnly? ==> TradedQty(r.st.tape) == TradedQty(st.tape))
      && if (m.tif.FOK? && Fillable(st, m.side, m.price) < m.qty) || (m.tif.PostOnly? && Meets(st, k))
         then Untouched(st, r.st, id)
         else if done < m.qty && !Walled(st, k) && (m.tif.GTC? || m.tif.PostOnly?)
         then TookAndRests(st, r.st, k, m.price - st.min, m.qty, m.display, done)
         else Took(st, r.st, k, done) && (done < m.qty ==> LastSaid(r.st, Cancelled(id)))
  {
    hide State.ListedAt, State.Bounded, StopsInBand, Quiet, Do, HandleEnter, TradedQty, Executable, Walled, Bound,
      TookAndRests;
    var op := OpOfEnter(m);
    EntryHeard(g, st, m);
    EntryOutcome(st, op, k);
    NewIdIsNew(st);
    SilentTape(st.tape, Accepted(st.nextId, m.side, m.price, m.qty), Cancelled(st.nextId));
    MeetsNothing(st, m.side, m.price, k);
    ShownEither(st, Do(st, op).st, k, m.price - st.min, m.qty, DisplayOf(op), m.display);
  }

  lemma NewIdIsNew(st: State)
    requires st.Indexed()
    ensures st.nextId !in st.live
  {
    hide State.ListedAt;
  }

  lemma MeetsNothing(st: State, side: Side, price: int, k: Taker)
    requires st.Shaped() && st.min <= price < st.min + st.width && k.side == side && TakesAt(st, k, price)
    ensures !Meets(st, k) ==> Executable(st, k) == 0 && !Walled(st, k)
  {
    hide Executable, Walled, WouldCross;
    MeetsIff(st, k, side, price - st.min);
  }

  /** A display of the whole quantity or more hides nothing. */
  lemma ShownEither(st: State, r: State, k: Taker, tick: nat, qty: nat, display: nat, asked: nat)
    requires display == if asked < qty then asked else 0
    ensures forall done: nat :: TookAndRests(st, r, k, tick, qty, display, done) ==>
      TookAndRests(st, r, k, tick, qty, asked, done) && TradedQty(r.tape) == TradedQty(st.tape) + done
  {}

  /** During a halt a good-till-cancelled order stays whole and untraded, and any other
      touches nothing. */
  lemma HaltedEnterOutcome(g: Session, st: State, m: InMsg, k: Taker)
    requires Inv(g, st) && NoStops(st) && st.halted
    requires m.EnterMsg? && m.token !in g.byToken && WellEntered(st, m)
    requires Sends(k, st.nextId, m.side, m.owner, m.stp)
    ensures var r, id := HandleEnter(g, st, m), st.nextId;
      && r.session.byToken == g.byToken[m.token := id] && r.session.tokenOf == g.tokenOf[id := m.token]
      && |g.out| < |r.session.out| && r.session.out[|g.out|] == OAccepted(m.token, id, m.side, m.qty, m.price)
      && (m.tif.GTC? ==> TookAndRests(st, r.st, k, m.price - st.min, m.qty, m.display, 0))
      && (!m.tif.GTC? ==> Untouched(st, r.st, id))
  {
    hide State.ListedAt, State.Bounded, StopsInBand, Quiet, Do, HandleEnter, TradedQty, Bound, TookAndRests;
    var op := OpOfEnter(m);
    EntryHeard(g, st, m);
    HaltedEntryOutcome(st, op, k);
    SilentTape(st.tape, Accepted(st.nextId, m.side, m.price, m.qty), Cancelled(st.nextId));
    ShownEither(st, Do(st, op).st, k, m.price - st.min, m.qty, DisplayOf(op), m.display);
  }

  // ---- cancellations and why ------------------------------------------

  datatype Notice = Notice(token: Token, reason: Reason)

  /** The cancellations among the outbound messages. */
  function Notices(out: seq<OutMsg>): seq<Notice> {
    if out == [] then []
    else (if out[0].OCanceled? then [Notice(out[0].token, out[0].reason)] else []) + Notices(out[1..])
  }

  /** Order `spare` is not spoken of; `own` is cancelled for `reason`, any other for `other`. */
  datatype Why = Why(spare: Option<nat>, own: nat, reason: Reason, other: Reason)

  function NoticeOf(g: Session, e: Event, why: Why): seq<Notice> {
    if e.Cancelled? && why.spare != Some(e.id)
    then [Notice(g.NameOf(e.id), if e.id == why.own then why.reason else why.other)] else []
  }

  /** The cancellations among the events, each under its order's token. */
  function NoticesFor(g: Session, es: seq<Event>, why: Why): seq<Notice> {
    if es == [] then [] else NoticeOf(g, es[0], why) + NoticesFor(g, es[1..], why)
  }

  lemma {:induction false} NoticesAppend(a: seq<OutMsg>, b: seq<OutMsg>)
    ensures Notices(a + b) == Notices(a) + Notices(b)
  {
    if a == [] {
      assert a + b == b;
    } else {
      assert (a + b)[1..] == a[1..] + b;
      NoticesAppend(a[1..], b);
      var first := if a[0].OCanceled? then [Notice(a[0].token, a[0].reason)] else [];
      assert first + (Notices(a[1..]) + Notices(b)) == first + Notices(a[1..]) + Notices(b);
    }
  }

  lemma {:induction false} NoticesSame(g: Session, h: Session, es: seq<Event>, why: Why)
    requires g.tokenOf == h.tokenOf
    ensures NoticesFor(g, es, why) == NoticesFor(h, es, why)
  {
    if es != [] { NoticesSame(g, h, es[1..], why); }
  }

  /** While `g` listens, that is who is spared and why the others are cancelled. */
  ghost predicate Explains(g: Session, why: Why) {
    && why.spare == (if g.mode.Replacing? then Some(g.replacing) else None)
    && forall id :: why.spare != Some(id) ==> WhyCancelled(g, id) == if id == why.own then why.reason else why.other
  }

  lemma NoticesPair(a: OutMsg, b: OutMsg)
    requires a.OExecuted? && b.OExecuted?
    ensures Notices([a, b]) == []
  {
    assert [a, b][1..] == [b];
    assert Notices([b]) == [];
  }

  lemma EventNotices(g: Session, e: Event, why: Why)
    requires Explains(g, why)
    ensures Notices(OnEvent(g, e).out) == Notices(g.out) + NoticeOf(g, e, why)
  {
    var h := OnEvent(g, e);
    var said := h.out[|g.out|..];
    assert h.out == g.out + said;
    NoticesAppend(g.out, said);
    if e.Traded? {
      assert said == [said[0], said[1]];
      NoticesPair(said[0], said[1]);
    } else {
      assert |said| <= 1;
    }
  }

  lemma {:induction false} EventsNotices(g: Session, es: seq<Event>, why: Why)
    requires Explains(g, why) && forall e :: e in es ==> g.mode.Entering? ==> !e.Accepted?
    ensures Notices(OnEvents(g, es).out) == Notices(g.out) + NoticesFor(g, es, why)
    decreases |es|
  {
    hide Notices, Explains, OnEvent, NoticeOf;
    if es != [] {
      var k := OnEvent(g, es[0]);
      EventKeepsNames(g, es[0]);
      EventNotices(g, es[0], why);
      StillExplains(g, es[0], why);
      EventsNotices(k, es[1..], why);
      NoticesSame(k, g, es[1..], why);
    }
  }

  lemma StillExplains(g: Session, e: Event, why: Why)
    requires Explains(g, why) && (g.mode.Entering? ==> !e.Accepted?)
    ensures Explains(OnEvent(g, e), why)
  {
    var h := OnEvent(g, e);
    assert h.mode == g.mode && h.entered == g.entered && h.replacing == g.replacing;
  }

  /** After an entry: its own order was killed on entry, any other died of self-trade prevention. */
  lemma EnterNotices(g: Session, st: State, m: InMsg)
    requires Inv(g, st) && m.EnterMsg? && m.token !in g.byToken && WellEntered(st, m)
    ensures var r := HandleEnter(g, st, m);
      && st.tape <= r.st.tape
      && Notices(r.session.out) == Notices(g.out) +
        NoticesFor(r.session, News(st, r.st), Why(None, st.nextId, KilledOnEntry, SelfTrade))
  {
    hide State.ListedAt, StopsInBand, Quiet, Step, Known, Dated, Notices, Bound;
    var g1, r, why := BeginEnter(g, m), HandleEnter(g, st, m), Why(None, st.nextId, KilledOnEntry, SelfTrade);
    BoundIsKeyed(g, st.nextId);
    EntryRest(g1, st, m);
    EntryStep(st, m);
    EntryReplies(st, m);
    StepValid(st, OpOfEnter(m));
    var news := News(st, r.st);
    assert news[0] == r.st.tape[|st.tape|];
    var k := OnEvent(g1, news[0]);
    assert k.entered == st.nextId;
    SilentNotices(g.out, OAccepted(m.token, st.nextId, m.side, m.qty, m.price));
    EventsKeepBindings(k, news[1..]);
    EventsNotices(k, news[1..], why);
    NoticesSame(k, r.session, news[1..], why);
    assert NoticesFor(r.session, news, why) == NoticesFor(r.session, news[1..], why);
  }

  lemma EntryReplies(st: State, m: InMsg)
    requires Valid(st) && m.EnterMsg? && WellEntered(st, m)
    ensures Step(st, OpOfEnter(m)).reply.id == st.nextId
  {
    EntryAnswered(st, m);
  }

  /** An entry out of the band or of nothing is rejected, binds nothing and moves nothing. */
  lemma BadEnterOutcome(g: Session, st: State, m: InMsg)
    requires Inv(g, st) && m.EnterMsg? && m.token !in g.byToken && !WellEntered(st, m)
    ensures var r := HandleEnter(g, st, m);
      && r.session == g.(out := g.out + [ORejected(m.token, Validation)], pending := m.token, entered := 0)
      && r.st == st.(tape := st.tape + [Rejected(0)])
  {
    hide State.ListedAt, StopsInBand, Quiet, Bound;
    var op := OpOfEnter(m);
    BadEntryIsRejected(st, op);
    DoValid(st, op);
    PumpNothing(st, Do(st, op).st);
    assert News(st, Do(st, op).st) == [Rejected(0)];
    OneHeard(BeginEnter(g, m), Rejected(0));
  }

  lemma OneHeard(g: Session, e: Event)
    ensures OnEvents(g, [e]) == OnEvent(g, e)
  {
    assert [e][1..] == [];
  }

  /** A known token entered again is rejected and moves nothing. */
  lemma ReusedTokenOutcome(g: Session, st: State, m: InMsg)
    requires Valid(st) && m.EnterMsg? && m.token in g.byToken
    ensures HandleEnter(g, st, m) == Served(g.(out := g.out + [ORejected(m.token, BadToken)]), st)
  {}

  // ---- cancelling -----------------------------------------------------

  /** A cancel takes out the order its token names and nothing else, and says it was asked
      for; with no live order behind the token it is rejected and moves nothing. */
  lemma CancelMsgOutcome(g: Session, st: State, m: InMsg)
    requires Inv(g, st) && NoStops(st) && m.CancelMsg?
    ensures var r := HandleCancel(g, st, m);
      if m.token in g.byToken && g.byToken[m.token] in st.live then
        && r.st == Do(st, Cancel(g.byToken[m.token])).st
        && r.session == g.(out := g.out + [OCanceled(m.token, UserRequested)])
      else
        r.st == st && r.session == g.(out := g.out + [ORejected(m.token, BadToken)])
  {
    hide State.ListedAt, StopsInBand, Quiet, Pump, Remove;
    if m.token in g.byToken && g.byToken[m.token] != 0 {
      var id := g.byToken[m.token];
      StepNoStops(st, Cancel(id));
      NameIs(g, st.nextId, m.token);
      var t := Do(st, Cancel(id)).st;
      if id in st.live {
        RemoveValid(st, id);
        assert News(st, t) == [Cancelled(id)];
        OneHeard(g.(mode := Cancelling), Cancelled(id));
      } else {
        assert News(st, t) == [];
      }
    } else if m.token in g.byToken {
      ZeroIsDead(st);
    }
  }

  lemma ZeroIsDead(st: State)
    requires st.Indexed()
    ensures 0 !in st.live
  {
    hide State.ListedAt;
  }

  // ---- replacing ------------------------------------------------------

  /** A replace modifies the order its token names to the message's price and quantity. When
      the engine takes it the new token names the order and the old one is burned; when it
      does not, or the tokens are not such, nothing but the rejection happens. */
  lemma ReplaceMsgOutcome(g: Session, st: State, m: InMsg)
    requires Inv(g, st) && NoStops(st) && m.ReplaceMsg?
    ensures var r := HandleReplace(g, st, m);
      if m.token !in g.byToken || g.byToken[m.token] == 0 || m.newToken in g.byToken then
        r.st == st && r.session == g.(out := g.out + [ORejected(m.newToken, BadToken)])
      else
        var id := g.byToken[m.token]; var d := Do(st, Modify(id, m.price, m.qty));
        && r.st == d.st
        && (if d.reply == Answer(true) then
              && r.session.byToken == g.byToken[m.token := 0][m.newToken := id]
              && r.session.tokenOf == g.tokenOf[id := m.newToken]
              && st.tape <= r.st.tape
              && Notices(r.session.out) == Notices(g.out) +
                NoticesFor(r.session, News(st, r.st), Why(Some(id), id, SelfTrade, SelfTrade))
            else
              && r.st == st && r.session.byToken == g.byToken && r.session.tokenOf == g.tokenOf
              && r.session.out == g.out + [ORejected(m.newToken, Validation)])
  {
    hide State.ListedAt, StopsInBand, Quiet, Pump, Do, Bound, Named, Tells, Notices;
    if m.token in g.byToken && g.byToken[m.token] != 0 && m.newToken !in g.byToken {
      var id := g.byToken[m.token];
      var op, g1 := Modify(id, m.price, m.qty), BeginReplace(g, id, m);
      StepNoStops(st, op);
      NameIs(g, st.nextId, m.token);
      ModifyNews(st, id, m.price, m.qty);
      var t := Do(st, op).st;
      if Do(st, op).reply == Answer(true) {
        RenamedKnows(g, g1, st, t, id, m.newToken);
        EventsKeepBindings(g1, News(st, t));
        EventsNotices(g1, News(st, t), Why(Some(id), id, SelfTrade, SelfTrade));
        var h, ack := OnEvents(g1, News(st, t)), OReplaced(m.token, m.newToken, id, m.qty, m.price);
        AckNotices(h.out, |g.out|, ack);
        NoticesSame(g1, HandleReplace(g, st, m).session, News(st, t), Why(Some(id), id, SelfTrade, SelfTrade));
      } else {
        NothingHeard(st, g1);
      }
    }
  }

  lemma AckNotices(out: seq<OutMsg>, pos: nat, ack: OutMsg)
    requires pos <= |out| && !ack.OCanceled?
    ensures Notices(out[..pos] + [ack] + out[pos..]) == Notices(out)
  {
    hide Notices;
    SilentNotices(out[..pos], ack);
    NoticesAppend(out[..pos] + [ack], out[pos..]);
    NoticesAppend(out[..pos], out[pos..]);
    assert out == out[..pos] + out[pos..];
  }

  lemma SilentNotices(out: seq<OutMsg>, m: OutMsg)
    requires !m.OCanceled?
    ensures Notices(out + [m]) == Notices(out)
  {
    NoticesAppend(out, [m]);
    assert Notices([m]) == [];
  }

  // ---- match numbers --------------------------------------------------

  /** The match numbers of the executions sent. */
  function Matches(out: seq<OutMsg>): seq<nat> {
    if out == [] then [] else (if out[0].OExecuted? then [out[0].match_] else []) + Matches(out[1..])
  }

  lemma {:induction false} MatchesAppend(a: seq<OutMsg>, b: seq<OutMsg>)
    ensures Matches(a + b) == Matches(a) + Matches(b)
  {
    if a == [] {
      assert a + b == b;
    } else {
      assert (a + b)[1..] == a[1..] + b;
      MatchesAppend(a[1..], b);
      var first := if a[0].OExecuted? then [a[0].match_] else [];
      assert first + (Matches(a[1..]) + Matches(b)) == first + Matches(a[1..]) + Matches(b);
    }
  }

  /** Executions come in pairs, the two of a pair sharing the next match number. */
  ghost predicate Numbered(g: Session) {
    |Matches(g.out)| == 2 * g.matchSeq && forall i :: 0 <= i < |Matches(g.out)| ==> Matches(g.out)[i] == i / 2 + 1
  }

  lemma SilentNumbered(g: Session, h: Session, m: OutMsg)
    requires Numbered(g) && h.out == g.out + [m] && !m.OExecuted? && h.matchSeq == g.matchSeq
    ensures Numbered(h)
  {
    MatchesAppend(g.out, [m]);
  }

  lemma PairMatches(a: OutMsg, b: OutMsg)
    requires a.OExecuted? && b.OExecuted?
    ensures Matches([a, b]) == [a.match_, b.match_]
  {
    assert [a, b][1..] == [b];
    assert Matches([b]) == [b.match_];
  }

  lemma PairNumbered(g: Session, h: Session, a: OutMsg, b: OutMsg)
    requires Numbered(g) && h.out == g.out + [a, b] && a.OExecuted? && b.OExecuted?
    requires a.match_ == b.match_ == h.matchSeq == g.matchSeq + 1
    ensures Numbered(h)
  {
    MatchesAppend(g.out, [a, b]);
    PairMatches(a, b);
  }

  lemma EventNumbered(g: Session, e: Event)
    requires Numbered(g)
    ensures Numbered(OnEvent(g, e))
  {
    hide Matches, Numbered;
    var h := OnEvent(g, e);
    match e {
      case Traded(taker, maker, price, qty, _) =>
        var n := g.matchSeq + 1;
        var a, b := OExecuted(g.NameOf(taker), qty, price, n), OExecuted(g.NameOf(maker), qty, price, n);
        assert h.out == g.out + [a, b];
        PairNumbered(g, h, a, b);
      case Accepted(id, side, price, qty) =>
        if g.mode.Entering? { SilentNumbered(g, h, OAccepted(g.pending, id, side, qty, price)); }
      case Cancelled(id) =>
        if !g.mode.Replacing? || id != g.replacing {
          SilentNumbered(g, h, OCanceled(g.NameOf(id), WhyCancelled(g, id)));
        }
      case Rejected(_) => if g.mode.Entering? { SilentNumbered(g, h, ORejected(g.pending, Validation)); }
      case Rested(_, _, _, _) =>
    }
  }

  lemma {:induction false} EventsNumbered(g: Session, es: seq<Event>)
    requires Numbered(g)
    ensures Numbered(OnEvents(g, es))
    decreases |es|
  {
    hide Numbered, OnEvent;
    if es != [] {
      EventNumbered(g, es[0]);
      EventsNumbered(OnEvent(g, es[0]), es[1..]);
    }
  }

  lemma MessageNumbered(g: Session, st: State, m: InMsg)
    requires Valid(st) && Numbered(g)
    ensures Numbered(OnMessage(g, st, m).session)
  {
    hide Valid, Step, OnEvent, Matches;
    match m {
      case EnterMsg(token, _, _, _, _, _, _, _) =>
        if token in g.byToken {
          SilentNumbered(g, OnMessage(g, st, m).session, ORejected(token, BadToken));
        } else {
          StepValid(st, OpOfEnter(m));
          EventsNumbered(BeginEnter(g, m), News(st, Step(st, OpOfEnter(m)).st));
        }
      case CancelMsg(token) => CancelNumbered(g, st, m);
      case ReplaceMsg(token, newToken, _, _) => ReplaceNumbered(g, st, m);
    }
  }

  lemma CancelNumbered(g: Session, st: State, m: InMsg)
    requires Valid(st) && Numbered(g) && m.CancelMsg?
    ensures Numbered(HandleCancel(g, st, m).session)
  {
    hide Valid, Step, OnEvent, Matches;
    var said := ORejected(m.token, BadToken);
    if m.token !in g.byToken || g.byToken[m.token] == 0 {
      SilentNumbered(g, HandleCancel(g, st, m).session, said);
    } else {
      var op := Cancel(g.byToken[m.token]);
      StepValid(st, op);
      EventsNumbered(g.(mode := Cancelling), News(st, Step(st, op).st));
      var h := OnEvents(g.(mode := Cancelling), News(st, Step(st, op).st)).(mode := Idle);
      SilentNumbered(h, h.Say(said), said);
    }
  }

  lemma ReplaceNumbered(g: Session, st: State, m: InMsg)
    requires Valid(st) && Numbered(g) && m.ReplaceMsg?
    ensures Numbered(HandleReplace(g, st, m).session)
  {
    hide Valid, Step, OnEvent;
    if m.token !in g.byToken || g.byToken[m.token] == 0 || m.newToken in g.byToken {
      SilentNumbered(g, HandleReplace(g, st, m).session, ORejected(m.newToken, BadToken));
    } else {
      var id := g.byToken[m.token];
      var op := Modify(id, m.price, m.qty);
      StepValid(st, op);
      EventsNumbered(BeginReplace(g, id, m), News(st, Step(st, op).st));
      var h := OnEvents(BeginReplace(g, id, m), News(st, Step(st, op).st));
      SilentNumbered(h, Restore(h, id, g.NameOf(id), m), ORejected(m.newToken, Validation));
      AckMatches(h.out, |g.out|, OReplaced(g.NameOf(id), m.newToken, id, m.qty, m.price));
    }
  }

  lemma AckMatches(out: seq<OutMsg>, pos: nat, ack: OutMsg)
    requires pos <= |out| && !ack.OExecuted?
    ensures Matches(out[..pos] + [ack] + out[pos..]) == Matches(out)
  {
    hide Matches;
    SilentMatches(out[..pos], ack);
    MatchesAppend(out[..pos] + [ack], out[pos..]);
    MatchesAppend(out[..pos], out[pos..]);
    assert out == out[..pos] + out[pos..];
  }

  lemma SilentMatches(out: seq<OutMsg>, m: OutMsg)
    requires !m.OExecuted?
    ensures Matches(out + [m]) == Matches(out)
  {
    MatchesAppend(out, [m]);
    assert Matches([m]) == [];
  }

  /** Over every session the executions sent are numbered 1, 1, 2, 2, 3, 3 and so on. */
  lemma {:induction false} SessionNumbered(g: Session, st: State, ms: seq<InMsg>)
    requires Inv(g, st) && Numbered(g)
    ensures Numbered(RunSession(g, st, ms).session)
    decreases |ms|
  {
    hide Inv, Numbered, OnMessage;
    if ms != [] {
      InvValid(g, st);
      MessageServes(g, st, ms[0]);
      MessageNumbered(g, st, ms[0]);
      var r := OnMessage(g, st, ms[0]);
      SessionNumbered(r.session, r.st, ms[1..]);
    }
  }
}
