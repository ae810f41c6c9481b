/** The session object around the flat-array engine. */
module OuchGateway {
  import opened Types
  import opened Book
  import opened Engine
  import opened Safety
  import opened FastEngine
  import opened Visitors
  import opened Ouch

  lemma {:induction false} EventsAppend(g: Session, es: seq<Event>, e: Event)
    ensures OnEvents(g, es + [e]) == Ouch.OnEvent(OnEvents(g, es), e)
    decreases |es|
  {
    if es == [] {
      assert ([] + [e])[1..] == [];
    } else {
      assert (es + [e])[1..] == es[1..] + [e];
      EventsAppend(Ouch.OnEvent(g, es[0]), es[1..], e);
    }
  }

  class Gateway {
    const engine: MatchingEngine
    var byToken: map<Token, nat>
    var tokenOf: map<nat, Token>
    var out: seq<OutMsg>
    var matchSeq: nat
    var mode: Mode
    var pending: Token
    var entered: nat
    var replacing: nat

    ghost function Abs(): Session
      reads this
    {
      Session(byToken, tokenOf, out, matchSeq, mode, pending, entered, replacing)
    }

    ghost predicate Ready()
      reads this, engine, engine.Repr()
    {
      engine.Idle() && this != engine as object && this !in engine.Repr()
    }

    constructor (minPrice: int, maxPrice: int)
      requires minPrice <= maxPrice
      ensures Ready() && Abs() == NEW_SESSION && fresh(engine) && fresh(engine.Repr())
      ensures engine.Abs() == Fresh(minPrice, maxPrice - minPrice + 1)
    {
      hide MatchingEngine.Idle, MatchingEngine.Abs, Fresh;
      engine := new MatchingEngine(minPrice, maxPrice);
      byToken, tokenOf, out, matchSeq := map[], map[], [], 0;
      mode, pending, entered, replacing := Idle, [], 0, 0;
    }

    function NameOf(id: nat): Token
      reads this`tokenOf
    {
      if id in tokenOf then tokenOf[id] else []
    }

    /** One engine event becomes its outbound messages. */
    method OnEvent(e: Event)
      modifies this
      ensures Abs() == Ouch.OnEvent(old(Abs()), e)
    {
      match e {
        case Accepted(id, side, price, qty) =>
          if mode.Entering? {
            entered := id;
            tokenOf := tokenOf[id := pending];
            out := out + [OAccepted(pending, id, side, qty, price)];
          }
        case Traded(taker, maker, price, qty, _) =>
          matchSeq := matchSeq + 1;
          out := out + [OExecuted(NameOf(taker), qty, price, matchSeq)];
          out := out + [OExecuted(NameOf(maker), qty, price, matchSeq)];
        case Cancelled(id) =>
          if !(mode.Replacing? && id == replacing) {
            var reason := SelfTrade;
            if mode.Cancelling? { reason := UserRequested; }
            else if mode.Entering? && id == entered { reason := KilledOnEntry; }
            out := out + [OCanceled(NameOf(id), reason)];
          }
        case Rejected(_) => if mode.Entering? { out := out + [ORejected(pending, Validation)]; }
        case Rested(_, _, _, _) =>
      }
    }

    /** The engine call of the current mode, its events heard in order. */
    method Drive(op: Op) returns (reply: Reply)
      requires Ready()
      modifies this, engine, engine.Repr()
      ensures Ready() && Engine.Valid(old(engine.Abs()))
      ensures Result(engine.Abs(), reply) == Step(old(engine.Abs()), op)
      ensures Abs() == Hear(old(Abs()), old(engine.Abs()), op)
    {
      hide MatchingEngine.Idle, MatchingEngine.Abs, MatchingEngine.Repr, MatchingEngine.Levels, MatchingEngine.Words,
        Engine.Valid, Step, OnEvents, Quiet, Safe;
      assert allocated(engine.Repr());
      EngineFacts(engine);
      StepValid(engine.Abs(), op);
      var from := |engine.tape|;
      reply := engine.Apply(op);
      EngineFacts(engine);
      HearFrom(from);
    }

    method HearAll(es: seq<Event>)
      modifies this
      ensures Abs() == OnEvents(old(Abs()), es)
    {
      hide Ouch.OnEvent, Gateway.Abs;
      ghost var start := Abs();
      NoEvents(start);
      for i := 0 to |es|
        invariant Abs() == OnEvents(start, es[..i])
      {
        OnEvent(es[i]);
        EventsAppend(start, es[..i], es[i]);
        assert es[..i + 1] == es[..i] + [es[i]];
      }
      assert es[..|es|] == es;
    }

    method HearFrom(from: nat)
      requires from <= |engine.tape| && Ready()
      modifies this
      ensures Abs() == OnEvents(old(Abs()), engine.tape[from..])
      ensures Ready() && engine.Abs() == old(engine.Abs())
    {
      hide OnEvents, Gateway.Abs, MatchingEngine.Idle, MatchingEngine.Abs, MatchingEngine.Repr, MatchingEngine.Levels,
        MatchingEngine.Words;
      EngineFacts(engine);
      assert allocated(engine.Repr());
      HearAll(engine.tape[from..]);
    }

    method BeginEnter(m: InMsg)
      requires Ready() && m.EnterMsg?
      modifies this`mode, this`pending, this`entered
      ensures Ready() && engine.Abs() == old(engine.Abs())
      ensures Abs() == Ouch.BeginEnter(old(Abs()), m)
    {
      hide MatchingEngine.Idle, MatchingEngine.Abs, MatchingEngine.Repr, MatchingEngine.Levels, MatchingEngine.Words;
      EngineFacts(engine);
      assert allocated(engine.Repr());
      mode, pending, entered := Entering, m.token, 0;
    }

    method EndEnter(m: InMsg, reply: Reply)
      requires Ready() && m.EnterMsg?
      modifies this`mode, this`byToken
      ensures Ready() && engine.Abs() == old(engine.Abs())
      ensures Abs() == Ouch.EndEnter(old(Abs()), m, reply)
    {
      hide MatchingEngine.Idle, MatchingEngine.Abs, MatchingEngine.Repr, MatchingEngine.Levels, MatchingEngine.Words;
      EngineFacts(engine);
      assert allocated(engine.Repr());
      mode := Idle;
      if reply.Assigned? && reply.id != 0 { byToken := byToken[m.token := reply.id]; }
    }

    method HandleEnter(m: InMsg)
      requires Ready() && m.EnterMsg?
      modifies this, engine, engine.Repr()
      ensures Ready() && Engine.Valid(old(engine.Abs()))
      ensures Served(Abs(), engine.Abs()) == Ouch.HandleEnter(old(Abs()), old(engine.Abs()), m)
    {
      hide MatchingEngine.Idle, MatchingEngine.Abs, MatchingEngine.Repr, MatchingEngine.Levels, MatchingEngine.Words,
        Engine.Valid, Step, Hear, Ouch.BeginEnter, Ouch.EndEnter, Quiet, Safe;
      assert allocated(engine.Repr());
      EngineFacts(engine);
      if m.token in byToken {
        Refuse(m.token);
      } else {
        BeginEnter(m);
        var reply := Drive(OpOfEnter(m));
        EndEnter(m, reply);
      }
    }

    method HandleCancel(m: InMsg)
      requires Ready() && m.CancelMsg?
      modifies this, engine, engine.Repr()
      ensures Ready() && Engine.Valid(old(engine.Abs()))
      ensures Served(Abs(), engine.Abs()) == Ouch.HandleCancel(old(Abs()), old(engine.Abs()), m)
    {
      hide MatchingEngine.Idle, MatchingEngine.Abs, MatchingEngine.Repr, MatchingEngine.Levels, MatchingEngine.Words,
        Engine.Valid, Step, Hear, Quiet, Safe;
      assert allocated(engine.Repr());
      EngineFacts(engine);
      if m.token !in byToken || byToken[m.token] == 0 {
        Refuse(m.token);
        return;
      }
      mode := Cancelling;
      var reply := Drive(Cancel(byToken[m.token]));
      mode := Idle;
      if reply != Answer(true) { Refuse(m.token); }
    }

    method BeginReplace(id: nat, m: InMsg)
      requires Ready() && m.ReplaceMsg?
      modifies this`mode, this`tokenOf, this`replacing
      ensures Ready() && engine.Abs() == old(engine.Abs())
      ensures Abs() == Ouch.BeginReplace(old(Abs()), id, m)
    {
      hide MatchingEngine.Idle, MatchingEngine.Abs, MatchingEngine.Repr, MatchingEngine.Levels, MatchingEngine.Words;
      EngineFacts(engine);
      assert allocated(engine.Repr());
      tokenOf := tokenOf[id := m.newToken];
      mode, replacing := Replacing, id;
    }

    method Acknowledge(pos: nat, id: nat, oldToken: Token, m: InMsg)
      requires Ready() && m.ReplaceMsg? && pos <= |out|
      modifies this`mode, this`byToken, this`out
      ensures Ready() && engine.Abs() == old(engine.Abs())
      ensures Abs() == Ouch.Acknowledge(old(Abs()), pos, id, oldToken, m)
    {
      hide MatchingEngine.Idle, MatchingEngine.Abs, MatchingEngine.Repr, MatchingEngine.Levels, MatchingEngine.Words;
      EngineFacts(engine);
      assert allocated(engine.Repr());
      mode := Idle;
      byToken := byToken[m.token := 0];
      byToken := byToken[m.newToken := id];
      out := out[..pos] + [OReplaced(oldToken, m.newToken, id, m.qty, m.price)] + out[pos..];
    }

    method Restore(id: nat, oldToken: Token, m: InMsg)
      requires Ready() && m.ReplaceMsg?
      modifies this`mode, this`tokenOf, this`out
      ensures Ready() && engine.Abs() == old(engine.Abs())
      ensures Abs() == Ouch.Restore(old(Abs()), id, oldToken, m)
    {
      hide MatchingEngine.Idle, MatchingEngine.Abs, MatchingEngine.Repr, MatchingEngine.Levels, MatchingEngine.Words;
      EngineFacts(engine);
      assert allocated(engine.Repr());
      mode := Idle;
      tokenOf := tokenOf[id := oldToken];
      out := out + [ORejected(m.newToken, Validation)];
    }

    method Refuse(token: Token)
      requires Ready()
      modifies this`out
      ensures Ready() && engine.Abs() == old(engine.Abs())
      ensures Abs() == old(Abs()).Say(ORejected(token, BadToken))
    {
      hide MatchingEngine.Idle, MatchingEngine.Abs, MatchingEngine.Repr, MatchingEngine.Levels, MatchingEngine.Words;
      EngineFacts(engine);
      assert allocated(engine.Repr());
      out := out + [ORejected(token, BadToken)];
    }

    method HandleReplace(m: InMsg)
      requires Ready() && m.ReplaceMsg?
      modifies this, engine, engine.Repr()
      ensures Ready() && Engine.Valid(old(engine.Abs()))
      ensures Served(Abs(), engine.Abs()) == Ouch.HandleReplace(old(Abs()), old(engine.Abs()), m)
    {
      hide MatchingEngine.Idle, MatchingEngine.Abs, MatchingEngine.Repr, MatchingEngine.Levels, MatchingEngine.Words,
        Engine.Valid, Step, Hear, Ouch.BeginReplace, Ouch.Acknowledge, Ouch.Restore, Quiet, Safe;
      assert allocated(engine.Repr());
      EngineFacts(engine);
      if m.token !in byToken || byToken[m.token] == 0 || m.newToken in byToken {
        Refuse(m.newToken);
      } else {
        var id, pos := byToken[m.token], |out|;
        var oldToken := NameOf(id);
        BeginReplace(id, m);
        var reply := Drive(Modify(id, m.price, m.qty));
        if reply == Answer(true) { Acknowledge(pos, id, oldToken, m); } else { Restore(id, oldToken, m); }
      }
    }

    /** One well-formed inbound message. */
    method Receive(m: InMsg)
      requires Ready()
      modifies this, engine, engine.Repr()
      ensures Ready() && Engine.Valid(old(engine.Abs()))
      ensures Served(Abs(), engine.Abs()) == OnMessage(old(Abs()), old(engine.Abs()), m)
    {
      hide MatchingEngine.Idle, MatchingEngine.Abs, MatchingEngine.Repr, MatchingEngine.Levels, MatchingEngine.Words,
        Engine.Valid, Ouch.HandleEnter, Ouch.HandleCancel, Ouch.HandleReplace, Quiet, Safe;
      assert allocated(engine.Repr());
      match m {
        case EnterMsg(_, _, _, _, _, _, _, _) => HandleEnter(m);
        case CancelMsg(_) => HandleCancel(m);
        case ReplaceMsg(_, _, _, _) => HandleReplace(m);
      }
    }
  }

  lemma NoEvents(g: Session)
    ensures OnEvents(g, []) == g
  {}
}
