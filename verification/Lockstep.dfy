/** The two engines agree, call by call, on every run. */
module Lockstep {
  import opened Book
  import opened Engine
  import opened Safety
  import opened FastEngine
  import opened NaiveEngine

  /** The replies a run of calls gets. */
  function Replies(st: State, ops: seq<Op>): seq<Reply>
    requires Engine.Valid(st)
    decreases |ops|
  {
    if ops == [] then []
    else
      StepValid(st, ops[0]);
      [Step(st, ops[0]).reply] + Replies(Step(st, ops[0]).st, ops[1..])
  }

  lemma {:induction false} RunPush(st: State, ops: seq<Op>, op: Op)
    requires Engine.Valid(st)
    ensures Engine.Valid(Run(st, ops))
    ensures Run(st, ops + [op]) == Step(Run(st, ops), op).st
    ensures Replies(st, ops + [op]) == Replies(st, ops) + [Step(Run(st, ops), op).reply]
    decreases |ops|
  {
    hide Step, Engine.Valid;
    if ops == [] {
      StepValid(st, op);
      assert (ops + [op])[1..] == [];
    } else {
      StepValid(st, ops[0]);
      assert (ops + [op])[1..] == ops[1..] + [op];
      RunPush(Step(st, ops[0]).st, ops[1..], op);
    }
  }

  /** Drives a fresh flat-array engine and a fresh naive engine with the same calls:
      same replies, same event tape, same book, after every call. */
  method Lockstep(minPrice: int, maxPrice: int, ops: seq<Op>)
    returns (fast: MatchingEngine, naive: ReferenceEngine, fastReplies: seq<Reply>, naiveReplies: seq<Reply>)
    requires minPrice <= maxPrice
    ensures Engine.Valid(Fresh(minPrice, maxPrice - minPrice + 1))
    ensures fast.Idle() && naive.Idle()
    ensures fastReplies == naiveReplies == Replies(Fresh(minPrice, maxPrice - minPrice + 1), ops)
    ensures fast.tape == naive.tape
    ensures fast.Abs() == naive.Abs() == Run(Fresh(minPrice, maxPrice - minPrice + 1), ops)
  {
    hide MatchingEngine.Abs, ReferenceEngine.Abs, MatchingEngine.Idle, ReferenceEngine.Idle, Step, Engine.Valid,
      Fresh, Run, Replies;
    ghost var start := Fresh(minPrice, maxPrice - minPrice + 1);
    FreshIsSafe(minPrice, maxPrice - minPrice + 1);
    RunNothing(start);
    fast := new MatchingEngine(minPrice, maxPrice);
    naive := new ReferenceEngine(minPrice, maxPrice);
    fastReplies, naiveReplies := [], [];
    for i := 0 to |ops|
      invariant fast.Idle() && naive.Idle() && fresh(fast) && fresh(fast.Repr()) && fresh(naive)
      invariant naive !in fast.Repr()
      invariant fast.Abs() == naive.Abs() == Run(start, ops[..i])
      invariant fastReplies == naiveReplies == Replies(start, ops[..i])
    {
      RunPush(start, ops[..i], ops[i]);
      assert ops[..i + 1] == ops[..i] + [ops[i]];
      var a := fast.Apply(ops[i]);
      var b := naive.Apply(ops[i]);
      fastReplies, naiveReplies := fastReplies + [a], naiveReplies + [b];
    }
    assert ops[..|ops|] == ops;
    TapesAgree(fast, naive);
  }

  lemma RunNothing(st: State)
    requires Engine.Valid(st)
    ensures Run(st, []) == st && Replies(st, []) == []
  {}

  lemma TapesAgree(fast: MatchingEngine, naive: ReferenceEngine)
    requires fast.Idle() && naive.Idle() && fast.Abs() == naive.Abs()
    ensures fast.tape == naive.tape
  {
    hide Engine.Valid;
  }
}
