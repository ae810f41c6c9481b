/** The single-producer single-consumer ring as a two-thread step system, with the
    replay tool's two loops and shutdown flag as the threads' programs. */
module SpscRing {

  /** Machine indices wrap here. */
  const WRAP: nat := 0x1_0000_0000_0000_0000

  function Word(n: int): nat { n % WRAP }

  /** A power-of-two capacity divides the wrap-around; masking an index is `%` by it. */
  predicate Capacity(c: nat) { 0 < c < WRAP && WRAP % c == 0 }

  /** Where the feeder stands in `while (!try_push(v)) {}` and after its loop. */
  datatype Producer = Begin | Refresh | Write | Publish | SetDone | Finished

  /** Where the consumer stands in try_pop and in the exit test behind a failed one. */
  datatype Consumer<T> = Begin | Refresh | Read | Advance(value: T) | TestDone | TestEmpty | Exited

  /** `todo` is what the feeder has still to push. `pushed`, `popped`, `seenTail` and
      `seenHead` record history: the unwrapped values behind the four index words. */
  datatype System<T> = System(
    head: nat, tail: nat, buf: seq<T>, done: bool,
    cachedTail: nat, producer: Producer, todo: seq<T>,
    cachedHead: nat, consumer: Consumer<T>,
    pushed: seq<T>, popped: seq<T>, seenTail: nat, seenHead: nat)

  function Start<T>(buf: seq<T>, feed: seq<T>): System<T> {
    System(0, 0, buf, false, 0, Producer.Begin, feed, 0, Consumer.Begin, [], [], 0, 0)
  }

  /** One atomic access of the feeder thread; a full ring sends it round again. */
  function Feed<T>(s: System<T>): System<T>
    requires |s.buf| > 0
  {
    match s.producer
    case Begin =>
      if s.todo == [] then s.(producer := SetDone)
      else if Word(s.head - s.cachedTail) == |s.buf| then s.(producer := Producer.Refresh)
      else s.(producer := Write)
    case Refresh =>
      var r := s.(cachedTail := s.tail, seenTail := |s.popped|);
      if Word(r.head - r.cachedTail) == |r.buf| then r.(producer := Producer.Begin) else r.(producer := Write)
    case Write =>
      if s.todo == [] then s else s.(buf := s.buf[s.head % |s.buf| := s.todo[0]], producer := Publish)
    case Publish =>
      if s.todo == [] then s
      else s.(head := Word(s.head + 1), pushed := s.pushed + [s.todo[0]], todo := s.todo[1..],
        producer := Producer.Begin)
    case SetDone => s.(done := true, producer := Finished)
    case Finished => s
  }

  /** One atomic access of the consumer thread. */
  function Drain<T>(s: System<T>): System<T>
    requires |s.buf| > 0
  {
    match s.consumer
    case Begin => if s.tail == s.cachedHead then s.(consumer := Consumer.Refresh) else s.(consumer := Read)
    case Refresh =>
      var r := s.(cachedHead := s.head, seenHead := |s.pushed|);
      if r.tail == r.cachedHead then r.(consumer := TestDone) else r.(consumer := Read)
    case Read => s.(consumer := Advance(s.buf[s.tail % |s.buf|]))
    case Advance(v) => s.(tail := Word(s.tail + 1), popped := s.popped + [v], consumer := Consumer.Begin)
    case TestDone => if s.done then s.(consumer := TestEmpty) else s.(consumer := Consumer.Begin)
    case TestEmpty => if Word(s.head - s.tail) == 0 then s.(consumer := Exited) else s.(consumer := Consumer.Begin)
    case Exited => s
  }

  /** Any interleaving: `true` steps the feeder, `false` the consumer. */
  function Interleave<T>(s: System<T>, turns: seq<bool>): System<T>
    requires |s.buf| > 0
    decreases |turns|
  {
    if turns == [] then s
    else
      StepKeepsBuffer(s);
      Interleave(if turns[0] then Feed(s) else Drain(s), turns[1..])
  }

  lemma StepKeepsBuffer<T>(s: System<T>)
    requires |s.buf| > 0
    ensures |Feed(s).buf| == |s.buf| && |Drain(s).buf| == |s.buf|
  {}

  // ---- the invariant --------------------------------------------------

  /** The index chain, also under wrap-around. */
  ghost predicate Indices<T>(s: System<T>) {
    && Capacity(|s.buf|)
    && s.head == Word(|s.pushed|) && s.tail == Word(|s.popped|)
    && s.cachedTail == Word(s.seenTail) && s.cachedHead == Word(s.seenHead)
    && s.seenTail <= |s.popped| <= s.seenHead <= |s.pushed| <= s.seenTail + |s.buf|
  }

  /** Nothing unread is overwritten, and reading is in order. */
  ghost predicate Contents<T>(s: System<T>)
    requires |s.buf| > 0
  {
    && s.popped <= s.pushed
    && (forall i {:trigger s.pushed[i]} :: |s.popped| <= i < |s.pushed| ==> s.buf[i % |s.buf|] == s.pushed[i])
  }

  ghost predicate Programs<T>(s: System<T>, feed: seq<T>)
    requires |s.buf| > 0
  {
    && s.pushed + s.todo == feed
    && (s.producer.Refresh? || s.producer.Write? || s.producer.Publish? ==> s.todo != [])
    && (s.producer.Write? || s.producer.Publish? ==> |s.pushed| < s.seenTail + |s.buf|)
    && (s.producer.Publish? ==> s.buf[|s.pushed| % |s.buf|] == s.todo[0])
    && (s.producer.SetDone? || s.producer.Finished? ==> s.todo == [])
    && (s.done <==> s.producer.Finished?)
    && (s.consumer.Read? ==> |s.popped| < s.seenHead)
    && (s.consumer.Advance? ==>
      |s.popped| < s.seenHead && |s.popped| < |s.pushed| && s.consumer.value == s.pushed[|s.popped|])
    && (s.consumer.TestEmpty? ==> s.done)
    && (s.consumer.Exited? ==> s.done && |s.popped| == |s.pushed|)
  }

  ghost predicate Inv<T>(s: System<T>, feed: seq<T>) {
    Indices(s) && Contents(s) && Programs(s, feed)
  }

  // ---- arithmetic of wrapped indices ----------------------------------

  lemma WordsDiffer(a: nat, b: nat)
    requires b <= a < b + WRAP
    ensures Word(Word(a) - Word(b)) == a - b
    ensures Word(a) == Word(b) <==> a == b
  {
    var qa, qb := a / WRAP, b / WRAP;
    assert a == qa * WRAP + Word(a) && b == qb * WRAP + Word(b);
    assert Word(a) - Word(b) == (a - b) - (qa - qb) * WRAP;
    ModShift(a - b, qa - qb);
  }

  lemma ModShift(d: nat, k: int)
    requires d < WRAP
    ensures Word(d - k * WRAP) == d
  {}

  lemma WordNext(a: nat)
    ensures Word(Word(a) + 1) == Word(a + 1)
  {}

  /** The slot of a wrapped index is the slot of the index itself. */
  lemma SlotOfWord(a: nat, c: nat)
    requires Capacity(c)
    ensures Word(a) % c == a % c
  {
    var q, k := a / WRAP, WRAP / c;
    assert WRAP == k * c;
    assert a == Word(a) + q * WRAP;
    Multiple(q, k, c);
    ModPlus(Word(a), q * k, c);
  }

  lemma Multiple(q: nat, k: nat, c: nat)
    ensures q * (k * c) == (q * k) * c
  {}

  lemma {:induction false} ModPlus(a: nat, k: nat, c: nat)
    requires c > 0
    ensures (a + k * c) % c == a % c
    decreases k
  {
    if k > 0 {
      ModPlus(a, k - 1, c);
      assert a + k * c == (a + (k - 1) * c) + c;
      ModOnce(a + (k - 1) * c, c);
    }
  }

  lemma ModOnce(x: nat, c: nat)
    requires c > 0
    ensures (x + c) % c == x % c
  {
    var q, r := x / c, x % c;
    assert x + c == (q + 1) * c + r;
    DivIs(x + c, q + 1, r, c);
  }

  lemma AtLeastOnce(k: int, c: nat)
    requires k > 0
    ensures k * c >= c
  {}

  lemma Difference(a: int, b: int, c: nat)
    ensures (a - b) * c == a * c - b * c
  {}

  lemma DivIs(x: nat, q: nat, r: nat, c: nat)
    requires c > 0 && r < c && x == q * c + r
    ensures x % c == r
  {
    var q', r' := x / c, x % c;
    assert x == q' * c + r';
    Difference(q, q', c);
    Difference(q', q, c);
    if q > q' { AtLeastOnce(q - q', c); }
    if q < q' { AtLeastOnce(q' - q, c); }
  }

  /** Two indices less than a capacity apart use different slots. */
  lemma SlotsDiffer(a: nat, b: nat, c: nat)
    requires c > 0 && a < b < a + c
    ensures a % c != b % c
  {
    var qa, qb := a / c, b / c;
    assert a == qa * c + a % c && b == qb * c + b % c;
    if a % c == b % c {
      Difference(qb, qa, c);
      if qb > qa { AtLeastOnce(qb - qa, c); }
      if qb < qa { AtLeastOnce(qa - qb, c); Difference(qa, qb, c); }
    }
  }

  // ---- every step keeps it --------------------------------------------

  /** A full test on the words is a full test on the counts. */
  lemma FullIs(h: nat, t: nat, c: nat)
    requires Capacity(c) && t <= h <= t + c
    ensures Word(Word(h) - Word(t)) == c <==> h == t + c
  {
    WordsDiffer(h, t);
  }

  lemma SlotIsFree<T>(s: System<T>, i: nat)
    requires Indices(s) && |s.pushed| < s.seenTail + |s.buf| && |s.popped| <= i < |s.pushed|
    ensures i % |s.buf| != |s.pushed| % |s.buf|
  {
    SlotsDiffer(i, |s.pushed|, |s.buf|);
  }

  /** The slot about to be written holds nothing unread. */
  lemma WriteKeepsContents<T>(s: System<T>)
    requires Indices(s) && Contents(s) && |s.pushed| < s.seenTail + |s.buf| && s.todo != []
    ensures s.head % |s.buf| == |s.pushed| % |s.buf|
    ensures Contents(s.(buf := s.buf[s.head % |s.buf| := s.todo[0]]))
  {
    SlotOfWord(|s.pushed|, |s.buf|);
    var t := s.(buf := s.buf[s.head % |s.buf| := s.todo[0]]);
    forall i {:trigger s.pushed[i]} | |s.popped| <= i < |s.pushed| ensures t.buf[i % |t.buf|] == t.pushed[i] {
      SlotIsFree(s, i);
      assert s.buf[i % |s.buf|] == s.pushed[i];
    }
  }

  lemma FeedKeepsInv<T>(s: System<T>, feed: seq<T>)
    requires Inv(s, feed)
    ensures Inv(Feed(s), feed)
  {
    hide Word;
    match s.producer {
      case Begin => FullIs(|s.pushed|, s.seenTail, |s.buf|);
      case Refresh => FullIs(|s.pushed|, |s.popped|, |s.buf|);
      case Write => WriteKeepsContents(s);
      case Publish =>
        WordNext(|s.pushed|);
        assert s.pushed + [s.todo[0]] + s.todo[1..] == s.pushed + s.todo;
      case SetDone =>
      case Finished =>
    }
  }

  lemma DrainKeepsInv<T>(s: System<T>, feed: seq<T>)
    requires Inv(s, feed)
    ensures Inv(Drain(s), feed)
  {
    hide Word;
    match s.consumer {
      case Begin => WordsDiffer(s.seenHead, |s.popped|);
      case Refresh => WordsDiffer(|s.pushed|, |s.popped|);
      case Read =>
        SlotOfWord(|s.popped|, |s.buf|);
        assert s.buf[|s.popped| % |s.buf|] == s.pushed[|s.popped|];
      case Advance(v) => WordNext(|s.popped|);
      case TestDone =>
      case TestEmpty => WordsDiffer(|s.pushed|, |s.popped|);
      case Exited =>
    }
  }

  lemma {:induction false} InterleavingKeepsInv<T>(s: System<T>, feed: seq<T>, turns: seq<bool>)
    requires Inv(s, feed)
    ensures Inv(Interleave(s, turns), feed)
    decreases |turns|
  {
    hide Inv;
    assert |s.buf| > 0 by { RingIsReal(s, feed); }
    if turns != [] {
      StepKeepsBuffer(s);
      FeedKeepsInv(s, feed);
      DrainKeepsInv(s, feed);
      InterleavingKeepsInv(if turns[0] then Feed(s) else Drain(s), feed, turns[1..]);
    }
  }

  lemma RingIsReal<T>(s: System<T>, feed: seq<T>)
    requires Inv(s, feed)
    ensures |s.buf| > 0
  {}

  /** Over every interleaving: the index chain holds, what was popped is a prefix of
      what was pushed, which is a prefix of the feed, at most a ringful lies between
      them, and every unread value is still in its slot. */
  lemma EveryInterleavingIsFifo<T>(buf: seq<T>, feed: seq<T>, turns: seq<bool>)
    requires Capacity(|buf|)
    ensures var s := Interleave(Start(buf, feed), turns);
      && Indices(s) && s.popped <= s.pushed <= feed && |s.pushed| - |s.popped| <= |buf|
      && (forall i {:trigger s.pushed[i]} :: |s.popped| <= i < |s.pushed| ==> s.buf[i % |s.buf|] == s.pushed[i])
  {
    InterleavingKeepsInv(Start(buf, feed), feed, turns);
    BufferSize(Start(buf, feed), turns);
  }

  lemma {:induction false} BufferSize<T>(s: System<T>, turns: seq<bool>)
    requires |s.buf| > 0
    ensures |Interleave(s, turns).buf| == |s.buf|
    decreases |turns|
  {
    if turns != [] {
      StepKeepsBuffer(s);
      BufferSize(if turns[0] then Feed(s) else Drain(s), turns[1..]);
    }
  }

  /** The consumer's loop ends only after it has popped everything the feeder had to push. */
  lemma ExitMeansAllPopped<T>(buf: seq<T>, feed: seq<T>, turns: seq<bool>)
    requires Capacity(|buf|)
    ensures Interleave(Start(buf, feed), turns).consumer.Exited? ==> Interleave(Start(buf, feed), turns).popped == feed
  {
    InterleavingKeepsInv(Start(buf, feed), feed, turns);
  }

  // ---- the shutdown completes -----------------------------------------

  /** Consumer steps left, at most, once the feeder has finished. A pop that failed
      before the last push leaves the exit test stale; it then goes round again. */
  function Distance<T>(s: System<T>): nat
    requires |s.popped| <= |s.pushed|
  {
    var left := |s.pushed| - |s.popped|;
    match s.consumer
    case Exited => 0
    case TestEmpty => if left == 0 then 1 else 5 + 4 * left
    case TestDone => if left == 0 then 2 else 6 + 4 * left
    case Advance(_) => 1 + 4 * left
    case Read => 2 + 4 * left
    case Refresh => 3 + 4 * left
    case Begin => 4 + 4 * left
  }

  lemma DrainGetsNearer<T>(s: System<T>, feed: seq<T>)
    requires Inv(s, feed) && s.done && !s.consumer.Exited?
    ensures Inv(Drain(s), feed) && Drain(s).done && Distance(Drain(s)) < Distance(s)
  {
    hide Word;
    DrainKeepsInv(s, feed);
    WordsDiffer(|s.pushed|, |s.popped|);
    WordsDiffer(s.seenHead, |s.popped|);
  }

  function ConsumerTurns(turns: seq<bool>): nat {
    if turns == [] then 0 else (if turns[0] then 0 else 1) + ConsumerTurns(turns[1..])
  }

  /** Once the done flag is up, any schedule that runs the consumer often enough ends
      its loop, with the whole feed popped. */
  lemma {:induction false} ShutdownCompletes<T>(s: System<T>, feed: seq<T>, turns: seq<bool>)
    requires Inv(s, feed) && s.done && ConsumerTurns(turns) >= Distance(s)
    ensures Interleave(s, turns).consumer.Exited? && Interleave(s, turns).popped == feed
    decreases |turns|
  {
    hide Word;
    if turns != [] {
      StepKeepsBuffer(s);
      FeedKeepsInv(s, feed);
      if s.consumer.Exited? {
        DrainKeepsInv(s, feed);
      } else {
        DrainGetsNearer(s, feed);
      }
      ShutdownCompletes(if turns[0] then Feed(s) else Drain(s), feed, turns[1..]);
    }
  }

  // ---- both threads, to the end ---------------------------------------

  /** The feeder has a value to push and finds the ring full. */
  predicate Blocked<T>(s: System<T>)
    requires |s.popped| <= |s.pushed|
  {
    s.todo != [] && |s.pushed| - |s.popped| == |s.buf|
  }

  /** Feeder steps to its next push, or to the done flag, while it is not blocked. */
  function FeederSteps<T>(s: System<T>): nat {
    match s.producer
    case Begin => if s.todo == [] then 2 else 4
    case Refresh => 3
    case Write => 2
    case Publish => 1
    case SetDone => 1
    case Finished => 0
  }

  /** Consumer steps to its next pop while the ring is not empty. */
  function ConsumerSteps<T>(s: System<T>): nat {
    match s.consumer
    case Advance(_) => 1
    case Read => 2
    case Refresh => 3
    case Begin => 4
    case TestEmpty => 5
    case TestDone => 6
    case Exited => 0
  }

  /** How far the system is from the end: pushes, pops and the flag still to come, then
      the steps of the thread whose turn is needed next. */
  function Remaining<T>(s: System<T>): nat
    requires |s.popped| <= |s.pushed|
  {
    if s.done then Distance(s)
    else
      7 * (2 * |s.todo| + (|s.pushed| - |s.popped|) + 1) + (if Blocked(s) then ConsumerSteps(s) else FeederSteps(s))
  }

  /** The thread that can bring the end nearer: `true` for the feeder. */
  predicate FeederNeeded<T>(s: System<T>)
    requires |s.popped| <= |s.pushed|
  {
    !s.done && !Blocked(s)
  }

  lemma FeedRemaining<T>(s: System<T>, feed: seq<T>)
    requires Inv(s, feed)
    ensures Inv(Feed(s), feed) && Remaining(Feed(s)) <= Remaining(s)
    ensures FeederNeeded(s) ==> Remaining(Feed(s)) < Remaining(s)
    ensures Remaining(Feed(s)) == Remaining(s) ==> FeederNeeded(Feed(s)) == FeederNeeded(s)
    ensures s.consumer.Exited? ==> Feed(s).consumer.Exited?
  {
    hide Word;
    FeedKeepsInv(s, feed);
    FullIs(|s.pushed|, s.seenTail, |s.buf|);
    FullIs(|s.pushed|, |s.popped|, |s.buf|);
  }

  lemma DrainRemaining<T>(s: System<T>, feed: seq<T>)
    requires Inv(s, feed)
    ensures Inv(Drain(s), feed) && Remaining(Drain(s)) <= Remaining(s)
    ensures !FeederNeeded(s) && !s.consumer.Exited? ==> Remaining(Drain(s)) < Remaining(s)
    ensures Remaining(Drain(s)) == Remaining(s) ==> FeederNeeded(Drain(s)) == FeederNeeded(s)
    ensures s.consumer.Exited? ==> Drain(s).consumer.Exited?
  {
    hide Word;
    DrainKeepsInv(s, feed);
    WordsDiffer(|s.pushed|, |s.popped|);
    WordsDiffer(s.seenHead, |s.popped|);
  }

  /** A stretch of the schedule in which both threads run brings the end nearer. */
  lemma {:induction false} RoundGetsNearer<T>(s: System<T>, feed: seq<T>, turns: seq<bool>)
    requires Inv(s, feed)
    ensures |s.buf| > 0
    ensures var t := Interleave(s, turns);
      && Inv(t, feed) && Remaining(t) <= Remaining(s)
      && (FeederNeeded(s) in turns && !t.consumer.Exited? ==> Remaining(t) < Remaining(s))
      && (s.consumer.Exited? ==> t.consumer.Exited?)
    decreases |turns|
  {
    hide Inv, Remaining, FeederNeeded, Feed, Drain;
    RingIsReal(s, feed);
    if turns != [] {
      StepKeepsBuffer(s);
      FeedRemaining(s, feed);
      DrainRemaining(s, feed);
      RoundGetsNearer(if turns[0] then Feed(s) else Drain(s), feed, turns[1..]);
    }
  }

  function Flatten(rounds: seq<seq<bool>>): seq<bool> {
    if rounds == [] then [] else rounds[0] + Flatten(rounds[1..])
  }

  /** Both threads run in every stretch. */
  predicate Fair(rounds: seq<seq<bool>>) { forall r :: r in rounds ==> true in r && false in r }

  lemma {:induction false} InterleaveSplit<T>(s: System<T>, a: seq<bool>, b: seq<bool>)
    requires |s.buf| > 0
    ensures |Interleave(s, a).buf| > 0 && Interleave(s, a + b) == Interleave(Interleave(s, a), b)
    decreases |a|
  {
    hide Feed, Drain;
    if a == [] {
      assert a + b == b;
    } else {
      StepKeepsBuffer(s);
      assert (a + b)[1..] == a[1..] + b;
      InterleaveSplit(if a[0] then Feed(s) else Drain(s), a[1..], b);
    }
  }

  lemma {:induction false} FairRunsEnd<T>(s: System<T>, feed: seq<T>, rounds: seq<seq<bool>>)
    requires Inv(s, feed) && Fair(rounds) && |rounds| >= Remaining(s)
    ensures |s.buf| > 0
    ensures Inv(Interleave(s, Flatten(rounds)), feed) && Interleave(s, Flatten(rounds)).consumer.Exited?
    decreases |rounds|
  {
    hide Inv, Remaining, Interleave;
    RingIsReal(s, feed);
    if rounds == [] {
      NothingRemains(s, feed);
    } else {
      assert rounds[0] in rounds && forall r :: r in rounds[1..] ==> r in rounds;
      RoundGetsNearer(s, feed, rounds[0]);
      InterleaveSplit(s, rounds[0], Flatten(rounds[1..]));
      var t := Interleave(s, rounds[0]);
      if t.consumer.Exited? {
        RoundGetsNearer(t, feed, Flatten(rounds[1..]));
      } else {
        FairRunsEnd(t, feed, rounds[1..]);
      }
    }
  }

  lemma NothingRemains<T>(s: System<T>, feed: seq<T>)
    requires Inv(s, feed) && Remaining(s) == 0
    ensures s.consumer.Exited? && Interleave(s, []) == s
  {}

  /** End to end: any schedule that can be cut into enough stretches in each of which both
      threads run ends the consumer's loop, with the whole feed popped. */
  lemma FairScheduleDeliversAll<T>(buf: seq<T>, feed: seq<T>, rounds: seq<seq<bool>>)
    requires Capacity(|buf|) && Fair(rounds) && |rounds| >= 14 * |feed| + 11
    ensures var t := Interleave(Start(buf, feed), Flatten(rounds)); t.consumer.Exited? && t.popped == feed
  {
    FairRunsEnd(Start(buf, feed), feed, rounds);
  }

  // ---- the ring as an object ------------------------------------------

  class Ring<T(0)> {
    const capacity: nat
    const buf: array<T>
    var head: nat
    var tail: nat
    var cachedTail: nat
    var cachedHead: nat
    /** Everything pushed and popped so far. */
    ghost var pushed: seq<T>
    ghost var popped: seq<T>
    ghost var seenTail: nat
    ghost var seenHead: nat

    ghost predicate Valid()
      reads this, buf
    {
      && Capacity(capacity) && buf.Length == capacity
      && head == Word(|pushed|) && tail == Word(|popped|)
      && cachedTail == Word(seenTail) && cachedHead == Word(seenHead)
      && seenTail <= |popped| <= seenHead <= |pushed| <= seenTail + capacity
      && popped <= pushed
      && (forall i {:trigger pushed[i]} :: |popped| <= i < |pushed| ==> buf[i % capacity] == pushed[i])
    }

    /** What is in the ring, oldest first. */
    ghost function Contents(): seq<T>
      requires |popped| <= |pushed|
      reads this
    {
      pushed[|popped|..]
    }

    constructor (c: nat)
      requires Capacity(c)
      ensures Valid() && fresh(buf) && capacity == c && Contents() == []
    {
      capacity := c;
      buf := new T[c];
      head, tail, cachedTail, cachedHead := 0, 0, 0, 0;
      pushed, popped, seenTail, seenHead := [], [], 0, 0;
    }

    /** Fails exactly when the ring is full; the cached tail is refreshed only on apparent fullness. */
    method TryPush(v: T) returns (ok: bool)
      requires Valid()
      modifies this`head, this`cachedTail, this`pushed, this`seenTail, buf
      ensures Valid()
      ensures ok == (|old(Contents())| < capacity)
      ensures Contents() == if ok then old(Contents()) + [v] else old(Contents())
    {
      hide Word;
      FullIs(|pushed|, seenTail, capacity);
      FullIs(|pushed|, |popped|, capacity);
      if Word(head - cachedTail) == capacity {
        cachedTail, seenTail := tail, |popped|;
        if Word(head - cachedTail) == capacity { return false; }
      }
      Store(v);
      WordNext(|pushed|);
      head := Word(head + 1);
      pushed := pushed + [v];
      return true;
    }

    /** Writes the slot behind the newest value; nothing unread is there. */
    method Store(v: T)
      requires Valid() && |pushed| < |popped| + capacity
      modifies buf
      ensures Valid() && buf[|pushed| % capacity] == v
    {
      hide Word;
      SlotOfWord(|pushed|, capacity);
      ghost var slots := buf[..];
      buf[head % capacity] := v;
      forall i {:trigger pushed[i]} | |popped| <= i < |pushed| ensures buf[i % capacity] == pushed[i] {
        SlotsDiffer(i, |pushed|, capacity);
        assert slots[i % capacity] == pushed[i];
      }
    }

    /** Fails exactly when the ring is empty, else hands out its oldest value. */
    method TryPop(dflt: T) returns (ok: bool, v: T)
      requires Valid()
      modifies this`tail, this`cachedHead, this`popped, this`seenHead
      ensures Valid()
      ensures ok == (old(Contents()) != [])
      ensures ok ==> old(Contents()) == [v] + Contents()
      ensures !ok ==> v == dflt && Contents() == old(Contents())
    {
      hide Word;
      WordsDiffer(seenHead, |popped|);
      WordsDiffer(|pushed|, |popped|);
      if tail == cachedHead {
        cachedHead, seenHead := head, |pushed|;
        if tail == cachedHead { return false, dflt; }
      }
      SlotOfWord(|popped|, capacity);
      v := buf[tail % capacity];
      assert v == pushed[|popped|];
      WordNext(|popped|);
      tail := Word(tail + 1);
      popped := popped + [v];
      return true, v;
    }
  }
}
