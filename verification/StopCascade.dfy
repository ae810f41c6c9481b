/** The order in which one pump fires pending stops. */
module StopCascade {
  import opened Types
  import opened Ladders
  import opened Book
  import opened SweepLaws
  import opened Engine
  import opened Safety

  /** A stop fired from trigger tick `tick` while the last trade was `last`. */
  datatype Firing = Firing(side: Side, tick: nat, id: nat, last: int)

  /** The stops one pump fires, in order. */
  function Fired(st: State): seq<Firing>
    requires Valid(st)
    decreases PendingStops(st)
  {
    if st.halted || NextStop(st).None? then []
    else
      var p := NextStop(st).value;
      FireStopFrame(st, p);
      [Firing(p.shelf.side, p.tick, st.Get(p.shelf)[p.tick][0].id, st.last.value)] + Fired(FireStop(st, p))
  }

  /** Pending stops on side `s` are taken from this end: lowest buys, highest sells. */
  function FireSide(s: Side): Side { s.Opposite() }

  /** The first firing of a pump, and the state the rest of the pump starts from. */
  lemma FirstFiring(st: State, s: Side) returns (f: Firing, t: State)
    requires Valid(st) && Fired(st) != []
    ensures Valid(t) && t.width == st.width && t.min == st.min && PendingStops(t) < PendingStops(st)
    ensures Fired(st) == [f] + Fired(t) && Pump(st) == Pump(t)
    ensures var l := st.Get(Pending(f.side));
      && 0 <= f.tick < |l| && f.tick == Best(FireSide(f.side), l) && l[f.tick] != [] && l[f.tick][0].id == f.id
      && (if f.side.Buy? then f.last >= st.min + f.tick else f.last <= st.min + f.tick)
    ensures |st.Get(Pending(s))| == st.width
    ensures f.side == s ==> t.Get(Pending(s)) == st.Get(Pending(s))[f.tick := st.Get(Pending(s))[f.tick][1..]]
    ensures f.side != s ==> t.Get(Pending(s)) == st.Get(Pending(s))
  {
    hide State.ListedAt, StopsInBand, ExecuteStop;
    var p := NextStop(st).value;
    FireStopFrame(st, p);
    t := FireStop(st, p);
    f := Firing(p.shelf.side, p.tick, st.Get(p.shelf)[p.tick][0].id, st.last.value);
    assert p.shelf == Pending(p.shelf.side);
    assert Without(st.Get(p.shelf)[p.tick], 0) == st.Get(p.shelf)[p.tick][1..];
    assert s == Buy || s == Sell;
  }

  /** Every fired stop was armed by the last trade at that moment. */
  lemma {:induction false} FiredWereArmed(st: State, n: nat)
    requires Valid(st) && n < |Fired(st)|
    ensures var f := Fired(st)[n];
      if f.side.Buy? then f.last >= st.min + f.tick else f.last <= st.min + f.tick
    decreases PendingStops(st)
  {
    hide Valid, Fired, NextStop, Pump, PendingStops, State.Get, State.Indexed, Best;
    var f, t := FirstFiring(st, Buy);
    if n > 0 { FiredWereArmed(t, n - 1); }
  }

  lemma {:induction false} FiredBehindBest(st: State, n: nat)
    requires Valid(st) && n < |Fired(st)|
    ensures var f := Fired(st)[n]; var b := Best(FireSide(f.side), st.Get(Pending(f.side)));
      b >= 0 && !Beats(FireSide(f.side), f.tick, b)
    decreases PendingStops(st)
  {
    hide Valid, Fired, NextStop, Pump, PendingStops, State.Get, State.Indexed, Best;
    var s := Fired(st)[n].side;
    var f, t := FirstFiring(st, s);
    if n > 0 {
      FiredBehindBest(t, n - 1);
      BestOnlyWorsens(FireSide(s), st.Get(Pending(s)), t.Get(Pending(s)));
    }
  }

  /** Within one pump buy triggers never go down and sell triggers never go up. */
  lemma {:induction false} CascadeInTriggerOrder(st: State, m: nat, n: nat)
    requires Valid(st) && m < n < |Fired(st)| && Fired(st)[m].side == Fired(st)[n].side
    ensures if Fired(st)[m].side.Buy? then Fired(st)[m].tick <= Fired(st)[n].tick
            else Fired(st)[m].tick >= Fired(st)[n].tick
    decreases PendingStops(st)
  {
    hide Valid, Fired, NextStop, Pump, PendingStops, State.Get, State.Indexed, Best;
    var f, t := FirstFiring(st, Buy);
    if m > 0 { CascadeInTriggerOrder(t, m - 1, n - 1); } else { FiredBehindBest(st, n); }
  }

  function IdsOf(q: Queue): seq<nat> {
    if q == [] then [] else [q[0].id] + IdsOf(q[1..])
  }

  /** The ids fired from one trigger level, in order. */
  function FiredFrom(fs: seq<Firing>, s: Side, tick: nat): seq<nat> {
    if fs == [] then []
    else (if fs[0].side == s && fs[0].tick == tick then [fs[0].id] else []) + FiredFrom(fs[1..], s, tick)
  }

  /** Each trigger level is served first in, first out, and nothing else leaves it:
      what fired, followed by what is still pending, is the original queue. */
  lemma {:induction false} CascadeIsFifo(st: State, s: Side, tick: nat)
    requires Valid(st) && tick < st.width
    ensures Valid(Pump(st)) && Pump(st).width == st.width
    ensures FiredFrom(Fired(st), s, tick) + IdsOf(Pump(st).Get(Pending(s))[tick]) == IdsOf(st.Get(Pending(s))[tick])
    decreases PendingStops(st)
  {
    hide Valid, Fired, NextStop, Pump, PendingStops, State.Get, State.Indexed, Best;
    PumpSettles(st);
    if Fired(st) == [] {
      NothingFired(st);
    } else {
      var f, t := FirstFiring(st, s);
      CascadeIsFifo(t, s, tick);
      assert Fired(st)[1..] == Fired(t);
    }
  }

  lemma NothingFired(st: State)
    requires Valid(st) && Fired(st) == []
    ensures Pump(st) == st && |st.Get(Pending(Buy))| == |st.Get(Pending(Sell))| == st.width
  {}
}
