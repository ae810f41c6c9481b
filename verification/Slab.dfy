/** The slab: pooled order nodes, linked into one FIFO per level by slot number, with the
    id table and the side table of icebergs and stop-limits. */
module Slabs {
  import opened Types
  import opened Ladders
  import opened Book
  import opened Pools

  /** The null pointer. */
  const NIL: int := -1

  /** A node. `stop`, `side` and `tick` say which level it stands at; `ext` is its slot in
      the side table, or NIL. */
  datatype Cell = Cell(id: nat, stop: bool, side: Side, tick: nat, qty: nat, prev: int, next: int, ext: int,
                       owner: nat, stp: StpPolicy, iceberg: bool, market: bool)
  {
    function At(): Place { Place(Shelf(stop, side), tick) }

    /** Icebergs and stop-limits have state in the side table. */
    predicate Cold() { iceberg || (stop && !market) }
  }

  datatype Extra = Extra(reserve: nat, peak: nat, limit: int)

  const BLANK_EXTRA := Extra(0, 0, 0)
  const BLANK_CELL := Cell(0, false, Buy, 0, 0, NIL, NIL, NIL, 0, CancelTaker, false, false)

  /** Head and tail of a level's list. */
  datatype Ends = Ends(head: int, tail: int)

  // ---- what a node means ----------------------------------------------

  function Meaning(c: Cell, extras: seq<Extra>): Node {
    var x := if 0 <= c.ext < |extras| then extras[c.ext] else BLANK_EXTRA;
    Node(c.id, c.qty, c.owner, c.stp, if c.iceberg then x.reserve else 0, if c.iceberg then x.peak else 0, c.market,
         if c.stop && !c.market then x.limit else 0)
  }

  /** An order the node format can hold at place `p`. */
  predicate Storable(p: Place, o: Order) {
    if p.shelf.stop then o.peak == 0 && (o.market ==> o.limit == 0) else !o.market && o.limit == 0
  }

  function CellOf(p: Place, o: Order, ext: int): Cell {
    Cell(o.id, p.shelf.stop, p.shelf.side, p.tick, o.qty, NIL, NIL, ext, o.owner, o.stp, o.peak > 0, o.market)
  }

  lemma CellMeans(p: Place, o: Order, ext: int, extras: seq<Extra>)
    requires Storable(p, o)
    requires CellOf(p, o, ext).Cold() ==> 0 <= ext < |extras| && extras[ext] == Extra(o.reserve, o.peak, o.limit)
    ensures Meaning(CellOf(p, o, ext), extras) == o && CellOf(p, o, ext).At() == p
  {}

  // ---- one list -------------------------------------------------------

  function Nth(s: seq<nat>, k: int): int { if 0 <= k < |s| then s[k] else NIL }

  /** Both links of the node at position `k`. */
  ghost predicate LinkedAt(cells: seq<Cell>, s: seq<nat>, k: int)
    requires 0 <= k < |s|
  {
    s[k] < |cells| && cells[s[k]].prev == Nth(s, k - 1) && cells[s[k]].next == Nth(s, k + 1)
  }

  /** The slots of `s` form a doubly linked list with ends `e`. */
  ghost predicate Linked(cells: seq<Cell>, s: seq<nat>, e: Ends) {
    && Unique(s) && e == Ends(Nth(s, 0), Nth(s, |s| - 1))
    && forall k :: 0 <= k < |s| ==> LinkedAt(cells, s, k)
  }

  /** Links aside, nothing changed. */
  ghost predicate SameCells(a: seq<Cell>, b: seq<Cell>) {
    |a| == |b| && forall x :: 0 <= x < |a| ==> b[x].(prev := a[x].prev, next := a[x].next) == a[x]
  }

  lemma LinkedElsewhere(a: seq<Cell>, b: seq<Cell>, s: seq<nat>, e: Ends)
    requires Linked(a, s, e) && |a| <= |b|
    requires forall k :: 0 <= k < |s| && s[k] < |a| ==> b[s[k]].prev == a[s[k]].prev && b[s[k]].next == a[s[k]].next
    ensures Linked(b, s, e)
  {
    forall k | 0 <= k < |s| ensures LinkedAt(b, s, k) { assert LinkedAt(a, s, k); }
  }

  /** The nodes once slot `x` hangs behind the tail of a list. */
  function Appended(cells: seq<Cell>, e: Ends, x: nat): (r: seq<Cell>)
    requires x < |cells| && NIL <= e.tail < |cells|
    ensures SameCells(cells, r)
  {
    if e.tail == NIL then cells
    else cells[e.tail := cells[e.tail].(next := x)][x := cells[e.tail := cells[e.tail].(next := x)][x].(prev := e.tail)]
  }

  lemma TailIs(cells: seq<Cell>, s: seq<nat>, e: Ends)
    requires Linked(cells, s, e)
    ensures NIL <= e.tail < |cells| && NIL <= e.head < |cells|
    ensures (e.tail == NIL <==> s == []) && (e.head == NIL <==> s == [])
    ensures s != [] ==> e.tail == s[|s| - 1] && e.head == s[0]
  {
    if s != [] { assert LinkedAt(cells, s, 0) && LinkedAt(cells, s, |s| - 1); }
  }

  lemma AppendedLinked(cells: seq<Cell>, s: seq<nat>, e: Ends, x: nat)
    requires Linked(cells, s, e) && x < |cells| && x !in s && cells[x].prev == NIL && cells[x].next == NIL
    ensures NIL <= e.tail < |cells|
    ensures Linked(Appended(cells, e, x), s + [x], Ends(if s == [] then x else e.head, x))
  {
    TailIs(cells, s, e);
    var b, t := Appended(cells, e, x), s + [x];
    forall k | 0 <= k < |t| ensures LinkedAt(b, t, k) {
      if k < |s| { assert LinkedAt(cells, s, k) && (k < |s| - 1 ==> s[k] != s[|s| - 1]); }
    }
  }

  function Cut(s: seq<nat>, k: nat): (t: seq<nat>)
    requires k < |s|
    ensures |t| == |s| - 1 && forall j :: 0 <= j < |t| ==> t[j] == s[if j < k then j else j + 1]
  {
    s[..k] + s[k + 1..]
  }

  /** The nodes once the neighbours of slot `x` bypass it. */
  function Bypassed(cells: seq<Cell>, x: nat): (r: seq<Cell>)
    requires x < |cells| && NIL <= cells[x].prev < |cells| && NIL <= cells[x].next < |cells|
    ensures SameCells(cells, r)
  {
    var c := cells[x];
    var b := if c.prev == NIL then cells else cells[c.prev := cells[c.prev].(next := c.next)];
    if c.next == NIL then b else b[c.next := b[c.next].(prev := c.prev)]
  }

  function BypassedEnds(c: Cell, e: Ends): Ends {
    Ends(if c.prev == NIL then c.next else e.head, if c.next == NIL then c.prev else e.tail)
  }

  lemma NeighboursAre(cells: seq<Cell>, s: seq<nat>, e: Ends, k: nat)
    requires Linked(cells, s, e) && k < |s|
    ensures s[k] < |cells| && NIL <= cells[s[k]].prev < |cells| && NIL <= cells[s[k]].next < |cells|
    ensures cells[s[k]].prev == Nth(s, k - 1) && cells[s[k]].next == Nth(s, k + 1)
  {
    assert LinkedAt(cells, s, k);
    if k > 0 { assert LinkedAt(cells, s, k - 1); }
    if k + 1 < |s| { assert LinkedAt(cells, s, k + 1); }
  }

  lemma BypassedLinked(cells: seq<Cell>, s: seq<nat>, e: Ends, k: nat)
    requires Linked(cells, s, e) && k < |s|
    ensures s[k] < |cells| && NIL <= cells[s[k]].prev < |cells| && NIL <= cells[s[k]].next < |cells|
    ensures Linked(Bypassed(cells, s[k]), Cut(s, k), BypassedEnds(cells[s[k]], e)) && s[k] !in Cut(s, k)
  {
    NeighboursAre(cells, s, e, k);
    var b, t := Bypassed(cells, s[k]), Cut(s, k);
    forall j | 0 <= j < |t| ensures LinkedAt(b, t, j) {
      BypassedAt(cells, s, e, k, if j < k then j else j + 1);
      assert Nth(t, j - 1) == Nth(s, if j - 1 < k then j - 1 else j);
      assert Nth(t, j + 1) == Nth(s, if j + 1 < k then j + 1 else j + 2);
    }
  }

  /** The links of the node at position `j` after the bypass of position `k`. */
  lemma BypassedAt(cells: seq<Cell>, s: seq<nat>, e: Ends, k: nat, j: nat)
    requires Linked(cells, s, e) && k < |s| && j < |s| && j != k
    requires s[k] < |cells| && NIL <= cells[s[k]].prev < |cells| && NIL <= cells[s[k]].next < |cells|
    ensures s[j] < |cells|
    ensures Bypassed(cells, s[k])[s[j]].prev == Nth(s, if j == k + 1 then k - 1 else j - 1)
    ensures Bypassed(cells, s[k])[s[j]].next == Nth(s, if j == k - 1 then k + 1 else j + 1)
  {
    NeighboursAre(cells, s, e, k);
    assert LinkedAt(cells, s, j);
  }

  // ---- the whole slab -------------------------------------------------

  type Chains = map<Place, seq<nat>>

  ghost predicate ChainAt(cells: seq<Cell>, s: seq<nat>, e: Ends, p: Place) {
    Linked(cells, s, e) && forall k :: 0 <= k < |s| ==> s[k] < |cells| && cells[s[k]].At() == p
  }

  /** Every level is a list of the nodes that say they stand there. */
  ghost predicate Chained(n: nat, cells: seq<Cell>, ends: map<Place, Ends>, chains: Chains) {
    forall p: Place :: p.tick < n ==> p in ends && p in chains && ChainAt(cells, chains[p], ends[p], p)
  }

  /** The slots handed out are exactly the linked ones. */
  ghost predicate Owned(n: nat, cells: seq<Cell>, chains: Chains, used: set<nat>) {
    && (forall p: Place, k :: p.tick < n && p in chains && 0 <= k < |chains[p]| ==> chains[p][k] in used)
    && (forall x :: x in used ==>
      x < |cells| && cells[x].tick < n && cells[x].At() in chains && x in chains[cells[x].At()])
  }

  /** The id table points to exactly the slots handed out, each under its own id. */
  ghost predicate Tabled(cells: seq<Cell>, orders: seq<int>, used: set<nat>) {
    && (forall id :: 0 <= id < |orders| && orders[id] != NIL ==>
          orders[id] in used && 0 <= orders[id] < |cells| && cells[orders[id]].id == id)
    && (forall x :: x in used ==> x < |cells| && cells[x].id < |orders| && orders[cells[x].id] == x)
  }

  /** Every slot of the side table is free, once, or held by one linked node. */
  ghost predicate Held(cells: seq<Cell>, extras: seq<Extra>, extraFree: seq<nat>, used: set<nat>,
                       holder: map<nat, nat>) {
    && Unique(extraFree)
    && (forall k :: 0 <= k < |extraFree| ==> extraFree[k] < |extras| && extraFree[k] !in holder)
    && (forall e :: e in holder ==>
      e < |extras| && holder[e] in used && holder[e] < |cells| && cells[holder[e]].ext == e)
    && (forall e :: 0 <= e < |extras| ==> e in holder || e in extraFree)
    && (forall x :: x in used ==> x < |cells|)
    && (forall x :: x in used ==>
          (if cells[x].Cold() then cells[x].ext in holder && holder[cells[x].ext] == x else cells[x].ext == NIL))
  }

  /** Every linked node shows something, and only icebergs hide anything. */
  ghost predicate Whole(cells: seq<Cell>, extras: seq<Extra>, used: set<nat>) {
    forall x :: x in used ==> x < |cells| && WellFormed(Meaning(cells[x], extras))
  }

  /** The FIFO a chain stands for. */
  ghost function QueueOf(cells: seq<Cell>, extras: seq<Extra>, s: seq<nat>): (q: Queue)
    requires forall k :: 0 <= k < |s| ==> s[k] < |cells| && WellFormed(Meaning(cells[s[k]], extras))
    ensures |q| == |s| && forall k :: 0 <= k < |s| ==> q[k] == Meaning(cells[s[k]], extras)
  {
    seq(|s|, k requires 0 <= k < |s| => Meaning(cells[s[k]], extras))
  }

  /** The nodes of `keep` are as they were but for their links. */
  ghost predicate Kept(a: seq<Cell>, b: seq<Cell>, keep: set<nat>) {
    |a| <= |b| && forall x :: x in keep ==> x < |a| && b[x].(prev := a[x].prev, next := a[x].next) == a[x]
  }

  /** Slot `x` is taken out of use or brought into use; the others stay. */
  lemma TabledKept(a: seq<Cell>, b: seq<Cell>, orders: seq<int>, used: set<nat>)
    requires Tabled(a, orders, used) && Kept(a, b, used)
    ensures Tabled(b, orders, used)
  {}

  lemma HeldKept(a: seq<Cell>, b: seq<Cell>, extras: seq<Extra>, extraFree: seq<nat>, used: set<nat>,
                 holder: map<nat, nat>)
    requires Held(a, extras, extraFree, used, holder) && Kept(a, b, used)
    ensures Held(b, extras, extraFree, used, holder)
  {
    forall x | x in used ensures b[x].Cold() == a[x].Cold() && b[x].ext == a[x].ext {}
  }

  // ---- a node joins ---------------------------------------------------

  /** A filled but unlinked slot `x` at place `p`. */
  ghost predicate Loose(cells: seq<Cell>, x: nat, p: Place) {
    x < |cells| && cells[x].At() == p && cells[x].prev == NIL && cells[x].next == NIL
  }

  lemma JoinChained(n: nat, a: seq<Cell>, b: seq<Cell>, ends: map<Place, Ends>, chains: Chains, used: set<nat>,
                    p: Place, x: nat)
    requires Chained(n, a, ends, chains) && Owned(n, a, chains, used) && p.tick < n
    requires x !in used && Loose(b, x, p) && |a| <= |b| && forall y :: 0 <= y < |a| && y != x ==> b[y] == a[y]
    ensures NIL <= ends[p].tail < |b|
    ensures var c := Appended(b, ends[p], x);
      && Chained(n, c, ends[p := Ends(if ends[p].tail == NIL then x else ends[p].head, x)],
        chains[p := chains[p] + [x]])
      && Owned(n, c, chains[p := chains[p] + [x]], used + {x}) && Kept(a, c, used)
  {
    var s, e := chains[p], ends[p];
    assert ChainAt(a, s, e, p);
    forall q: Place, k | q.tick < n && 0 <= k < |chains[q]| ensures chains[q][k] != x { assert chains[q][k] in used; }
    assert Linked(b, s, e) by { LinkedElsewhere(a, b, s, e); }
    TailIs(b, s, e);
    AppendedLinked(b, s, e, x);
    var c := Appended(b, e, x);
    var ends', chains' := ends[p := Ends(if e.tail == NIL then x else e.head, x)], chains[p := s + [x]];
    forall q: Place | q.tick < n ensures ChainAt(c, chains'[q], ends'[q], q) {
      assert ChainAt(a, chains[q], ends[q], q);
      if q != p {
        forall k | 0 <= k < |chains[q]| ensures c[chains[q][k]] == a[chains[q][k]] {
          if s != [] { assert a[s[|s| - 1]].At() == p; }
        }
        LinkedElsewhere(a, c, chains[q], ends[q]);
      } else {
        forall k | 0 <= k < |chains'[p]| ensures c[chains'[p][k]].At() == p {}
      }
    }
    JoinOwned(n, a, c, chains, used, p, x);
  }

  lemma JoinOwned(n: nat, a: seq<Cell>, c: seq<Cell>, chains: Chains, used: set<nat>, p: Place, x: nat)
    requires Owned(n, a, chains, used) && p.tick < n && p in chains && x !in used && x < |c| && c[x].At() == p
    requires Kept(a, c, used)
    ensures Owned(n, c, chains[p := chains[p] + [x]], used + {x})
  {
    var chains' := chains[p := chains[p] + [x]];
    forall y | y in used + {x}
      ensures y < |c| && c[y].tick < n && c[y].At() in chains' && y in chains'[c[y].At()]
    {
      if y != x {
        assert c[y].At() == a[y].At() && y in chains[a[y].At()];
      } else {
        assert chains'[p][|chains[p]|] == x;
      }
    }
  }

  /** A new node holds the side-table slot given to it, if it needs one. */
  lemma JoinHeld(a: seq<Cell>, c: seq<Cell>, extras: seq<Extra>, extraFree: seq<nat>, used: set<nat>,
                 holder: map<nat, nat>, x: nat)
    requires Held(a, extras, extraFree, used, holder) && Kept(a, c, used) && x !in used && x < |c|
    requires !c[x].Cold() && c[x].ext == NIL
    ensures Held(c, extras, extraFree, used + {x}, holder)
  {
    HeldKept(a, c, extras, extraFree, used, holder);
  }

  lemma JoinHeldCold(a: seq<Cell>, c: seq<Cell>, before: seq<Extra>, extras: seq<Extra>, freeBefore: seq<nat>,
                     extraFree: seq<nat>, used: set<nat>, holder: map<nat, nat>, x: nat, ext: nat)
    requires Held(a, before, freeBefore, used, holder) && Kept(a, c, used) && x !in used && x < |c|
    requires c[x].Cold() && c[x].ext == ext && ext < |extras| && ext !in holder
    requires (extraFree == freeBefore && ext == |before| && |extras| == |before| + 1) ||
             (freeBefore == extraFree + [ext] && |extras| == |before|)
    ensures Held(c, extras, extraFree, used + {x}, holder[ext := x])
  {
    HeldKept(a, c, before, freeBefore, used, holder);
    if freeBefore == extraFree + [ext] {
      forall k | 0 <= k < |extraFree| ensures extraFree[k] == freeBefore[k] && extraFree[k] != ext {
        assert freeBefore[|extraFree|] == ext;
      }
      forall e: nat | e < |extras| && e !in holder[ext := x] ensures e in extraFree {
        assert e in freeBefore;
      }
    }
  }

  /** Side-table slots of other nodes read as before. */
  lemma MeaningsKept(a: seq<Cell>, c: seq<Cell>, before: seq<Extra>, extras: seq<Extra>, extraFree: seq<nat>,
                     used: set<nat>,
                     holder: map<nat, nat>, keep: set<nat>)
    requires Held(a, before, extraFree, used, holder) && Kept(a, c, keep) && keep <= used && |before| <= |extras|
    requires forall e :: e in holder && holder[e] in keep ==> e < |before| && extras[e] == before[e]
    ensures forall y :: y in keep ==> y < |a| <= |c| && Meaning(c[y], extras) == Meaning(a[y], before)
  {
    forall y | y in keep ensures y < |a| <= |c| && Meaning(c[y], extras) == Meaning(a[y], before) {
      assert c[y].Cold() == a[y].Cold() && c[y].ext == a[y].ext;
      if a[y].Cold() { assert a[y].ext in holder && holder[a[y].ext] == y; }
    }
  }

  lemma QueueSame(a: seq<Cell>, c: seq<Cell>, before: seq<Extra>, extras: seq<Extra>, s: seq<nat>)
    requires forall k :: 0 <= k < |s| ==> s[k] < |a| && WellFormed(Meaning(a[s[k]], before))
    requires forall k :: 0 <= k < |s| ==> s[k] < |c| && Meaning(c[s[k]], extras) == Meaning(a[s[k]], before)
    ensures QueueOf(c, extras, s) == QueueOf(a, before, s)
  {}

  /** Node `c` in slot `x` got a side-table slot if it needs one; the others are untouched. */
  ghost predicate Equipped(c: Cell, x: nat, before: seq<Extra>, extras: seq<Extra>, freeBefore: seq<nat>,
                           extraFree: seq<nat>,
                           held: map<nat, nat>, holder: map<nat, nat>)
  {
    && |before| <= |extras| && (forall e :: e in held ==> e < |before| && extras[e] == before[e])
    && (c.Cold() ==> 0 <= c.ext < |extras| && c.ext !in held && holder == held[c.ext as nat := x])
    && (c.Cold() ==>
          || (extraFree == freeBefore && c.ext == |before| && |extras| == |before| + 1)
          || (freeBefore == extraFree + [c.ext as nat] && |extras| == |before|))
    && (!c.Cold() ==> c.ext == NIL && holder == held && extras == before && extraFree == freeBefore)
  }

  /** With the new node linked and tabled, everything but the lists agrees. */
  lemma JoinRest(a: seq<Cell>, b: seq<Cell>, c: seq<Cell>, before: seq<Extra>, extras: seq<Extra>, freeBefore: seq<nat>,
                 extraFree: seq<nat>, used: set<nat>, held: map<nat, nat>, holder: map<nat, nat>, orders: seq<int>,
                   x: nat)
    requires Tabled(a, orders, used) && Held(a, before, freeBefore, used, held) && Whole(a, before, used)
    requires x !in used && x < |b| && SameCells(b, c) && Kept(a, c, used) && WellFormed(Meaning(b[x], extras))
    requires b[x].id < |orders| && orders[b[x].id] == NIL
    requires Equipped(b[x], x, before, extras, freeBefore, extraFree, held, holder)
    ensures Tabled(c, orders[b[x].id := x], used + {x}) && Held(c, extras, extraFree, used + {x}, holder)
    ensures Whole(c, extras, used + {x}) && Meaning(c[x], extras) == Meaning(b[x], extras)
    ensures forall y :: y in used ==> y < |a| <= |c| && Meaning(c[y], extras) == Meaning(a[y], before)
  {
    TabledKept(a, c, orders, used);
    assert c[x].Cold() == b[x].Cold() && c[x].ext == b[x].ext && c[x].id == b[x].id;
    MeaningsKept(a, c, before, extras, freeBefore, used, held, used);
    if c[x].Cold() {
      JoinHeldCold(a, c, before, extras, freeBefore, extraFree, used, held, x, c[x].ext);
    } else {
      JoinHeld(a, c, extras, extraFree, used, holder, x);
    }
  }

  /** What joining means for the queues and the ids. */
  lemma JoinMeans(n: nat, a: seq<Cell>, c: seq<Cell>, before: seq<Extra>, extras: seq<Extra>, used: set<nat>,
                  chains: Chains,
                  p: Place, x: nat, o: Order, q: Place)
    requires Owned(n, a, chains, used) && Whole(a, before, used) && p.tick < n && p in chains && q.tick < n &&
      q in chains
    requires x < |c| && Meaning(c[x], extras) == o
    requires forall y :: y in used ==> y < |a| <= |c| && Meaning(c[y], extras) == Meaning(a[y], before)
    ensures forall k :: 0 <= k < |chains[q]| ==> chains[q][k] < |a| && WellFormed(Meaning(a[chains[q][k]], before))
    ensures forall k :: 0 <= k < |chains[q]| ==> chains[q][k] < |c| && WellFormed(Meaning(c[chains[q][k]], extras))
    ensures QueueOf(c, extras, chains[q]) == QueueOf(a, before, chains[q])
    ensures QueueOf(c, extras, chains[p] + [x]) == QueueOf(a, before, chains[p]) + [o]
  {
    forall r: Place, k | r.tick < n && r in chains && 0 <= k < |chains[r]| ensures chains[r][k] in used {}
  }

  // ---- a node leaves --------------------------------------------------

  /** A change to nodes of place `p` only leaves the other lists alone. */
  lemma ChainElsewhere(a: seq<Cell>, b: seq<Cell>, s: seq<nat>, e: Ends, q: Place, p: Place)
    requires ChainAt(a, s, e, q) && q != p && SameCells(a, b)
    requires forall y :: 0 <= y < |a| && b[y] != a[y] ==> a[y].At() == p
    ensures ChainAt(b, s, e, q)
  {
    forall k | 0 <= k < |s| ensures b[s[k]] == a[s[k]] {}
    LinkedElsewhere(a, b, s, e);
  }

  lemma BypassIsLocal(a: seq<Cell>, s: seq<nat>, e: Ends, p: Place, k: nat)
    requires ChainAt(a, s, e, p) && k < |s|
    ensures s[k] < |a| && NIL <= a[s[k]].prev < |a| && NIL <= a[s[k]].next < |a|
    ensures forall y :: 0 <= y < |a| && Bypassed(a, s[k])[y] != a[y] ==> a[y].At() == p
    ensures ChainAt(Bypassed(a, s[k]), Cut(s, k), BypassedEnds(a[s[k]], e), p) && s[k] !in Cut(s, k)
  {
    NeighboursAre(a, s, e, k);
    BypassedLinked(a, s, e, k);
    if k > 0 { assert a[s[k - 1]].At() == p; }
    if k + 1 < |s| { assert a[s[k + 1]].At() == p; }
    var b, t := Bypassed(a, s[k]), Cut(s, k);
    forall j | 0 <= j < |t|
      ensures t[j] < |b| && b[t[j]].At() == p { assert a[s[if j < k then j else j + 1]].At() == p; }
  }

  lemma LeaveChained(n: nat, a: seq<Cell>, ends: map<Place, Ends>, chains: Chains, used: set<nat>, p: Place, k: nat)
    requires Chained(n, a, ends, chains) && Owned(n, a, chains, used) && p.tick < n && k < |chains[p]|
    ensures chains[p][k] < |a| && NIL <= a[chains[p][k]].prev < |a| && NIL <= a[chains[p][k]].next < |a|
    ensures var x := chains[p][k]; var b := Bypassed(a, x); var chains' := chains[p := Cut(chains[p], k)];
      && Chained(n, b, ends[p := BypassedEnds(a[x], ends[p])], chains')
      && Owned(n, b, chains', used - {x}) && Kept(a, b, used)
  {
    hide Linked, Owned, Bypassed, BypassedEnds, Kept, ChainAt;
    var s, e := chains[p], ends[p];
    assert ChainAt(a, s, e, p);
    BypassIsLocal(a, s, e, p, k);
    var x := s[k];
    var b := Bypassed(a, x);
    var ends', chains' := ends[p := BypassedEnds(a[x], e)], chains[p := Cut(s, k)];
    forall q: Place | q.tick < n ensures q in ends' && q in chains' && ChainAt(b, chains'[q], ends'[q], q) {
      assert ChainAt(a, chains[q], ends[q], q);
      if q != p { ChainElsewhere(a, b, chains[q], ends[q], q, p); }
    }
    LeaveOwned(n, a, b, ends, chains, used, p, k);
  }

  lemma LeaveOwned(n: nat, a: seq<Cell>, b: seq<Cell>, ends: map<Place, Ends>, chains: Chains, used: set<nat>,
                   p: Place, k: nat)
    requires Chained(n, a, ends, chains) && Owned(n, a, chains, used) && p.tick < n && k < |chains[p]|
    requires SameCells(a, b) && chains[p][k] !in Cut(chains[p], k)
    ensures Owned(n, b, chains[p := Cut(chains[p], k)], used - {chains[p][k]}) && Kept(a, b, used)
  {
    var x, t := chains[p][k], Cut(chains[p], k);
    var chains' := chains[p := t];
    assert ChainAt(a, chains[p], ends[p], p);
    forall q: Place, j | q.tick < n && q in chains' && 0 <= j < |chains'[q]| ensures chains'[q][j] in used - {x} {
      if q == p {
        assert chains[p][if j < k then j else j + 1] in used && t[j] in t;
      } else {
        assert ChainAt(a, chains[q], ends[q], q) && chains[q][j] in used && a[chains[q][j]].At() == q;
      }
    }
    forall y | y in used - {x} ensures b[y].At() == a[y].At() && y in chains'[b[y].At()] {
      if a[y].At() == p {
        var j :| 0 <= j < |chains[p]| && chains[p][j] == y;
        assert t[if j < k then j else j - 1] == y;
      }
    }
  }

  lemma LeaveTabled(a: seq<Cell>, b: seq<Cell>, orders: seq<int>, used: set<nat>, x: nat)
    requires Tabled(a, orders, used) && SameCells(a, b) && x in used
    ensures a[x].id < |orders| && Tabled(b, orders[a[x].id := NIL], used - {x})
  {}

  lemma LeaveHeld(a: seq<Cell>, b: seq<Cell>, extras: seq<Extra>, extraFree: seq<nat>, used: set<nat>,
                  holder: map<nat, nat>, x: nat)
    requires Held(a, extras, extraFree, used, holder) && SameCells(a, b) && x in used
    ensures x < |a| && NIL <= a[x].ext < |extras|
    ensures a[x].ext == NIL ==> Held(b, extras, extraFree, used - {x}, holder)
    ensures a[x].ext != NIL ==>
      Held(b, extras[a[x].ext := BLANK_EXTRA], extraFree + [a[x].ext], used - {x}, holder - {a[x].ext})
  {
    forall y | y in used ensures b[y].Cold() == a[y].Cold() && b[y].ext == a[y].ext {}
    if a[x].ext != NIL {
      var e := a[x].ext;
      var free := extraFree + [e];
      forall k | 0 <= k < |free| ensures free[k] !in holder - {e} && free[k] < |extras| {
        if k < |extraFree| { assert free[k] == extraFree[k]; }
      }
      forall f: nat | f < |extras| ensures f in holder - {e} || f in free {
        if f == e { assert free[|extraFree|] == e; } else if f in extraFree { assert f in free; }
      }
    }
  }

  /** Where each id stands, if it does. */
  function WhereOf(cells: seq<Cell>, orders: seq<int>): (w: seq<Option<Place>>)
    ensures |w| == |orders|
    ensures forall id :: 0 <= id < |orders| ==>
      w[id] == if 0 <= orders[id] < |cells| then Some(cells[orders[id]].At()) else None
  {
    seq(|orders|, id requires 0 <= id < |orders| =>
      if 0 <= orders[id] < |cells| then Some(cells[orders[id]].At()) else None)
  }

  // ---- the object -----------------------------------------------------

  const CHUNK := 0x1_0000

  function Places(n: nat): set<Place> {
    set s, i | s in {Resting(Buy), Resting(Sell), Pending(Buy), Pending(Sell)} && 0 <= i < n :: Place(s, i)
  }

  lemma InPlaces(n: nat, p: Place)
    requires p.tick < n
    ensures p in Places(n)
  {
    ShelfCases(p.shelf);
    assert p == Place(p.shelf, p.tick);
  }

  lemma EmptyChained(n: nat, cells: seq<Cell>)
    ensures var none := map p | p in Places(n) :: Ends(NIL, NIL); var empty := map p | p in Places(n) :: [];
      && Chained(n, cells, none, empty) && Owned(n, cells, empty, {}) && Tabled(cells, [NIL], {})
      && Held(cells, [], [], {}, map[]) && Whole(cells, [], {})
  {
    forall p: Place | p.tick < n ensures p in Places(n) { InPlaces(n, p); }
  }

  class Slab {
    const n: nat
    const pool: Pool
    var cells: seq<Cell>
    var extras: seq<Extra>
    var extraFree: seq<nat>
    /** Slot by id; NIL for a dead or never-rested id. */
    var orders: seq<int>
    var ends: map<Place, Ends>
    /** The slots of each level, head first. */
    ghost var chains: Chains
    /** The node that holds each taken side-table slot. */
    ghost var holder: map<nat, nat>

    ghost predicate Valid()
      reads this, pool
    {
      && pool.Valid() && |cells| == pool.capacity
      && Chained(n, cells, ends, chains) && Owned(n, cells, chains, pool.used) && Tabled(cells, orders, pool.used)
      && Held(cells, extras, extraFree, pool.used, holder) && Whole(cells, extras, pool.used)
    }

    lemma ChainFacts(p: Place)
      requires Valid() && p.tick < n
      ensures p in ends && p in chains && ChainAt(cells, chains[p], ends[p], p)
      ensures forall k :: 0 <= k < |chains[p]| ==>
        chains[p][k] in pool.used && chains[p][k] < |cells| && WellFormed(Meaning(cells[chains[p][k]], extras))
    {
      assert ChainAt(cells, chains[p], ends[p], p);
      forall k | 0 <= k < |chains[p]| ensures chains[p][k] in pool.used {}
    }

    /** The FIFO at a place. */
    ghost function Queue(p: Place): (q: Queue)
      requires Valid() && p.tick < n
      reads this, pool
      ensures p in chains && |q| == |chains[p]|
    {
      ChainFacts(p);
      QueueOf(cells, extras, chains[p])
    }

    /** Every level's FIFO. */
    ghost function Book(): (m: map<Place, Queue>)
      requires Valid()
      reads this, pool
      ensures m.Keys == Places(n) && forall p :: p in Places(n) ==> p.tick < n && m[p] == Queue(p)
    {
      map p | p in Places(n) :: Queue(p)
    }

    /** Where each id stands, if it does. */
    ghost function Where(): (w: seq<Option<Place>>)
      reads this
      ensures |w| == |orders|
    {
      WhereOf(cells, orders)
    }

    constructor (width: nat, expected: nat)
      ensures Valid() && n == width && fresh(pool) && pool.used == {}
      ensures Where() == [None] && Book() == map p | p in Places(n) :: []
    {
      hide Chained, Owned, Tabled, Held, Whole, Linked, Places;
      n := width;
      pool := new Pool(CHUNK, expected);
      extras, extraFree, orders := [], [], [NIL];
      ends := map p | p in Places(width) :: Ends(NIL, NIL);
      chains, holder := map p | p in Places(width) :: [], map[];
      new;
      cells := seq(pool.capacity, _ => BLANK_CELL);
      EmptyChained(n, cells);
    }

    // ---- reading ------------------------------------------------------

    predicate Vacant(p: Place)
      requires Valid() && p.tick < n
      reads this, pool
    {
      ChainFacts(p);
      ends[p].head == NIL
    }

    /** The order a slot holds. */
    function OrderAt(x: nat): Order
      requires Valid() && x in pool.used
      reads this, pool
    {
      Meaning(cells[x], extras)
    }

    /** The head of a level. */
    function First(p: Place): (x: nat)
      requires Valid() && p.tick < n && !Vacant(p)
      reads this, pool
    {
      ChainFacts(p);
      TailIs(cells, chains[p], ends[p]);
      ends[p].head
    }

    /** What the head pointer of a level says of its FIFO. */
    lemma HeadFacts(p: Place)
      requires Valid() && p.tick < n
      ensures Vacant(p) <==> Queue(p) == []
      ensures !Vacant(p) ==> p in chains && chains[p] != [] && First(p) == chains[p][0] && First(p) in pool.used
      ensures !Vacant(p) ==> Queue(p) != [] && OrderAt(First(p)) == Queue(p)[0]
    {
      ChainFacts(p);
      TailIs(cells, chains[p], ends[p]);
    }

    /** The slot of a live id, or NIL. */
    function Lookup(id: nat): int
      reads this
    {
      if id < |orders| then orders[id] else NIL
    }

    lemma LookupFacts(id: nat)
      requires Valid()
      ensures Lookup(id) != NIL <==> id < |Where()| && Where()[id].Some?
      ensures Lookup(id) != NIL ==>
        && Lookup(id) in pool.used && 0 <= Lookup(id) < |cells| && OrderAt(Lookup(id)).id == id
        && Where()[id] == Some(cells[Lookup(id)].At()) && cells[Lookup(id)].tick < n
    {
      hide Chained, Held, Whole, Linked;
    }

    /** The orders of a level from head to tail, along the links. */
    method List(p: Place) returns (q: seq<Order>)
      requires Valid() && p.tick < n
      ensures q == Queue(p)
    {
      hide Chained, Owned, Tabled, Held, Whole, Pool.Valid;
      ChainFacts(p);
      TailIs(cells, chains[p], ends[p]);
      var x := ends[p].head;
      q := [];
      ghost var k := 0;
      while x != NIL
        invariant k <= |chains[p]| && x == Nth(chains[p], k) && q == Queue(p)[..k]
        decreases |chains[p]| - k
      {
        SlotFacts(p, k);
        NeighboursAre(cells, chains[p], ends[p], k);
        q := q + [OrderAt(x)];
        x := cells[x].next;
        k := k + 1;
      }
    }

    // ---- what the links, the table and the pools agree on ---------------

    /** A live id points to exactly the linked node that carries it. */
    lemma TableIsExact(id: nat)
      requires Valid() && Lookup(id) != NIL
      ensures 0 <= Lookup(id) < |cells| && cells[Lookup(id)].id == id
      ensures var p := cells[Lookup(id)].At(); p in chains && p.tick < n && Lookup(id) in chains[p]
    {
      hide Chained, Held, Whole;
    }

    /** Every linked node is in the table, under its id and no other. */
    lemma LinkedIsTabled(p: Place, k: nat, id: nat)
      requires Valid() && p.tick < n && k < |Queue(p)|
      ensures p in chains && k < |chains[p]| && chains[p][k] < |cells|
      ensures Lookup(id) == chains[p][k] <==> id == cells[chains[p][k]].id
      ensures Queue(p)[k].id == cells[chains[p][k]].id
    {
      SlotFacts(p, k);
    }

    /** Side-table slots of linked nodes are their own, and none of them is free. */
    lemma ExtrasAreOwn(p: Place, k: nat, q: Place, j: nat)
      requires Valid() && p.tick < n && q.tick < n && k < |Queue(p)| && j < |Queue(q)| && (p, k) != (q, j)
      ensures p in chains && k < |chains[p]| && q in chains && j < |chains[q]|
      ensures var x, y := chains[p][k], chains[q][j];
        && x != y && x < |cells| && y < |cells|
        && (cells[x].ext != NIL ==>
          cells[x].ext != cells[y].ext && 0 <= cells[x].ext < |extras| && cells[x].ext as nat !in extraFree)
    {
      hide Linked;
      SlotFacts(p, k);
      SlotFacts(q, j);
      SlotsDiffer(p, k, j);
    }

    lemma SlotsDiffer(p: Place, k: nat, j: nat)
      requires Valid() && p.tick < n
      ensures p in chains && (k < |chains[p]| && j < |chains[p]| && k != j ==> chains[p][k] != chains[p][j])
    {
      ChainFacts(p);
    }

    /** As many slots are handed out as ids are live. */
    lemma UsedIsLive()
      requires Valid()
      ensures |pool.used| == |set id | 0 <= id < |Where()| && Where()[id].Some?|
    {
      hide Chained, Owned, Held, Whole;
      SameSize(pool.used, (set id | 0 <= id < |Where()| && Where()[id].Some?), cells, orders);
    }

    // ---- a node joins -------------------------------------------------

    /** The next id, dead so far. */
    method Register() returns (id: nat)
      requires Valid()
      modifies this`orders
      ensures Valid() && id == |old(orders)| && Where() == old(Where()) + [None]
      ensures Book() == old(Book())
    {
      hide Chained, Owned, Held, Whole;
      id := |orders|;
      orders := orders + [NIL];
    }

    /** A side-table slot: a freed one, or a new one at the end. */
    method AllocExtra() returns (ext: nat)
      modifies this`extras, this`extraFree
      ensures ext < |extras|
      ensures (extraFree == old(extraFree) && ext == |old(extras)| && extras == old(extras) + [BLANK_EXTRA]) ||
              (old(extraFree) == extraFree + [ext] && extras == old(extras))
      requires forall k :: 0 <= k < |extraFree| ==> extraFree[k] < |extras|
    {
      if |extraFree| == 0 {
        extras := extras + [BLANK_EXTRA];
        return |extras| - 1;
      }
      var last := |extraFree| - 1;
      ext := extraFree[last];
      extraFree := extraFree[..last];
    }

    /** Hangs a loose slot behind the tail of its level. */
    method LinkLast(p: Place, x: nat)
      requires p in ends && p in chains && x < |cells| && NIL <= ends[p].tail < |cells|
      modifies this`cells, this`ends, this`chains
      ensures cells == Appended(old(cells), old(ends)[p], x) && chains == old(chains)[p := old(chains)[p] + [x]]
      ensures ends == old(ends)[p := Ends(if old(ends)[p].tail == NIL then x else old(ends)[p].head, x)]
    {
      var tail := ends[p].tail;
      if tail != NIL {
        cells := cells[tail := cells[tail].(next := x)];
        cells := cells[x := cells[x].(prev := tail)];
        ends := ends[p := ends[p].(tail := x)];
      } else {
        ends := ends[p := Ends(x, x)];
      }
      chains := chains[p := chains[p] + [x]];
    }

    /** Fills slot `x` for order `o`, with a side-table slot if it needs one. */
    method Fill(x: nat, p: Place, o: Order)
      requires Storable(p, o) && x < pool.capacity && |cells| <= pool.capacity
      requires Held(cells, extras, extraFree, pool.used - {x}, holder)
      modifies this`cells, this`extras, this`extraFree, this`holder
      ensures Loose(cells, x, p) && cells[x].id == o.id && |cells| == pool.capacity && Meaning(cells[x], extras) == o
      ensures forall y :: 0 <= y < |old(cells)| && y != x ==> cells[y] == old(cells)[y]
      ensures Equipped(cells[x], x, old(extras), extras, old(extraFree), extraFree, old(holder), holder)
    {
      if |cells| < pool.capacity { cells := cells + seq(pool.capacity - |cells|, _ => BLANK_CELL); }
      var ext: int := NIL;
      if CellOf(p, o, NIL).Cold() {
        ext := AllocExtra();
        assert ext !in holder by { if extraFree != old(extraFree) { assert old(extraFree)[|extraFree|] == ext; } }
        extras := extras[ext := Extra(o.reserve, o.peak, o.limit)];
        holder := holder[ext as nat := x];
      }
      cells := cells[x := CellOf(p, o, ext)];
      CellMeans(p, o, ext, extras);
    }

    /** Takes a free slot and fills it for order `o`. */
    method Claim(p: Place, o: Order) returns (x: nat)
      requires Valid() && Storable(p, o)
      modifies pool, this`cells, this`extras, this`extraFree, this`holder
      ensures pool.Valid() && x !in old(pool.used) && pool.used == old(pool.used) + {x}
      ensures |cells| == pool.capacity && |old(cells)| <= |cells|
      ensures Loose(cells, x, p) && cells[x].id == o.id && Meaning(cells[x], extras) == o
      ensures forall y :: 0 <= y < |old(cells)| && y != x ==> cells[y] == old(cells)[y]
      ensures Equipped(cells[x], x, old(extras), extras, old(extraFree), extraFree, old(holder), holder)
    {
      hide Held, Owned, Tabled, Whole, Equipped, Chained;
      x := pool.Alloc();
      assert pool.used - {x} == old(pool.used);
      HeldFree(cells, extras, extraFree, pool.used - {x}, holder);
      Fill(x, p, o);
    }

    /** Takes a slot for order `o`, fills it, and links and tables it. */
    method Insert(p: Place, o: Order) returns (x: nat)
      requires Valid() && p.tick < n && o.id < |orders| && orders[o.id] == NIL && Storable(p, o)
      modifies this, pool
      ensures Valid() && x !in old(pool.used) && x < |cells| && orders == old(orders)[o.id := x] && cells[x].At() == p
      ensures p in old(chains) && chains == old(chains)[p := old(chains)[p] + [x]]
      ensures Kept(old(cells), cells, old(pool.used)) && Meaning(cells[x], extras) == o
      ensures forall y :: y in old(pool.used) ==>
        y < |old(cells)| <= |cells| && Meaning(cells[y], extras) == Meaning(old(cells)[y], old(extras))
    {
      hide Linked, ChainAt, Held, Owned, Tabled, Whole, Equipped, Chained, Kept, Pool.Valid, Meaning;
      ghost var a, xs, free, used, hs := cells, extras, extraFree, pool.used, holder;
      ChainFacts(p);
      x := Claim(p, o);
      ghost var b := cells;
      JoinChained(n, a, b, ends, chains, used, p, x);
      LinkLast(p, x);
      JoinRest(a, b, cells, xs, extras, free, extraFree, used, hs, holder, orders, x);
      orders := orders[o.id := x];
    }

    /** Order `o` joins the back of the level at `p`, in a slot of its own. */
    method Push(p: Place, o: Order)
      requires Valid() && p.tick < n && o.id < |orders| && orders[o.id] == NIL && Storable(p, o)
      modifies this, pool
      ensures Valid() && |orders| == |old(orders)|
      ensures Book() == old(Book())[p := old(Queue(p)) + [o]]
      ensures Where() == old(Where())[o.id := Some(p)]
    {
      hide Linked, ChainAt, Held, Owned, Tabled, Whole, Chained, Kept;
      ghost var a, xs, used, ends0, chains0 := cells, extras, pool.used, ends, chains;
      var x := Insert(p, o);
      ChainsKnown(n, a, ends0, chains0, p);
      forall q: Place | q.tick < n
        ensures q in chains0 && (if q == p then Queue(q) == old(Queue(p)) + [o] else Queue(q) == old(Queue(q)))
      {
        ChainsKnown(n, a, ends0, chains0, q);
        JoinMeans(n, a, cells, xs, extras, used, chains0, p, x, o, q);
      }
      InPlaces(n, p);
      JoinWhere(a, cells, old(orders), used, x, o.id, p);
    }

    // ---- a node leaves ------------------------------------------------

    /** Pointer surgery around slot `x`, wherever it stands in its level. */
    method Unlink(x: nat, ghost k: nat)
      requires x < |cells| && NIL <= cells[x].prev < |cells| && NIL <= cells[x].next < |cells|
      requires cells[x].At() in ends && cells[x].At() in chains && k < |chains[cells[x].At()]|
      modifies this`cells, this`ends, this`chains
      ensures cells == Bypassed(old(cells), x)
      ensures var p := old(cells)[x].At();
        && ends == old(ends)[p := BypassedEnds(old(cells)[x], old(ends)[p])]
        && chains == old(chains)[p := Cut(old(chains)[p], k)]
    {
      var c := cells[x];
      var p, e := c.At(), ends[c.At()];
      if c.prev != NIL { cells := cells[c.prev := cells[c.prev].(next := c.next)]; } else { e := e.(head := c.next); }
      if c.next != NIL { cells := cells[c.next := cells[c.next].(prev := c.prev)]; } else { e := e.(tail := c.prev); }
      ends := ends[p := e];
      chains := chains[p := Cut(chains[p], k)];
    }

    /** Slot `x`, and its side-table slot if it has one, go back to the pools. */
    method Release(x: nat)
      requires pool.Valid() && x in pool.used && x < |cells| && NIL <= cells[x].ext < |extras|
      modifies pool, this`extras, this`extraFree, this`holder
      ensures pool.Valid() && pool.used == old(pool.used) - {x} && pool.capacity == old(pool.capacity)
      ensures cells[x].ext == NIL ==> extras == old(extras) && extraFree == old(extraFree) && holder == old(holder)
      ensures cells[x].ext != NIL ==>
        && extras == old(extras)[cells[x].ext := BLANK_EXTRA] && extraFree == old(extraFree) + [cells[x].ext as nat]
        && holder == old(holder) - {cells[x].ext as nat}
    {
      var ext := cells[x].ext;
      if ext != NIL {
        extras := extras[ext := BLANK_EXTRA];
        extraFree := extraFree + [ext as nat];
        holder := holder - {ext as nat};
      }
      pool.Free(x);
    }

    /** Unlinks slot `x`, clears its id and gives it back. */
    method Remove(x: nat, ghost k: nat)
      requires Valid() && x in pool.used && x < |cells| && cells[x].tick < n
      requires cells[x].At() in chains && k < |chains[cells[x].At()]| && chains[cells[x].At()][k] == x
      modifies this, pool
      ensures Valid() && old(cells)[x].id < |old(orders)| && orders == old(orders)[old(cells)[x].id := NIL]
      ensures chains == old(chains)[old(cells)[x].At() := Cut(old(chains)[old(cells)[x].At()], k)]
      ensures SameCells(old(cells), cells)
      ensures forall y :: y in old(pool.used) - {x} ==>
        y < |old(cells)| && Meaning(cells[y], extras) == Meaning(old(cells)[y], old(extras))
    {
      hide Linked, ChainAt, Held, Owned, Tabled, Whole, Chained, Kept, Pool.Valid, Meaning, Bypassed, BypassedEnds;
      ghost var a, xs, free, used, hs := cells, extras, extraFree, pool.used, holder;
      var id := cells[x].id;
      ChainsKnown(n, a, ends, chains, a[x].At());
      LeaveChained(n, a, ends, chains, used, a[x].At(), k);
      LeaveHeld(a, Bypassed(a, x), xs, free, used, hs, x);
      LeaveTabled(a, Bypassed(a, x), orders, used, x);
      Unlink(x, k);
      orders := orders[id := NIL];
      ExtKept(a, cells, x);
      Release(x);
      LeaveMeans(a, cells, xs, extras, free, used, hs, x);
    }

    /** The order in slot `x`, `k` places behind the head of its level, leaves. */
    method Drop(x: nat, ghost k: nat)
      requires Valid() && x in pool.used && x < |cells| && cells[x].tick < n
      requires cells[x].At() in chains && k < |chains[cells[x].At()]| && chains[cells[x].At()][k] == x
      modifies this, pool
      ensures Valid() && |orders| == |old(orders)|
      ensures k < |old(Queue(cells[x].At()))|
      ensures Book() == old(Book())[old(cells)[x].At() := Without(old(Queue(cells[x].At())), k)]
      ensures old(cells)[x].id < |old(orders)| && Where() == old(Where())[old(cells)[x].id := None]
    {
      hide Linked, ChainAt, Held, Owned, Tabled, Whole, Chained, Kept, Meaning;
      ghost var a, xs, used, ends0, chains0 := cells, extras, pool.used, ends, chains;
      ghost var p := a[x].At();
      Remove(x, k);
      forall q: Place | q.tick < n
        ensures q in chains0 && (if q == p then Queue(q) == Without(old(Queue(p)), k) else Queue(q) == old(Queue(q)))
      {
        ChainsKnown(n, a, ends0, chains0, q);
        LeaveQueues(n, a, cells, xs, extras, used, ends0, chains0, p, k, q);
      }
      InPlaces(n, p);
      LeaveWhere(a, cells, old(orders), used, x);
    }

    // ---- a node changes ------------------------------------------------

    /** Slot `x` takes the sizes of `o`; nothing else of it changes. */
    method Resize(x: nat, o: Order)
      requires Valid() && x in pool.used && OrderAt(x).(qty := o.qty, reserve := o.reserve) == o
      modifies this`cells, this`extras
      ensures Valid() && Resized(old(cells), cells) && Meaning(cells[x], extras) == o
      ensures forall y :: y in pool.used - {x} ==>
        y < |cells| && Meaning(cells[y], extras) == Meaning(old(cells)[y], old(extras))
    {
      hide Chained, Owned, Tabled, Linked, Pool.Valid;
      ghost var a, xs := cells, extras;
      cells := cells[x := cells[x].(qty := o.qty)];
      if cells[x].iceberg {
        var ext := cells[x].ext;
        extras := extras[ext := extras[ext].(reserve := o.reserve)];
      }
      ResizedSound(n, a, cells, orders, ends, chains, pool.used);
      ResizedMeans(a, cells, xs, extras, extraFree, pool.used, holder, x,
        if cells[x].iceberg then extras[cells[x].ext] else BLANK_EXTRA);
    }

    /** The order in slot `x` changes its sizes in place, keeping its priority. */
    method Amend(x: nat, ghost k: nat, o: Order)
      requires Valid() && x in pool.used && x < |cells| && cells[x].tick < n
      requires cells[x].At() in chains && k < |chains[cells[x].At()]| && chains[cells[x].At()][k] == x
      requires OrderAt(x).(qty := o.qty, reserve := o.reserve) == o
      modifies this`cells, this`extras
      ensures Valid() && |cells| == |old(cells)| && Resized(old(cells), cells)
      ensures k < |old(Queue(cells[x].At()))| && cells[x].At() == old(cells)[x].At()
      ensures Book() == old(Book())[old(cells)[x].At() := old(Queue(cells[x].At()))[k := o]]
      ensures Where() == old(Where())
    {
      hide Linked, ChainAt, Held, Owned, Tabled, Whole, Chained, Meaning;
      ghost var a, xs, p := cells, extras, cells[x].At();
      Resize(x, o);
      forall q: Place | q.tick < n
        ensures q in chains && (if q == p then Queue(q) == old(Queue(p))[k := o] else Queue(q) == old(Queue(q)))
      {
        ChainSlots(n, a, xs, pool.used, ends, chains, p);
        ChainSlots(n, a, xs, pool.used, ends, chains, q);
        ResizedQueue(a, cells, xs, extras, pool.used, chains, p, k, q, o);
      }
      InPlaces(n, p);
      ResizedWhere(a, cells, orders);
    }

    /** The head of level `p` moves, links only, behind the others. */
    method MoveToBack(p: Place)
      requires Valid() && p.tick < n && p in chains && chains[p] != []
      modifies this`cells, this`ends, this`chains
      ensures Valid() && SameCells(old(cells), cells) && Where() == old(Where())
      ensures chains == old(chains)[p := old(chains)[p][1..] + [old(chains)[p][0]]]
    {
      hide Linked, ChainAt, Held, Owned, Tabled, Whole, Chained, Pool.Valid, Meaning, Kept, Requeued, RequeuedEnds;
      ghost var a := cells;
      ChainsKnown(n, a, ends, chains, p);
      RequeueSound(n, a, ends, chains, pool.used, p);
      SwapEnds(p);
      TabledKept(a, cells, orders, pool.used);
      HeldKept(a, cells, extras, extraFree, pool.used, holder);
      WholeKept(a, cells, extras, pool.used);
      SameWhere(a, cells, orders);
    }

    /** The pointer surgery of a requeue: a lone head stays put. */
    method SwapEnds(p: Place)
      requires p in ends && p in chains && chains[p] != [] && 0 <= ends[p].head < |cells| && 0 <= ends[p].tail < |cells|
      requires NIL <= cells[ends[p].head].next < |cells|
      modifies this`cells, this`ends, this`chains
      ensures cells == Requeued(old(cells), old(ends)[p]) &&
        ends == old(ends)[p := RequeuedEnds(old(cells), old(ends)[p])]
      ensures chains == old(chains)[p := old(chains)[p][1..] + [old(chains)[p][0]]]
    {
      var head, tail := ends[p].head, ends[p].tail;
      var next := cells[head].next;
      if next != NIL {
        cells := cells[next := cells[next].(prev := NIL)];
        cells := cells[head := cells[head].(prev := tail, next := NIL)];
        cells := cells[tail := cells[tail].(next := head)];
        ends := ends[p := Ends(next, head)];
      }
      chains := chains[p := chains[p][1..] + [chains[p][0]]];
    }

    /** The head of level `p` moves behind the others. */
    method Requeue(p: Place)
      requires Valid() && p.tick < n && Queue(p) != []
      modifies this`cells, this`ends, this`chains
      ensures Valid() && Book() == old(Book())[p := old(Queue(p))[1..] + [old(Queue(p))[0]]]
      ensures Where() == old(Where())
    {
      hide Linked, ChainAt, Held, Owned, Tabled, Whole, Chained, Meaning, SameCells;
      ghost var a, chains0, ends0 := cells, chains, ends;
      MoveToBack(p);
      forall q: Place | q.tick < n
        ensures q in chains0 &&
          (if q == p then Queue(q) == old(Queue(p))[1..] + [old(Queue(p))[0]] else Queue(q) == old(Queue(q)))
      {
        ChainSlots(n, a, extras, pool.used, ends0, chains0, q);
        ChainsKnown(n, cells, ends, chains, q);
        RequeuedQueue(a, cells, extras, chains0[q]);
      }
      InPlaces(n, p);
    }

    /** The head of level `p` takes the sizes of `o` and moves behind the others. */
    method Rotate(p: Place, o: Order)
      requires Valid() && p.tick < n && Queue(p) != []
      requires Queue(p)[0].(qty := o.qty, reserve := o.reserve) == o
      modifies this`cells, this`extras, this`ends, this`chains
      ensures Valid() && Book() == old(Book())[p := old(Queue(p))[1..] + [o]]
      ensures Where() == old(Where())
    {
      hide Slab.Valid, Slab.Where, Slab.Queue, Slab.Book;
      HeadFacts(p);
      SlotFacts(p, 0);
      ghost var book, q := Book(), Queue(p);
      InPlaces(n, p);
      Amend(First(p), 0, o);
      assert Queue(p) == q[0 := o];
      Requeue(p);
      assert q[0 := o][1..] == q[1..];
      assert book[p := q[0 := o]][p := q[1..] + [o]] == book[p := q[1..] + [o]];
    }

    /** The slot at position `k` of level `p` says it stands there. */
    lemma SlotFacts(p: Place, k: nat)
      requires Valid() && p.tick < n && k < |Queue(p)|
      ensures p in chains && k < |chains[p]|
      ensures var x := chains[p][k]; x in pool.used && x < |cells| && cells[x].At() == p && OrderAt(x) == Queue(p)[k]
    {
      ChainFacts(p);
    }
  }

  // ---- changes in place ------------------------------------------------

  /** Displayed sizes aside, nothing changed. */
  ghost predicate Resized(a: seq<Cell>, b: seq<Cell>) {
    |a| == |b| && forall x :: 0 <= x < |a| ==> b[x].(qty := a[x].qty) == a[x]
  }

  lemma ResizedSound(n: nat, a: seq<Cell>, b: seq<Cell>, orders: seq<int>, ends: map<Place, Ends>, chains: Chains,
                     used: set<nat>)
    requires Chained(n, a, ends, chains) && Owned(n, a, chains, used) && Tabled(a, orders, used) && Resized(a, b)
    ensures Chained(n, b, ends, chains) && Owned(n, b, chains, used) && Tabled(b, orders, used)
  {
    forall p: Place | p.tick < n ensures p in ends && p in chains && ChainAt(b, chains[p], ends[p], p) {
      assert ChainAt(a, chains[p], ends[p], p);
      forall k | 0 <= k < |chains[p]| ensures b[chains[p][k]].At() == p { assert a[chains[p][k]].At() == p; }
      LinkedElsewhere(a, b, chains[p], ends[p]);
    }
    forall x | x in used ensures x < |b| && b[x].At() == a[x].At() {}
  }

  lemma ResizedMeans(a: seq<Cell>, b: seq<Cell>, before: seq<Extra>, extras: seq<Extra>, extraFree: seq<nat>,
                     used: set<nat>,
                     holder: map<nat, nat>, x: nat, r: Extra)
    requires Held(a, before, extraFree, used, holder) && Whole(a, before, used) && x in used
    requires Resized(a, b) && forall y :: 0 <= y < |a| && y != x ==> b[y] == a[y]
    requires extras == before || (0 <= a[x].ext < |before| && a[x].iceberg && extras == before[a[x].ext := r])
    requires WellFormed(Meaning(b[x], extras))
    ensures Held(b, extras, extraFree, used, holder) && Whole(b, extras, used)
    ensures forall y :: y in used - {x} ==> y < |b| && Meaning(b[y], extras) == Meaning(a[y], before)
  {
    forall y | y in used ensures y < |a| && b[y].Cold() == a[y].Cold() && b[y].ext == a[y].ext {}
    forall y | y in used - {x} ensures y < |b| && Meaning(b[y], extras) == Meaning(a[y], before) {
      if a[y].Cold() { assert a[y].ext in holder && holder[a[y].ext] == y; }
    }
  }

  lemma ResizedQueue(a: seq<Cell>, b: seq<Cell>, before: seq<Extra>, extras: seq<Extra>, used: set<nat>, chains: Chains,
                     p: Place, k: nat, q: Place, o: Order)
    requires p in chains && q in chains && k < |chains[p]| && |a| == |b| && Unique(chains[p])
    requires forall r: Place, j :: (r == p || r == q) && 0 <= j < |chains[r]| ==>
      chains[r][j] in used && chains[r][j] < |a| && WellFormed(Meaning(a[chains[r][j]], before)) &&
        a[chains[r][j]].At() == r
    requires Meaning(b[chains[p][k]], extras) == o
    requires forall y :: y in used - {chains[p][k]} ==> y < |b| && Meaning(b[y], extras) == Meaning(a[y], before)
    ensures forall j :: 0 <= j < |chains[q]| ==> chains[q][j] < |b| && WellFormed(Meaning(b[chains[q][j]], extras))
    ensures QueueOf(b, extras, chains[q]) ==
      if q == p then QueueOf(a, before, chains[p])[k := o] else QueueOf(a, before, chains[q])
  {
    hide Meaning, WellFormed;
    forall j | 0 <= j < |chains[q]| && (q != p || j != k)
      ensures Meaning(b[chains[q][j]], extras) == Meaning(a[chains[q][j]], before)
    {
      assert chains[q][j] in used - {chains[p][k]};
    }
  }

  lemma ResizedWhere(a: seq<Cell>, b: seq<Cell>, orders: seq<int>)
    requires Resized(a, b)
    ensures WhereOf(b, orders) == WhereOf(a, orders)
  {
    forall x | 0 <= x < |a| ensures b[x].At() == a[x].At() {}
  }

  // ---- a requeue -------------------------------------------------------

  /** A node with its links set. */
  function Relink(cells: seq<Cell>, x: nat, prev: int, next: int): (r: seq<Cell>)
    requires x < |cells|
    ensures SameCells(cells, r)
  {
    cells[x := cells[x].(prev := prev, next := next)]
  }

  /** The nodes once the head hangs behind the tail; a lone head stays put. */
  function Requeued(cells: seq<Cell>, e: Ends): (r: seq<Cell>)
    requires 0 <= e.head < |cells| && 0 <= e.tail < |cells| && NIL <= cells[e.head].next < |cells|
    ensures SameCells(cells, r)
  {
    var next := cells[e.head].next;
    if next == NIL then cells
    else
      var b := Relink(cells, next, NIL, cells[next].next);
      var c := Relink(b, e.head, e.tail, NIL);
      Relink(c, e.tail, c[e.tail].prev, e.head)
  }

  function RequeuedEnds(cells: seq<Cell>, e: Ends): Ends
    requires 0 <= e.head < |cells|
  {
    if cells[e.head].next == NIL then e else Ends(cells[e.head].next, e.head)
  }

  lemma RequeuedLinked(cells: seq<Cell>, s: seq<nat>, e: Ends)
    requires Linked(cells, s, e) && s != []
    ensures 0 <= e.head < |cells| && 0 <= e.tail < |cells| && NIL <= cells[e.head].next < |cells|
    ensures Linked(Requeued(cells, e), s[1..] + [s[0]], RequeuedEnds(cells, e))
    ensures forall y :: 0 <= y < |cells| && Requeued(cells, e)[y] != cells[y] ==> y in s
  {
    TailIs(cells, s, e);
    NeighboursAre(cells, s, e, 0);
    var b, t := Requeued(cells, e), s[1..] + [s[0]];
    if |s| == 1 {
      assert t == s;
    } else {
      assert s[1] in s;
      forall k | 0 <= k < |t| ensures LinkedAt(b, t, k) {
        if k < |s| - 1 {
          assert LinkedAt(cells, s, k + 1) && t[k] == s[k + 1];
        } else {
          assert LinkedAt(cells, s, 0) && t[k] == s[0] && t[k - 1] == s[|s| - 1];
        }
      }
    }
  }

  lemma RequeueSound(n: nat, a: seq<Cell>, ends: map<Place, Ends>, chains: Chains, used: set<nat>, p: Place)
    requires Chained(n, a, ends, chains) && Owned(n, a, chains, used) && p.tick < n && p in chains && chains[p] != []
    ensures p in ends && 0 <= ends[p].head < |a| && 0 <= ends[p].tail < |a| && NIL <= a[ends[p].head].next < |a|
    ensures var b := Requeued(a, ends[p]); var chains' := chains[p := chains[p][1..] + [chains[p][0]]];
      && Chained(n, b, ends[p := RequeuedEnds(a, ends[p])], chains') && Owned(n, b, chains', used) && Kept(a, b, used)
  {
    hide Linked, Owned, Requeued, RequeuedEnds;
    var s, e := chains[p], ends[p];
    assert ChainAt(a, s, e, p);
    RequeuedLinked(a, s, e);
    var b, t := Requeued(a, e), s[1..] + [s[0]];
    var ends', chains' := ends[p := RequeuedEnds(a, e)], chains[p := t];
    forall q: Place | q.tick < n ensures q in ends' && q in chains' && ChainAt(b, chains'[q], ends'[q], q) {
      assert ChainAt(a, chains[q], ends[q], q);
      if q != p {
        ChainElsewhere(a, b, chains[q], ends[q], q, p);
      } else {
        forall k | 0 <= k < |t|
          ensures t[k] < |b| && b[t[k]].At() == p { assert a[s[if k < |s| - 1 then k + 1 else 0]].At() == p; }
      }
    }
    RequeueOwned(n, a, b, chains, used, p);
  }

  lemma RequeueOwned(n: nat, a: seq<Cell>, b: seq<Cell>, chains: Chains, used: set<nat>, p: Place)
    requires Owned(n, a, chains, used) && SameCells(a, b) && p.tick < n && p in chains && chains[p] != []
    ensures Owned(n, b, chains[p := chains[p][1..] + [chains[p][0]]], used) && Kept(a, b, used)
  {
    var s, t := chains[p], chains[p][1..] + [chains[p][0]];
    var chains' := chains[p := t];
    forall q: Place, k | q.tick < n && q in chains' && 0 <= k < |chains'[q]| ensures chains'[q][k] in used {
      if q == p { assert t[k] == s[if k < |s| - 1 then k + 1 else 0]; }
    }
    forall x | x in used ensures x < |b| && b[x].At() == a[x].At() && x in chains'[b[x].At()] {
      if a[x].At() == p {
        var k :| 0 <= k < |s| && s[k] == x;
        assert t[if k > 0 then k - 1 else |s| - 1] == x;
      }
    }
  }

  lemma WholeKept(a: seq<Cell>, b: seq<Cell>, extras: seq<Extra>, used: set<nat>)
    requires Whole(a, extras, used) && Kept(a, b, used)
    ensures Whole(b, extras, used)
  {
    forall x | x in used ensures x < |b| && Meaning(b[x], extras) == Meaning(a[x], extras) {}
  }

  lemma SameWhere(a: seq<Cell>, b: seq<Cell>, orders: seq<int>)
    requires SameCells(a, b)
    ensures WhereOf(b, orders) == WhereOf(a, orders)
  {
    forall x | 0 <= x < |a| ensures b[x].At() == a[x].At() {}
  }

  lemma RequeuedQueue(a: seq<Cell>, b: seq<Cell>, extras: seq<Extra>, s: seq<nat>)
    requires SameCells(a, b) && forall k :: 0 <= k < |s| ==> s[k] < |a| && WellFormed(Meaning(a[s[k]], extras))
    ensures forall k :: 0 <= k < |s| ==> s[k] < |b| && Meaning(b[s[k]], extras) == Meaning(a[s[k]], extras)
    ensures QueueOf(b, extras, s) == QueueOf(a, extras, s)
    ensures s != [] ==> QueueOf(b, extras, s[1..] + [s[0]]) == QueueOf(a, extras, s)[1..] + [QueueOf(a, extras, s)[0]]
  {
    forall x | 0 <= x < |a| ensures Meaning(b[x], extras) == Meaning(a[x], extras) {}
  }

  /** What leaving means for the other nodes. */
  lemma LeaveMeans(a: seq<Cell>, b: seq<Cell>, before: seq<Extra>, extras: seq<Extra>, freeBefore: seq<nat>,
                   used: set<nat>,
                   held: map<nat, nat>, x: nat)
    requires Held(a, before, freeBefore, used, held) && Whole(a, before, used) && SameCells(a, b) && x in used &&
      x < |a|
    requires extras == before || (0 <= a[x].ext < |before| && extras == before[a[x].ext := BLANK_EXTRA])
    ensures forall y :: y in used - {x} ==> y < |a| && Meaning(b[y], extras) == Meaning(a[y], before)
    ensures Whole(b, extras, used - {x})
  {
    forall y | y in used - {x} ensures y < |a| && Meaning(b[y], extras) == Meaning(a[y], before) {
      assert b[y].Cold() == a[y].Cold() && b[y].ext == a[y].ext;
    }
  }

  lemma ExtKept(a: seq<Cell>, b: seq<Cell>, x: nat)
    requires SameCells(a, b) && x < |a|
    ensures b[x].ext == a[x].ext
  {}

  /** The slots of one level. */
  lemma ChainSlots(n: nat, a: seq<Cell>, extras: seq<Extra>, used: set<nat>, ends: map<Place, Ends>, chains: Chains,
                   p: Place)
    requires Chained(n, a, ends, chains) && Owned(n, a, chains, used) && Whole(a, extras, used) && p.tick < n
    ensures p in chains && Unique(chains[p])
    ensures forall j :: 0 <= j < |chains[p]| ==>
      chains[p][j] in used && chains[p][j] < |a| && WellFormed(Meaning(a[chains[p][j]], extras)) &&
        a[chains[p][j]].At() == p
  {
    assert ChainAt(a, chains[p], ends[p], p);
    forall j | 0 <= j < |chains[p]| ensures chains[p][j] in used {}
  }

  lemma CutQueue(a: seq<Cell>, b: seq<Cell>, before: seq<Extra>, extras: seq<Extra>, s: seq<nat>, k: nat)
    requires k < |s| && |a| == |b|
    requires forall j :: 0 <= j < |s| ==> s[j] < |a| && WellFormed(Meaning(a[s[j]], before))
    requires forall j :: 0 <= j < |s| && j != k ==> Meaning(b[s[j]], extras) == Meaning(a[s[j]], before)
    ensures forall j :: 0 <= j < |Cut(s, k)| ==> Cut(s, k)[j] < |b| && WellFormed(Meaning(b[Cut(s, k)[j]], extras))
    ensures QueueOf(b, extras, Cut(s, k)) == Without(QueueOf(a, before, s), k)
  {
    hide Meaning, WellFormed;
    var t, q := Cut(s, k), QueueOf(a, before, s);
    forall j | 0 <= j < |t|
      ensures t[j] == s[if j < k then j else j + 1] && Without(q, k)[j] == q[if j < k then j else j + 1] {}
  }

  lemma LeaveQueues(n: nat, a: seq<Cell>, b: seq<Cell>, before: seq<Extra>, extras: seq<Extra>, used: set<nat>,
                    ends: map<Place, Ends>, chains: Chains, p: Place, k: nat, q: Place)
    requires Chained(n, a, ends, chains) && Owned(n, a, chains, used) && Whole(a, before, used) && SameCells(a, b)
    requires p.tick < n && q.tick < n && k < |chains[p]|
    requires forall y :: y in used - {chains[p][k]} ==> y < |a| && Meaning(b[y], extras) == Meaning(a[y], before)
    ensures forall j :: 0 <= j < |chains[q]| ==> chains[q][j] < |a| && WellFormed(Meaning(a[chains[q][j]], before))
    ensures var s := if q == p then Cut(chains[p], k) else chains[q];
      && (forall j :: 0 <= j < |s| ==> s[j] < |b| && WellFormed(Meaning(b[s[j]], extras)))
      && QueueOf(b, extras, s) ==
          if q == p then Without(QueueOf(a, before, chains[q]), k) else QueueOf(a, before, chains[q])
  {
    hide Meaning, WellFormed, Chained, Owned, Whole, SameCells, Linked;
    ChainSlots(n, a, before, used, ends, chains, p);
    ChainSlots(n, a, before, used, ends, chains, q);
    SameLength(a, b);
    if q == p {
      forall j | 0 <= j < |chains[p]| && j != k ensures chains[p][j] in used - {chains[p][k]} {}
      CutQueue(a, b, before, extras, chains[p], k);
    } else {
      forall j | 0 <= j < |chains[q]| ensures chains[q][j] in used - {chains[p][k]} {}
      QueueSame(a, b, before, extras, chains[q]);
    }
  }

  lemma SameLength(a: seq<Cell>, b: seq<Cell>)
    requires SameCells(a, b)
    ensures |a| == |b|
  {}

  lemma LeaveWhere(a: seq<Cell>, b: seq<Cell>, orders: seq<int>, used: set<nat>, x: nat)
    requires Tabled(a, orders, used) && SameCells(a, b) && x in used
    ensures x < |a| && a[x].id < |orders| && WhereOf(b, orders[a[x].id := NIL]) == WhereOf(a, orders)[a[x].id := None]
  {}

  lemma HeldFree(a: seq<Cell>, extras: seq<Extra>, extraFree: seq<nat>, used: set<nat>, holder: map<nat, nat>)
    requires Held(a, extras, extraFree, used, holder)
    ensures forall k :: 0 <= k < |extraFree| ==> extraFree[k] < |extras|
  {}

  lemma ChainsKnown(n: nat, cells: seq<Cell>, ends: map<Place, Ends>, chains: Chains, p: Place)
    requires Chained(n, cells, ends, chains) && p.tick < n
    ensures p in ends && p in chains && ChainAt(cells, chains[p], ends[p], p)
  {}

  lemma JoinWhere(a: seq<Cell>, c: seq<Cell>, orders: seq<int>, used: set<nat>, x: nat, id: nat, p: Place)
    requires Tabled(a, orders, used) && Kept(a, c, used) && x < |c| && c[x].At() == p && id < |orders|
    ensures WhereOf(c, orders[id := x]) == WhereOf(a, orders)[id := Some(p)]
  {}

  lemma {:induction false} SameSize(used: set<nat>, ids: set<nat>, cells: seq<Cell>, orders: seq<int>)
    requires forall x :: x in used ==>
      x < |cells| && cells[x].id in ids && cells[x].id < |orders| && orders[cells[x].id] == x
    requires forall id :: id in ids ==>
      id < |orders| && orders[id] in used && 0 <= orders[id] < |cells| && cells[orders[id]].id == id
    ensures |used| == |ids|
    decreases |used|
  {
    if used == {} {
      assert ids == {};
    } else {
      var x :| x in used;
      assert used == (used - {x}) + {x} && ids == (ids - {cells[x].id}) + {cells[x].id};
      SameSize(used - {x}, ids - {cells[x].id}, cells, orders);
    }
  }
}
