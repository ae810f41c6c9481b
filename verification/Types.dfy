/** Values shared by every component: sides, policies, order nodes and engine events. */
module Types {

  datatype Option<+T> = None | Some(value: T)

  datatype Side = Buy | Sell {
    function Opposite(): Side { if Buy? then Sell else Buy }
  }

  datatype TimeInForce = GTC | IOC | FOK | PostOnly

  /** What happens when a taker meets a resting order of its own owner. */
  datatype StpPolicy = CancelTaker | CancelMaker | CancelBoth

  /** One order node together with its cold side-table entry. `qty` is the
      displayed remainder, `reserve` the hidden one; `peak != 0` marks an
      iceberg. `market` and `limit` are meaningful for pending stops only. */
  datatype Node = Node(id: nat, qty: nat, owner: nat, stp: StpPolicy,
                       reserve: nat, peak: nat, market: bool, limit: int)

  predicate WellFormed(o: Node) {
    o.qty > 0 && (o.reserve > 0 ==> o.peak > 0)
  }

  /** A live order always shows something, and only an iceberg hides anything. */
  type Order = o: Node | WellFormed(o)
    witness Node(0, 1, 0, CancelTaker, 0, 0, false, 0)

  datatype Event =
    | Accepted(id: nat, side: Side, price: int, qty: nat)
    | Traded(taker: nat, maker: nat, price: int, qty: nat, takerSide: Side)
    | Cancelled(id: nat)
    | Rejected(id: nat)
    | Rested(id: nat, side: Side, price: int, qty: nat)

  function Min(a: nat, b: nat): nat { if a < b then a else b }

  function Abs(a: int): nat { if a < 0 then -a else a }

  /** No number occurs twice. */
  predicate Unique(s: seq<nat>) {
    forall i, j :: 0 <= i < j < |s| ==> s[i] != s[j]
  }

  lemma UniqueAppend(a: seq<nat>, b: seq<nat>)
    requires Unique(a) && Unique(b) && forall x :: x in a ==> x !in b
    ensures Unique(a + b)
  {
    forall i, j | 0 <= i < j < |a + b| ensures (a + b)[i] != (a + b)[j] {
      if i < |a| <= j { assert a[i] in a && b[j - |a|] in b; }
    }
  }
}
