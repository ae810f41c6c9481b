/** Single-bit reasoning about 64-bit words. */
module Bits {

  predicate Bit(v: bv64, b: bv6) { (v >> b) & 1 == 1 }

  function One(b: bv6): bv64 { (1 as bv64) << b }

  /** Bits 0 to `b`. */
  function UpTo(b: bv6): bv64 { if b == 63 then 0xFFFF_FFFF_FFFF_FFFF else One(b + 1) - 1 }

  /** Bits `b` to 63. */
  function From(b: bv6): bv64 { 0xFFFF_FFFF_FFFF_FFFF << b }

  lemma SetBit(v: bv64, b: bv6, c: bv6)
    ensures Bit(v | One(b), c) <==> Bit(v, c) || c == b
  {}

  lemma ClearBit(v: bv64, b: bv6, c: bv6)
    ensures Bit(v & !One(b), c) <==> Bit(v, c) && c != b
  {}

  lemma MaskFrom(v: bv64, b: bv6, c: bv6)
    ensures Bit(v & From(b), c) <==> Bit(v, c) && c >= b
  {}

  lemma MaskUpTo(v: bv64, b: bv6, c: bv6)
    ensures Bit(v & UpTo(b), c) <==> Bit(v, c) && c <= b
  {
    hide Bit, One;
    if b < 63 {
      MaskBelow(v, b, c);
    } else {
      assert v & 0xFFFF_FFFF_FFFF_FFFF == v;
    }
  }

  lemma MaskBelow(v: bv64, b: bv6, c: bv6)
    requires b < 63
    ensures Bit(v & (One(b + 1) - 1), c) <==> Bit(v, c) && c <= b
  {}

  // ---- highest and lowest set bit -------------------------------------

  predicate NoneAbove(v: bv64, b: bv6) { b == 63 || v >> (b + 1) == 0 }
  predicate NoneBelow(v: bv64, b: bv6) { v & (One(b) - 1) == 0 }

  /** Index of the highest set bit: 63 minus the count of leading zeros. */
  function Highest(v: bv64): bv6 { HighestFrom(v, 63) }

  function HighestFrom(v: bv64, b: bv6): bv6
    decreases b as int
  {
    if b == 0 || Bit(v, b) then b else HighestFrom(v, b - 1)
  }

  /** Index of the lowest set bit: the count of trailing zeros. */
  function Lowest(v: bv64): bv6 { LowestFrom(v, 0) }

  function LowestFrom(v: bv64, b: bv6): bv6
    decreases 63 - b as int
  {
    if b == 63 || Bit(v, b) then b else LowestFrom(v, b + 1)
  }

  lemma AboveStep(v: bv64, b: bv6, c: bv6)
    requires NoneAbove(v, b)
    ensures c > b ==> !Bit(v, c)
    ensures b > 0 && !Bit(v, b) ==> NoneAbove(v, b - 1)
    ensures b == 0 && v != 0 ==> Bit(v, b)
  {}

  lemma BelowStep(v: bv64, b: bv6, c: bv6)
    requires NoneBelow(v, b)
    ensures c < b ==> !Bit(v, c)
    ensures b < 63 && !Bit(v, b) ==> NoneBelow(v, b + 1)
    ensures b == 63 && v != 0 ==> Bit(v, b)
  {}

  lemma {:induction false} HighestFromIsHighest(v: bv64, b: bv6, c: bv6)
    requires v != 0 && NoneAbove(v, b)
    ensures Bit(v, HighestFrom(v, b)) && (c > HighestFrom(v, b) ==> !Bit(v, c))
    decreases b as int
  {
    hide Bit, NoneAbove;
    AboveStep(v, b, c);
    if b > 0 && !Bit(v, b) { HighestFromIsHighest(v, b - 1, c); }
  }

  lemma {:induction false} LowestFromIsLowest(v: bv64, b: bv6, c: bv6)
    requires v != 0 && NoneBelow(v, b)
    ensures Bit(v, LowestFrom(v, b)) && (c < LowestFrom(v, b) ==> !Bit(v, c))
    decreases 63 - b as int
  {
    hide Bit, NoneBelow;
    BelowStep(v, b, c);
    if b < 63 && !Bit(v, b) { LowestFromIsLowest(v, b + 1, c); }
  }

  lemma HighestIsHighest(v: bv64, c: bv6)
    requires v != 0
    ensures Bit(v, Highest(v)) && (c > Highest(v) ==> !Bit(v, c))
  {
    hide Bit, HighestFrom;
    HighestFromIsHighest(v, 63, c);
  }

  lemma LowestIsLowest(v: bv64, c: bv6)
    requires v != 0
    ensures Bit(v, Lowest(v)) && (c < Lowest(v) ==> !Bit(v, c))
  {
    hide Bit, LowestFrom;
    assert NoneBelow(v, 0);
    LowestFromIsLowest(v, 0, c);
  }

  lemma Order(a: bv6, b: bv6)
    ensures a < b <==> a as int < b as int
    ensures a == b <==> a as int == b as int
  {}

  lemma RoundTrip(i: nat)
    requires i < 64
    ensures (i as bv6) as int == i
  {}

  lemma Convert(j: nat, k: nat)
    requires j < 64 && k < 64
    ensures j < k <==> j as bv6 < k as bv6
    ensures j == k <==> j as bv6 == k as bv6
  {
    RoundTrip(j);
    RoundTrip(k);
    Order(j as bv6, k as bv6);
  }

  // ---- the same over plain indices ------------------------------------

  predicate Marked(v: bv64, k: nat)
    requires k < 64
  {
    Bit(v, k as bv6)
  }

  function WithMark(v: bv64, k: nat): bv64 requires k < 64 { v | One(k as bv6) }
  function WithoutMark(v: bv64, k: nat): bv64 requires k < 64 { v & !One(k as bv6) }
  function CutAbove(v: bv64, k: nat): bv64 requires k < 64 { v & UpTo(k as bv6) }
  function CutBelow(v: bv64, k: nat): bv64 requires k < 64 { v & From(k as bv6) }
  function TopMark(v: bv64): nat { Highest(v) as int }
  function BottomMark(v: bv64): nat { Lowest(v) as int }

  lemma MarkSet(v: bv64, k: nat, j: nat)
    requires j < 64 && k < 64
    ensures Marked(WithMark(v, k), j) <==> Marked(v, j) || j == k
  {
    hide Bit, One;
    Convert(j, k);
    Convert(k, j);
    SetBit(v, k as bv6, j as bv6);
  }

  lemma MarkClear(v: bv64, k: nat, j: nat)
    requires j < 64 && k < 64
    ensures Marked(WithoutMark(v, k), j) <==> Marked(v, j) && j != k
  {
    hide Bit, One;
    Convert(j, k);
    Convert(k, j);
    ClearBit(v, k as bv6, j as bv6);
  }

  lemma MarkCutAbove(v: bv64, k: nat, j: nat)
    requires j < 64 && k < 64
    ensures Marked(CutAbove(v, k), j) <==> Marked(v, j) && j <= k
  {
    hide Bit, UpTo;
    Convert(j, k);
    Convert(k, j);
    MaskUpTo(v, k as bv6, j as bv6);
  }

  lemma MarkCutBelow(v: bv64, k: nat, j: nat)
    requires j < 64 && k < 64
    ensures Marked(CutBelow(v, k), j) <==> Marked(v, j) && j >= k
  {
    hide Bit, From;
    Convert(j, k);
    Convert(k, j);
    MaskFrom(v, k as bv6, j as bv6);
  }

  lemma NoMarks(j: nat)
    requires j < 64
    ensures !Marked(0, j)
  {
    hide Bit;
    NoBits(j as bv6);
  }

  lemma TopAndBottom(v: bv64, j: nat)
    requires v != 0 && j < 64
    ensures TopMark(v) < 64 && Marked(v, TopMark(v)) && (Marked(v, j) ==> j <= TopMark(v))
    ensures BottomMark(v) < 64 && Marked(v, BottomMark(v)) && (Marked(v, j) ==> BottomMark(v) <= j)
  {
    hide Bit, Highest, Lowest;
    RoundTrip(j);
    HighestIsHighest(v, j as bv6);
    LowestIsLowest(v, j as bv6);
    Order(Highest(v), j as bv6);
    Order(j as bv6, Lowest(v));
  }

  lemma NoBits(c: bv6)
    ensures !Bit(0, c)
  {}
}

/** The occupancy bitmap and its word scans. */
module Bitmap {
  import opened Bits

  /** Level `i` is marked in the words. */
  predicate Has(words: seq<bv64>, i: nat)
    requires i < 64 * |words|
  {
    Marked(words[i / 64], i % 64)
  }

  /** What is left of word `w` when only the levels `lo..hi` are of interest. */
  ghost predicate IsCut(words: seq<bv64>, w: nat, v: bv64, lo: nat, hi: nat)
    requires w < |words|
  {
    forall k :: 0 <= k < 64 ==> (Marked(v, k) <==> Has(words, 64 * w + k) && lo <= 64 * w + k <= hi)
  }

  lemma Address(w: nat, k: nat)
    requires k < 64
    ensures (64 * w + k) / 64 == w && (64 * w + k) % 64 == k
  {}

  lemma EmptyCut(words: seq<bv64>, w: nat, lo: nat, hi: nat, j: nat)
    requires w < |words| && IsCut(words, w, 0, lo, hi) && 64 * w <= j < 64 * w + 64
    ensures !(lo <= j <= hi && Has(words, j))
  {
    hide Marked, Has;
    NoMarks(j - 64 * w);
    assert j == 64 * w + (j - 64 * w);
  }

  lemma CutEnds(words: seq<bv64>, w: nat, v: bv64, lo: nat, hi: nat, j: nat)
    requires w < |words| && v != 0 && IsCut(words, w, v, lo, hi) && 64 * w <= j < 64 * w + 64
    ensures TopMark(v) < 64 && lo <= 64 * w + TopMark(v) <= hi && Has(words, 64 * w + TopMark(v))
    ensures BottomMark(v) < 64 && lo <= 64 * w + BottomMark(v) <= hi && Has(words, 64 * w + BottomMark(v))
    ensures lo <= j <= hi && Has(words, j) ==> 64 * w + BottomMark(v) <= j <= 64 * w + TopMark(v)
  {
    hide Marked, TopMark, BottomMark;
    TopAndBottom(v, j - 64 * w);
    assert j == 64 * w + (j - 64 * w);
  }

  lemma FirstCutAbove(words: seq<bv64>, w: nat, m: nat)
    requires w < |words| && m < 64
    ensures IsCut(words, w, CutAbove(words[w], m), 0, 64 * w + m)
  {
    hide Marked, CutAbove;
    forall k | 0 <= k < 64
      ensures Marked(CutAbove(words[w], m), k) <==> Has(words, 64 * w + k) && k <= m
    {
      MarkCutAbove(words[w], m, k);
      Address(w, k);
    }
  }

  lemma FirstCutBelow(words: seq<bv64>, w: nat, m: nat)
    requires w < |words| && m < 64
    ensures IsCut(words, w, CutBelow(words[w], m), 64 * w + m, 64 * |words|)
  {
    hide Marked, CutBelow;
    forall k | 0 <= k < 64
      ensures Marked(CutBelow(words[w], m), k) <==> Has(words, 64 * w + k) && m <= k
    {
      MarkCutBelow(words[w], m, k);
      Address(w, k);
    }
  }

  lemma WholeWord(words: seq<bv64>, w: nat, lo: nat, hi: nat)
    requires w < |words| && lo <= 64 * w && 64 * w + 63 <= hi
    ensures IsCut(words, w, words[w], lo, hi)
  {
    hide Marked;
    forall k | 0 <= k < 64 ensures Marked(words[w], k) <==> Has(words, 64 * w + k) {
      Address(w, k);
    }
  }

  class LevelBitmap {
    const n: nat
    const words: array<bv64>

    ghost predicate Valid()
      reads words
    {
      && words.Length == (n + 63) / 64
      && forall j :: n <= j < 64 * words.Length ==> !Has(words[..], j)
    }

    constructor (nLevels: nat)
      ensures n == nLevels && Valid() && fresh(words)
      ensures forall j :: 0 <= j < n ==> !Test(j)
    {
      n := nLevels;
      words := new bv64[(nLevels + 63) / 64](_ => 0);
      new;
      hide Marked;
      forall j | 0 <= j < 64 * words.Length ensures !Has(words[..], j) {
        NoMarks(j % 64);
      }
    }

    predicate Test(i: nat)
      requires i < n && words.Length == (n + 63) / 64
      reads words
    {
      Has(words[..], i)
    }

    method Set(i: nat)
      requires Valid() && i < n
      modifies words
      ensures Valid()
      ensures forall j :: 0 <= j < n ==> (Test(j) <==> old(Test(j)) || j == i)
    {
      hide Marked;
      ghost var before := words[..];
      words[i / 64] := WithMark(words[i / 64], i % 64);
      forall j | 0 <= j < 64 * words.Length ensures Has(words[..], j) <==> Has(before, j) || j == i {
        MarkSet(before[i / 64], i % 64, j % 64);
      }
    }

    method Clear(i: nat)
      requires Valid() && i < n
      modifies words
      ensures Valid()
      ensures forall j :: 0 <= j < n ==> (Test(j) <==> old(Test(j)) && j != i)
    {
      hide Marked;
      ghost var before := words[..];
      words[i / 64] := WithoutMark(words[i / 64], i % 64);
      forall j | 0 <= j < 64 * words.Length ensures Has(words[..], j) <==> Has(before, j) && j != i {
        MarkClear(before[i / 64], i % 64, j % 64);
      }
    }

    /** The highest marked level at or below `i`, or -1. */
    method FindLe(i: int) returns (r: int)
      requires Valid() && n > 0
      ensures -1 <= r < n && r <= (if i < 0 then -1 else i)
      ensures r >= 0 ==> Test(r)
      ensures forall j :: 0 <= j < n && j <= i && Test(j) ==> j <= r
    {
      hide Marked, CutAbove, TopMark, IsCut, Has;
      if i < 0 { return -1; }
      var top: nat := if i >= n then n - 1 else i;
      var w := top / 64;
      var v := CutAbove(words[w], top % 64);
      ghost var ws := words[..];
      FirstCutAbove(ws, w, top % 64);
      while true
        invariant 0 <= w <= top / 64 < words.Length && words[..] == ws
        invariant IsCut(ws, w, v, 0, top)
        invariant forall j :: 64 * (w + 1) <= j <= top ==> !Has(ws, j)
        decreases w
      {
        if v != 0 {
          forall j | 0 <= j <= top && Has(ws, j) ensures j <= 64 * w + TopMark(v) {
            if j >= 64 * w { CutEnds(ws, w, v, 0, top, j); }
          }
          CutEnds(ws, w, v, 0, top, 64 * w);
          return 64 * w + TopMark(v);
        }
        forall j | 64 * w <= j <= top ensures !Has(ws, j) {
          if j < 64 * w + 64 { EmptyCut(ws, w, 0, top, j); }
        }
        if w == 0 { return -1; }
        w := w - 1;
        v := words[w];
        WholeWord(ws, w, 0, top);
      }
    }

    /** The lowest marked level at or above `i`, or -1. */
    method FindGe(i: int) returns (r: int)
      requires Valid() && n > 0
      ensures -1 <= r < n && (r >= 0 ==> r >= i && Test(r))
      ensures forall j :: 0 <= j < n && j >= i && Test(j) ==> 0 <= r <= j
    {
      hide Marked, CutBelow, BottomMark, IsCut, Has;
      var bottom: nat := if i < 0 then 0 else i;
      if bottom >= n { return -1; }
      var w := bottom / 64;
      var v := CutBelow(words[w], bottom % 64);
      ghost var ws := words[..];
      ghost var end := 64 * words.Length;
      FirstCutBelow(ws, w, bottom % 64);
      while true
        invariant bottom / 64 <= w < words.Length && words[..] == ws
        invariant IsCut(ws, w, v, bottom, end)
        invariant forall j :: bottom <= j < 64 * w ==> !Has(ws, j)
        decreases words.Length - w
      {
        if v != 0 {
          forall j | bottom <= j < end && Has(ws, j) ensures 64 * w + BottomMark(v) <= j {
            if j < 64 * w + 64 { CutEnds(ws, w, v, bottom, end, j); } else { CutEnds(ws, w, v, bottom, end, 64 * w); }
          }
          CutEnds(ws, w, v, bottom, end, 64 * w);
          return 64 * w + BottomMark(v);
        }
        forall j | bottom <= j < 64 * w + 64 ensures !Has(ws, j) {
          if j >= 64 * w { EmptyCut(ws, w, bottom, end, j); }
        }
        w := w + 1;
        if w == words.Length { return -1; }
        v := words[w];
        WholeWord(ws, w, bottom, end);
      }
    }
  }
}
