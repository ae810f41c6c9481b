/** MoldUDP64 downstream packets, and the receiver's sequence accounting. */
module MoldUdp64 {
  import opened Wire

  const HEADER: nat := 20
  const END_OF_SESSION: nat := 0xFFFF

  // ---- framing --------------------------------------------------------

  /** The session name cut or space-padded to ten bytes. */
  function Padded(session: Bytes): (p: Bytes)
    ensures |p| == 10
  {
    if |session| >= 10 then session[..10] else session + seq(10 - |session|, i => 0x20)
  }

  function Blocks(msgs: seq<Bytes>): Bytes {
    if msgs == [] then [] else Big(|msgs[0]|, 2) + msgs[0] + Blocks(msgs[1..])
  }

  function Packet(session: Bytes, seqNo: nat, msgs: seq<Bytes>): Bytes {
    Padded(session) + Big(seqNo, 8) + Big(|msgs|, 2) + Blocks(msgs)
  }

  /** The end-of-session packet: a heartbeat whose count is all ones. */
  function EndPacket(session: Bytes, seqNo: nat): Bytes {
    Padded(session) + Big(seqNo, 8) + Big(END_OF_SESSION, 2)
  }

  /** A message block handed to the callback. */
  datatype Block = Block(seqNo: nat, payload: Bytes)

  /** `blocks` is what the callback got; `status` is -1 for a malformed packet. */
  datatype Decoded = NoHeader | Decoded(session: Bytes, seqNo: nat, count: nat, blocks: seq<Block>, status: int)

  /** The blocks of a packet from offset `off` on; a block past the end stops it. */
  function ReadBlocks(pkt: Bytes, off: nat, seqNo: nat, i: nat, count: nat): (r: (seq<Block>, bool))
    requires off <= |pkt| && i <= count
    decreases count - i
  {
    if i == count then ([], true)
    else if off + 2 > |pkt| then ([], false)
    else
      var len := Be16(pkt, off);
      if off + 2 + len > |pkt| then ([], false)
      else
        var rest := ReadBlocks(pkt, off + 2 + len, seqNo, i + 1, count);
        ([Block((seqNo + i) % B64, pkt[off + 2..off + 2 + len])] + rest.0, rest.1)
  }

  function Decode(pkt: Bytes): Decoded {
    if |pkt| < HEADER then NoHeader
    else
      var seqNo, count := Be64(pkt, 10), Be16(pkt, 18);
      if count == END_OF_SESSION then Decoded(pkt[..10], seqNo, count, [], 0)
      else
        var r := ReadBlocks(pkt, HEADER, seqNo, 0, count);
        Decoded(pkt[..10], seqNo, count, r.0, if r.1 then count else -1)
  }

  /** The decoder's loop. */
  method DecodePacket(pkt: Bytes) returns (d: Decoded)
    ensures d == Decode(pkt)
  {
    hide Be16, Be64;
    if |pkt| < HEADER { return NoHeader; }
    var seqNo, count := Be64(pkt, 10), Be16(pkt, 18);
    if count == END_OF_SESSION { return Decoded(pkt[..10], seqNo, count, [], 0); }
    var off, i, got := HEADER, 0, [];
    ghost var all := ReadBlocks(pkt, HEADER, seqNo, 0, count);
    assert [] + all.0 == all.0;
    while i < count
      invariant i <= count && HEADER <= off <= |pkt|
      invariant all == (got + ReadBlocks(pkt, off, seqNo, i, count).0, ReadBlocks(pkt, off, seqNo, i, count).1)
    {
      if off + 2 > |pkt| { return Decoded(pkt[..10], seqNo, count, got, -1); }
      var len := Be16(pkt, off);
      if off + 2 + len > |pkt| { return Decoded(pkt[..10], seqNo, count, got, -1); }
      var b := Block((seqNo + i) % B64, pkt[off + 2..off + 2 + len]);
      ghost var rest := ReadBlocks(pkt, off + 2 + len, seqNo, i + 1, count).0;
      assert got + ([b] + rest) == (got + [b]) + rest;
      got := got + [b];
      off, i := off + 2 + len, i + 1;
    }
    d := Decoded(pkt[..10], seqNo, count, got, count);
  }

  method PutBlocks(out: Bytes, msgs: seq<Bytes>) returns (r: Bytes)
    ensures r == out + Blocks(msgs)
  {
    hide Big;
    r := out;
    for i := 0 to |msgs|
      invariant r + Blocks(msgs[i..]) == out + Blocks(msgs)
    {
      assert msgs[i..][0] == msgs[i] && msgs[i..][1..] == msgs[i + 1..];
      ghost var before, rest := r, Blocks(msgs[i + 1..]);
      var sized := PutBig(r, |msgs[i]|, 2);
      r := sized + msgs[i];
      assert r + rest == before + (Big(|msgs[i]|, 2) + msgs[i] + rest);
    }
    assert r + Blocks(msgs[|msgs|..]) == r;
  }

  method EncodePacket(session: Bytes, seqNo: nat, msgs: seq<Bytes>, out: Bytes) returns (r: Bytes)
    ensures r == out + Packet(session, seqNo, msgs)
  {
    hide Big, Blocks, Padded;
    r := out + Padded(session);
    r := PutBig(r, seqNo, 8);
    r := PutBig(r, |msgs|, 2);
    r := PutBlocks(r, msgs);
    assert r == out + Packet(session, seqNo, msgs);
  }

  /** The blocks numbered on from `seqNo`. */
  function Numbered(msgs: seq<Bytes>, seqNo: nat): (b: seq<Block>)
    ensures |b| == |msgs| && forall k :: 0 <= k < |msgs| ==> b[k] == Block(seqNo + k, msgs[k])
  {
    seq(|msgs|, k requires 0 <= k < |msgs| => Block(seqNo + k, msgs[k]))
  }

  predicate Framable(msgs: seq<Bytes>) { forall k :: 0 <= k < |msgs| ==> |msgs[k]| < B16 }

  lemma BlockReadBack(pre: Bytes, m: Bytes, rest: Bytes, pkt: Bytes)
    requires |m| < B16 && pkt == pre + (Big(|m|, 2) + m + rest)
    ensures |pre| + 2 + |m| <= |pkt| && Be16(pkt, |pre|) == |m| && pkt[|pre| + 2..|pre| + 2 + |m|] == m
    ensures pkt == (pre + Big(|m|, 2) + m) + rest
  {
    hide Big, Be16, Be32, Be64;
    var h := Big(|m|, 2);
    Regroup(pre, h, m, rest);
    assert pkt == pre + h + (m + rest) && pkt == pre + h + m + rest;
    assert Be16(pkt, |pre|) == |m| by {
      ReadBack16(pre, |m|, m + rest);
      InRange(|m|);
    }
    assert pkt[|pre| + 2..|pre| + 2 + |m|] == m by { SliceOf(pre + h, m, rest); }
  }

  lemma Regroup(a: Bytes, b: Bytes, c: Bytes, d: Bytes)
    ensures a + (b + c + d) == a + b + (c + d)
    ensures a + (b + c + d) == (a + b + c) + d
  {
    assert b + c + d == b + (c + d);
    assert a + (b + (c + d)) == a + b + (c + d);
    assert a + b + (c + d) == (a + b + c) + d;
  }

  lemma SliceOf(a: Bytes, m: Bytes, rest: Bytes)
    ensures (a + m + rest)[|a|..|a| + |m|] == m
  {}

  /** Reading the blocks back, `i` of them already read before offset `|pre|`. */
  lemma {:induction false} BlocksReadBack(pre: Bytes, msgs: seq<Bytes>, seqNo: nat, i: nat)
    requires Framable(msgs) && seqNo + i + |msgs| <= B64
    ensures ReadBlocks(pre + Blocks(msgs), |pre|, seqNo, i, i + |msgs|) == (Numbered(msgs, seqNo + i), true)
    decreases |msgs|
  {
    if msgs == [] {
      assert pre + Blocks(msgs) == pre && Numbered(msgs, seqNo + i) == [];
    } else {
      BlocksReadBack(pre + Big(|msgs[0]|, 2) + msgs[0], msgs[1..], seqNo, i + 1);
      BlocksReadStep(pre, msgs, seqNo, i);
    }
  }

  lemma BlocksReadStep(pre: Bytes, msgs: seq<Bytes>, seqNo: nat, i: nat)
    requires msgs != [] && |msgs[0]| < B16 && seqNo + i + |msgs| <= B64
    requires var pre' := pre + Big(|msgs[0]|, 2) + msgs[0];
      ReadBlocks(pre' + Blocks(msgs[1..]), |pre'|, seqNo, i + 1, i + 1 + |msgs[1..]|) ==
        (Numbered(msgs[1..], seqNo + i + 1), true)
    ensures ReadBlocks(pre + Blocks(msgs), |pre|, seqNo, i, i + |msgs|) == (Numbered(msgs, seqNo + i), true)
  {
    hide Big, Be16, Numbered;
    var m, pkt := msgs[0], pre + Blocks(msgs);
    BlockReadBack(pre, m, Blocks(msgs[1..]), pkt);
    ReadBlocksStep(pkt, |pre|, m, seqNo, i, i + |msgs|, Numbered(msgs[1..], seqNo + i + 1));
    NumberedCons(msgs, seqNo + i);
  }

  lemma NumberedCons(msgs: seq<Bytes>, seqNo: nat)
    requires msgs != []
    ensures Numbered(msgs, seqNo) == [Block(seqNo, msgs[0])] + Numbered(msgs[1..], seqNo + 1)
  {
    hide Numbered;
  }

  lemma ReadBlocksStep(pkt: Bytes, off: nat, m: Bytes, seqNo: nat, i: nat, count: nat, rest: seq<Block>)
    requires i < count && off + 2 + |m| <= |pkt| && seqNo + i < B64
    requires Be16(pkt, off) == |m| && pkt[off + 2..off + 2 + |m|] == m
    requires ReadBlocks(pkt, off + 2 + |m|, seqNo, i + 1, count) == (rest, true)
    ensures ReadBlocks(pkt, off, seqNo, i, count) == ([Block(seqNo + i, m)] + rest, true)
  {
    hide Be16;
    InRange(seqNo + i);
  }

  lemma HeaderReadBack(session: Bytes, seqNo: nat, count: nat, rest: Bytes)
    ensures var pkt := Padded(session) + Big(seqNo, 8) + Big(count, 2) + rest;
      pkt[..10] == Padded(session) && Be64(pkt, 10) == seqNo % B64 && Be16(pkt, 18) == count % B16
  {
    hide Big, Be16, Be64, Padded;
    var pkt := Padded(session) + Big(seqNo, 8) + Big(count, 2) + rest;
    ReadBack64(Padded(session), seqNo, Big(count, 2) + rest);
    assert pkt == Padded(session) + Big(seqNo, 8) + (Big(count, 2) + rest);
    ReadBack16(Padded(session) + Big(seqNo, 8), count, rest);
  }

  /** A packet decodes to the same session, payloads and consecutive numbers exactly when
      it carries fewer than 65535 blocks: one more reads as end of session, and beyond
      that the 16-bit count has wrapped. */
  lemma PacketRoundTripsIff(session: Bytes, seqNo: nat, msgs: seq<Bytes>)
    requires Framable(msgs) && seqNo + |msgs| <= B64 && seqNo < B64
    ensures Decode(Packet(session, seqNo, msgs)) ==
      Decoded(Padded(session), seqNo, |msgs|, Numbered(msgs, seqNo), |msgs|)
      <==> |msgs| < END_OF_SESSION
  {
    hide Big, Be16, Be64, Blocks, Padded, ReadBlocks;
    var pkt := Packet(session, seqNo, msgs);
    var head := Padded(session) + Big(seqNo, 8) + Big(|msgs|, 2);
    HeaderReadBack(session, seqNo, |msgs|, Blocks(msgs));
    InRange(|msgs|);
    InRange(seqNo);
    if |msgs| < END_OF_SESSION {
      BlocksReadBack(head, msgs, seqNo, 0);
      assert ReadBlocks(pkt, HEADER, seqNo, 0, |msgs|) == (Numbered(msgs, seqNo), true);
    }
  }

  /** Heartbeats and end-of-session packets deliver nothing and say which they are. */
  lemma EmptyPackets(session: Bytes, seqNo: nat)
    requires seqNo < B64
    ensures Decode(Packet(session, seqNo, [])) == Decoded(Padded(session), seqNo, 0, [], 0)
    ensures Decode(EndPacket(session, seqNo)) == Decoded(Padded(session), seqNo, END_OF_SESSION, [], 0)
  {
    hide Big, Be16, Be64, Padded;
    HeaderReadBack(session, seqNo, 0, []);
    HeaderReadBack(session, seqNo, END_OF_SESSION, []);
    assert EndPacket(session, seqNo) == Padded(session) + Big(seqNo, 8) + Big(END_OF_SESSION, 2) + [];
    assert Packet(session, seqNo, []) == Padded(session) + Big(seqNo, 8) + Big(0, 2) + [];
    assert |Packet(session, seqNo, [])| == HEADER;
  }

  /** The payload is the stretch of the packet right behind its two length bytes. */
  ghost predicate Inside(pkt: Bytes, off: nat, payload: Bytes) {
    && off + 2 + |payload| <= |pkt|
    && Be16(pkt, off) == |payload| && pkt[off + 2..off + 2 + |payload|] == payload
  }

  /** Bytes taken by the first `k` blocks, lengths included. */
  function Taken(bs: seq<Block>, k: nat): nat
    requires k <= |bs|
  {
    if k == 0 then 0 else 2 + |bs[0].payload| + Taken(bs[1..], k - 1)
  }

  /** Whatever the bytes, blocks are numbered consecutively, as many as announced unless
      the packet is malformed. */
  lemma {:induction false} BlocksAreNumbered(pkt: Bytes, off: nat, seqNo: nat, i: nat, count: nat)
    requires off <= |pkt| && i <= count
    ensures var r := ReadBlocks(pkt, off, seqNo, i, count);
      && |r.0| <= count - i && (r.1 <==> |r.0| == count - i)
      && (forall k :: 0 <= k < |r.0| ==> r.0[k].seqNo == (seqNo + i + k) % B64)
    decreases count - i
  {
    if i < count && off + 2 <= |pkt| && off + 2 + Be16(pkt, off) <= |pkt| {
      BlocksAreNumbered(pkt, off + 2 + Be16(pkt, off), seqNo, i + 1, count);
    }
  }

  /** Whatever the bytes, a callback only ever gets stretches of the packet, one behind
      the other, each behind its own length. */
  lemma {:induction false} BlocksAreInside(pkt: Bytes, off: nat, seqNo: nat, i: nat, count: nat, k: nat)
    requires off <= |pkt| && i <= count && k < |ReadBlocks(pkt, off, seqNo, i, count).0|
    ensures var bs := ReadBlocks(pkt, off, seqNo, i, count).0; Inside(pkt, off + Taken(bs, k), bs[k].payload)
    decreases count - i
  {
    hide Be16;
    var len := Be16(pkt, off);
    if k > 0 {
      var bs, rest := ReadBlocks(pkt, off, seqNo, i, count).0, ReadBlocks(pkt, off + 2 + len, seqNo, i + 1, count).0;
      assert bs[1..] == rest;
      BlocksAreInside(pkt, off + 2 + len, seqNo, i + 1, count, k - 1);
    }
  }

  // ---- sequence accounting --------------------------------------------

  /** The receiver's view: the next block number it wants and the blocks it gave up on. */
  datatype Track = Track(expected: nat, gap: nat)

  /** A data packet as the tracker sees it. */
  datatype Span = Span(seqNo: nat, count: nat)

  predicate Sized(p: Span) { p.count < B16 && p.seqNo + p.count < B64 }

  /** The tracker after a packet, and how many of its leading blocks to skip. */
  function OnPacket(t: Track, p: Span): (r: (Track, nat))
    ensures r.1 <= p.count && r.0.expected >= t.expected
  {
    var u := if p.seqNo > t.expected then Track(p.seqNo, t.gap + p.seqNo - t.expected) else t;
    var skip := u.expected - p.seqNo;
    if skip >= p.count then (u, p.count) else (u.(expected := p.seqNo + p.count), skip)
  }

  function Count(from: nat, to: nat): (s: seq<nat>)
    ensures |s| == if from <= to then to - from else 0
    ensures forall k :: 0 <= k < |s| ==> s[k] == from + k
  {
    if from < to then seq(to - from, k requires 0 <= k < to - from => from + k) else []
  }

  /** The block numbers applied over a run of packets, in order. */
  function Delivered(t: Track, ps: seq<Span>): seq<nat>
    decreases |ps|
  {
    if ps == [] then []
    else
      var r := OnPacket(t, ps[0]);
      Count(ps[0].seqNo + r.1, ps[0].seqNo + ps[0].count) + Delivered(r.0, ps[1..])
  }

  function Tracked(t: Track, ps: seq<Span>): Track
    decreases |ps|
  {
    if ps == [] then t else Tracked(OnPacket(t, ps[0]).0, ps[1..])
  }

  predicate Increasing(s: seq<nat>) { forall i, j :: 0 <= i < j < |s| ==> s[i] < s[j] }

  /** Lost, duplicated, overlapping or reordered packets: blocks are applied in strictly
      increasing order, and applied plus given up is how far the tracker has moved. */
  lemma {:induction false} AccountingIsExact(t: Track, ps: seq<Span>)
    ensures var d, u := Delivered(t, ps), Tracked(t, ps);
      && Increasing(d)
      && (forall k :: 0 <= k < |d| ==> t.expected <= d[k] < u.expected)
      && t.expected <= u.expected && t.gap <= u.gap
      && |d| + (u.gap - t.gap) == u.expected - t.expected
    decreases |ps|
  {
    if ps != [] {
      AccountingIsExact(OnPacket(t, ps[0]).0, ps[1..]);
    }
  }

  /** Without a gap the receiver applies every block from where it started, each once. */
  lemma NoGapMeansAll(t: Track, ps: seq<Span>)
    requires Tracked(t, ps).gap == t.gap
    ensures Delivered(t, ps) == Count(t.expected, Tracked(t, ps).expected)
  {
    AccountingIsExact(t, ps);
    var d := Delivered(t, ps);
    forall k | 0 <= k < |d| ensures d[k] == t.expected + k { Squeezed(d, t.expected, k); }
  }

  /** Increasing numbers that fill a range are the range. */
  lemma Squeezed(d: seq<nat>, lo: nat, k: nat)
    requires Increasing(d) && k < |d| && forall j :: 0 <= j < |d| ==> lo <= d[j] < lo + |d|
    ensures d[k] == lo + k
  {
    AtLeastIndex(d, lo, k);
    AtMostIndex(d, lo, k);
  }

  lemma {:induction false} AtLeastIndex(d: seq<nat>, lo: nat, k: nat)
    requires Increasing(d) && k < |d| && forall j :: 0 <= j < |d| ==> lo <= d[j]
    ensures d[k] >= lo + k
  {
    if k > 0 { AtLeastIndex(d, lo, k - 1); }
  }

  lemma {:induction false} AtMostIndex(d: seq<nat>, lo: nat, k: nat)
    requires Increasing(d) && k < |d| && forall j :: 0 <= j < |d| ==> d[j] < lo + |d|
    ensures d[k] <= lo + k
    decreases |d| - k
  {
    if k + 1 < |d| { AtMostIndex(d, lo, k + 1); }
  }

  /** A late joiner's tracker skips every packet that ends before its start. */
  lemma {:induction false} LateStartSkips(t: Track, ps: seq<Span>)
    requires forall p :: p in ps ==> p.seqNo + p.count <= t.expected
    ensures Tracked(t, ps) == t && Delivered(t, ps) == []
    decreases |ps|
  {
    if ps != [] {
      assert ps[0] in ps;
      LateStartSkips(t, ps[1..]);
    }
  }

  class SequenceTracker {
    var expected: nat
    var gapMsgs: nat

    function Abs(): Track
      reads this
    {
      Track(expected, gapMsgs)
    }

    constructor (first: nat)
      ensures Abs() == Track(first, 0)
    {
      expected, gapMsgs := first, 0;
    }

    /** Hears one packet and answers how many of its leading blocks to skip. */
    method Hear(seqNo: nat, count: nat) returns (skip: nat)
      requires Sized(Span(seqNo, count)) && expected < B64
      modifies this
      ensures (Abs(), skip) == OnPacket(old(Abs()), Span(seqNo, count)) && expected < B64
    {
      if seqNo > expected {
        gapMsgs := gapMsgs + (seqNo - expected);
        expected := seqNo;
      }
      skip := expected - seqNo;
      if skip >= count { return count; }
      expected := seqNo + count;
    }
  }
}
