/** Where every field stands on the wire, byte by byte. */
module Layouts {
  import opened Types
  import opened Wire
  import opened Feed
  import opened ItchCodec
  import opened MoldUdp64
  import opened OuchCodec

  /** From byte `i` on, `b` holds the low `n` bytes of `v`, the most significant first. */
  ghost predicate Holds(b: Bytes, i: nat, n: nat, v: int) {
    i + n <= |b| && var f := b[i..i + n]; forall k :: 0 <= k < n ==> f[k] == (v / Radix(n - 1 - k)) % 256
  }

  lemma {:induction false} BigHolds(v: int, n: nat, k: nat)
    requires k < n
    ensures Big(v, n)[k] == (v / Radix(n - 1 - k)) % 256
    decreases n
  {
    if k < n - 1 {
      BigHolds(v / 256, n - 1, k);
      DivideTwice(v, Radix(n - 2 - k));
    }
  }

  lemma DivideTwice(v: int, r: nat)
    requires r > 0
    ensures (v / 256) / r == v / (256 * r)
  {
    var q, a := v / 256, v % 256;
    var p, b := q / r, q % r;
    assert v == 256 * (p * r + b) + a;
    assert v == p * (256 * r) + (256 * b + a);
    assert 256 * b + a < 256 * r;
    DivideIs(v, p, 256 * b + a, 256 * r);
  }

  lemma DivideIs(v: int, q: int, m: nat, r: nat)
    requires m < r && v == q * r + m
    ensures v / r == q
  {
    ModIs(v, q, m, r);
    var q' := v / r;
    assert v == q' * r + m;
    Distribute(q, q', r);
    Distribute(q', q, r);
    if q > q' { AtLeast(q - q', r); }
    if q < q' { AtLeast(q' - q, r); }
  }

  lemma FieldHolds(b: Bytes, pre: Bytes, v: int, n: nat, post: Bytes)
    requires b == pre + Big(v, n) + post
    ensures Holds(b, |pre|, n, v)
  {
    hide Big;
    assert b[|pre|..|pre| + n] == Big(v, n);
    forall k | 0 <= k < n ensures Big(v, n)[k] == (v / Radix(n - 1 - k)) % 256 { BigHolds(v, n, k); }
  }

  // ---- the feed -------------------------------------------------------

  /** Every feed message starts with its kind, stock locate 1, tracking number 0 and the time. */
  ghost predicate Headed(b: Bytes, kind: char, ts: nat)
    requires kind < 256 as char
  {
    |b| >= 11 && b[0] == kind as nat && b[1..5] == [0, 1, 0, 0] && Holds(b, 5, 6, ts)
  }

  lemma HeadLayout(b: Bytes, kind: char, ts: nat, rest: Bytes)
    requires kind < 256 as char && b == Head(kind, ts) + rest
    ensures Headed(b, kind, ts)
  {
    hide Big, Holds;
    assert Big(1, 2) == [0, 1] && Big(0, 2) == [0, 0] by { SmallBig(); }
    FieldHolds(b, [kind as nat] + Big(1, 2) + Big(0, 2), ts, 6, rest);
  }

  lemma SmallBig()
    ensures Big(1, 2) == [0, 1] && Big(0, 2) == [0, 0]
  {
    assert Big(0, 1) == [0];
  }

  /** The head, then an order reference at byte 11 and what follows it from byte 19. */
  lemma RefLayout(b: Bytes, kind: char, ts: nat, ref: nat, rest: Bytes)
    requires kind < 256 as char && b == Head(kind, ts) + Big(ref, 8) + rest
    ensures Headed(b, kind, ts) && Holds(b, 11, 8, ref) && b[19..] == rest
  {
    hide Big, Holds, Head;
    assert b == Head(kind, ts) + (Big(ref, 8) + rest);
    HeadLayout(b, kind, ts, Big(ref, 8) + rest);
    FieldHolds(b, Head(kind, ts), ref, 8, rest);
  }

  /** A field at the start of what follows byte `i`. */
  lemma RestHolds(b: Bytes, i: nat, v: int, n: nat, rest: Bytes)
    requires i <= |b| && b[i..] == Big(v, n) + rest
    ensures Holds(b, i, n, v) && b[i + n..] == rest
  {
    hide Big, Holds;
    assert b == b[..i] + Big(v, n) + rest;
    FieldHolds(b, b[..i], v, n, rest);
  }

  /** Add Order: reference, side, shares, stock, price; 36 bytes. */
  lemma AddLayout(e: Envelope, ref: nat, side: Side, qty: nat, price: int)
    requires Addressed(e)
    ensures var b := Encode(Add(ref, side, qty, price), e);
      && |b| == 36 && Headed(b, 'A', e.ts) && Holds(b, 11, 8, ref) && b[19] == (if side.Buy? then 66 else 83)
      && Holds(b, 20, 4, qty) && b[24..32] == e.stock && Holds(b, 32, 4, price)
  {
    hide Big, Holds, Head, Headed;
    var b, rest := EncodeAdd(e, ref, side, qty, price), Big(qty, 4) + e.stock + Big(price, 4);
    assert b == Head('A', e.ts) + Big(ref, 8) + ([SideByte(side)] + rest);
    RefLayout(b, 'A', e.ts, ref, [SideByte(side)] + rest);
    assert b[20..] == Big(qty, 4) + (e.stock + Big(price, 4));
    RestHolds(b, 20, qty, 4, e.stock + Big(price, 4));
    assert b[32..] == Big(price, 4) + [];
    RestHolds(b, 32, price, 4, []);
    assert b[24..32] == e.stock;
  }

  /** Order Executed: reference, shares, match number; 31 bytes. */
  lemma ExecuteLayout(e: Envelope, ref: nat, qty: nat)
    ensures var b := Encode(Execute(ref, qty), e);
      |b| == 31 && Headed(b, 'E', e.ts) && Holds(b, 11, 8, ref) && Holds(b, 19, 4, qty) && Holds(b, 23, 8, e.match_)
  {
    hide Big, Holds, Head, Headed;
    var b := EncodeExecute(e, ref, qty);
    assert b == Head('E', e.ts) + Big(ref, 8) + (Big(qty, 4) + Big(e.match_, 8));
    RefLayout(b, 'E', e.ts, ref, Big(qty, 4) + Big(e.match_, 8));
    RestHolds(b, 19, qty, 4, Big(e.match_, 8));
    assert b[23..] == Big(e.match_, 8) + [];
    RestHolds(b, 23, e.match_, 8, []);
  }

  /** Order Executed With Price: the same, then printable and the price; 36 bytes. */
  lemma ExecuteAtLayout(e: Envelope, ref: nat, qty: nat, price: int)
    ensures var b := Encode(ExecuteAt(ref, qty, price), e);
      && |b| == 36 && Headed(b, 'C', e.ts) && Holds(b, 11, 8, ref) && Holds(b, 19, 4, qty)
      && Holds(b, 23, 8, e.match_) && b[31] == 89 && Holds(b, 32, 4, price)
  {
    hide Big, Holds, Head, Headed;
    var b, rest := EncodeExecuteAt(e, ref, qty, price), Big(e.match_, 8) + (['Y' as nat] + Big(price, 4));
    assert b == Head('C', e.ts) + Big(ref, 8) + (Big(qty, 4) + rest);
    RefLayout(b, 'C', e.ts, ref, Big(qty, 4) + rest);
    RestHolds(b, 19, qty, 4, rest);
    RestHolds(b, 23, e.match_, 8, ['Y' as nat] + Big(price, 4));
    assert b[32..] == Big(price, 4) + [];
    RestHolds(b, 32, price, 4, []);
    assert b[31..][0] == 89;
  }

  /** Order Cancel: reference and the shares taken off; 23 bytes. Order Delete: the
      reference; 19 bytes. */
  lemma CancelLayout(e: Envelope, ref: nat, qty: nat)
    ensures var b := Encode(Shrink(ref, qty), e);
      |b| == 23 && Headed(b, 'X', e.ts) && Holds(b, 11, 8, ref) && Holds(b, 19, 4, qty)
    ensures var b := Encode(Delete(ref), e); |b| == 19 && Headed(b, 'D', e.ts) && Holds(b, 11, 8, ref)
  {
    hide Big, Holds, Head, Headed;
    var b, d := EncodeShrink(e, ref, qty), EncodeDelete(e, ref);
    RefLayout(b, 'X', e.ts, ref, Big(qty, 4));
    assert b[19..] == Big(qty, 4) + [];
    RestHolds(b, 19, qty, 4, []);
    assert d == Head('D', e.ts) + Big(ref, 8) + [];
    RefLayout(d, 'D', e.ts, ref, []);
  }

  /** Order Replace: the two references, shares, price; 35 bytes. */
  lemma ReplaceLayout(e: Envelope, ref: nat, newRef: nat, qty: nat, price: int)
    ensures var b := Encode(Replace(ref, newRef, qty, price), e);
      && |b| == 35 && Headed(b, 'U', e.ts) && Holds(b, 11, 8, ref) && Holds(b, 19, 8, newRef)
      && Holds(b, 27, 4, qty) && Holds(b, 31, 4, price)
  {
    hide Big, Holds, Head, Headed;
    var b := EncodeReplace(e, ref, newRef, qty, price);
    assert b == Head('U', e.ts) + Big(ref, 8) + (Big(newRef, 8) + (Big(qty, 4) + Big(price, 4)));
    RefLayout(b, 'U', e.ts, ref, Big(newRef, 8) + (Big(qty, 4) + Big(price, 4)));
    RestHolds(b, 19, newRef, 8, Big(qty, 4) + Big(price, 4));
    RestHolds(b, 27, qty, 4, Big(price, 4));
    assert b[31..] == Big(price, 4) + [];
    RestHolds(b, 31, price, 4, []);
  }

  /** Cross Trade: shares in eight bytes, stock, price, match number, opening cross; 40 bytes.
      Trading Action: stock, the state, five blanks reserved and for the reason; 25 bytes. */
  lemma VenueLayout(e: Envelope, qty: nat, price: int, halted: bool)
    requires Addressed(e)
    ensures var b := Encode(CrossPrint(qty, price), e);
      && |b| == 40 && Headed(b, 'Q', e.ts) && Holds(b, 11, 8, qty) && b[19..27] == e.stock
      && Holds(b, 27, 4, price) && Holds(b, 31, 8, e.match_) && b[39] == 79
    ensures var b := Encode(Action(halted), e);
      && |b| == 25 && Headed(b, 'H', e.ts) && b[11..19] == e.stock && b[19] == (if halted then 72 else 84)
      && b[20..] == [32, 32, 32, 32, 32]
  {
    hide Big, Holds, Head, Headed;
    var b, rest := EncodeCross(e, qty, price), Big(e.match_, 8) + ['O' as nat];
    assert b == Head('Q', e.ts) + Big(qty, 8) + (e.stock + (Big(price, 4) + rest));
    RefLayout(b, 'Q', e.ts, qty, e.stock + (Big(price, 4) + rest));
    assert b[27..] == Big(price, 4) + rest && b[19..27] == e.stock;
    RestHolds(b, 27, price, 4, rest);
    RestHolds(b, 31, e.match_, 8, ['O' as nat]);
    assert b[39..][0] == 79;
    var a := EncodeAction(e, halted);
    var tail := e.stock + [if halted then 'H' as nat else 'T' as nat] + [0x20, 0x20, 0x20, 0x20, 0x20];
    assert a == Head('H', e.ts) + tail;
    HeadLayout(a, 'H', e.ts, tail);
  }

  // ---- packets and files ----------------------------------------------

  /** A framed body: its length in two bytes, then the body. */
  lemma FrameLayout(body: Bytes)
    ensures var b := Frame(body); |b| == |body| + 2 && Holds(b, 0, 2, |body|) && b[2..] == body
  {
    hide Big, Holds;
    assert Frame(body) == [] + Big(|body|, 2) + body;
    FieldHolds(Frame(body), [], |body|, 2, body);
  }

  /** A packet: session, sequence number, message count; then the first message behind its
      length, if there is one. The end of a session counts all ones. */
  lemma PacketLayout(session: Bytes, seqNo: nat, msgs: seq<Bytes>)
    ensures var b := Packet(session, seqNo, msgs);
      && |b| >= 20 && b[..10] == Padded(session) && Holds(b, 10, 8, seqNo) && Holds(b, 18, 2, |msgs|)
      && (msgs == [] ==> |b| == 20)
      && (msgs != [] ==> Holds(b, 20, 2, |msgs[0]|) && |b| >= 22 + |msgs[0]| && b[22..22 + |msgs[0]|] == msgs[0])
    ensures var b := EndPacket(session, seqNo);
      |b| == 20 && b[..10] == Padded(session) && Holds(b, 10, 8, seqNo) && Holds(b, 18, 2, 0xFFFF)
  {
    hide Big, Holds, Padded;
    var b, d, s := Packet(session, seqNo, msgs), EndPacket(session, seqNo), Padded(session);
    assert b == s + Big(seqNo, 8) + (Big(|msgs|, 2) + Blocks(msgs));
    FieldHolds(b, s, seqNo, 8, Big(|msgs|, 2) + Blocks(msgs));
    assert b[18..] == Big(|msgs|, 2) + Blocks(msgs);
    RestHolds(b, 18, |msgs|, 2, Blocks(msgs));
    if msgs != [] {
      assert b[20..] == Big(|msgs[0]|, 2) + (msgs[0] + Blocks(msgs[1..]));
      RestHolds(b, 20, |msgs[0]|, 2, msgs[0] + Blocks(msgs[1..]));
      assert b[22..][..|msgs[0]|] == msgs[0];
    }
    assert d == s + Big(seqNo, 8) + Big(END_OF_SESSION, 2);
    FieldHolds(d, s, seqNo, 8, Big(END_OF_SESSION, 2));
    assert d == (s + Big(seqNo, 8)) + Big(END_OF_SESSION, 2) + [];
    FieldHolds(d, s + Big(seqNo, 8), END_OF_SESSION, 2, []);
  }

  // ---- order entry ----------------------------------------------------

  /** Enter Order: token, side, shares, price, time in force, display, owner and the
      self-trade policy; 36 bytes. */
  lemma EnterLayout(token: Bytes, side: Side, qty: nat, price: int, tif: TimeInForce, display: nat, owner: nat,
                    stp: StpPolicy)
    ensures var b := EncodeEnter(token, side, qty, price, tif, display, owner, stp);
      && |b| == 36 && b[0] == 79 && b[1..15] == PutToken(token) && b[15] == (if side.Buy? then 66 else 83)
      && Holds(b, 16, 4, qty) && Holds(b, 20, 8, price)
      && b[28] == (match tif case GTC => 0 case IOC => 1 case FOK => 2 case PostOnly => 3)
      && Holds(b, 29, 4, display) && Holds(b, 33, 2, owner)
      && b[35] == (match stp case CancelTaker => 0 case CancelMaker => 1 case CancelBoth => 2)
  {
    hide Big, Holds, PutToken;
    var b, t := EncodeEnter(token, side, qty, price, tif, display, owner, stp), [StpByte(stp)];
    var u := [TifByte(tif)] + (Big(display, 4) + (Big(owner, 2) + t));
    assert b[16..] == Big(qty, 4) + (Big(price, 8) + u);
    RestHolds(b, 16, qty, 4, Big(price, 8) + u);
    RestHolds(b, 20, price, 8, u);
    assert b[29..] == Big(display, 4) + (Big(owner, 2) + t) && b[28..][0] == TifByte(tif);
    RestHolds(b, 29, display, 4, Big(owner, 2) + t);
    RestHolds(b, 33, owner, 2, t);
    assert b[35..][0] == StpByte(stp);
  }

  /** Replace Order: the two tokens, shares, price; 41 bytes. Cancel Order: the token; 15 bytes. */
  lemma AmendLayout(token: Bytes, newToken: Bytes, qty: nat, price: int)
    ensures var b := EncodeReplaceIn(token, newToken, qty, price);
      && |b| == 41 && b[0] == 85 && b[1..15] == PutToken(token) && b[15..29] == PutToken(newToken)
      && Holds(b, 29, 4, qty) && Holds(b, 33, 8, price)
    ensures var b := EncodeCancelIn(token); |b| == 15 && b[0] == 88 && b[1..] == PutToken(token)
  {
    hide Big, Holds, PutToken;
    var b := EncodeReplaceIn(token, newToken, qty, price);
    assert b[29..] == Big(qty, 4) + Big(price, 8);
    RestHolds(b, 29, qty, 4, Big(price, 8));
    assert b[33..] == Big(price, 8) + [];
    RestHolds(b, 33, price, 8, []);
  }

  // ---- what a consumer passes over ------------------------------------

  /** The shortest body of each kind a book consumer reads. */
  function Needs(kind: Byte): Option<nat> {
    if kind == 65 || kind == 70 || kind == 67 then Some(36)
    else if kind == 69 then Some(31)
    else if kind == 88 then Some(23)
    else if kind == 68 then Some(19)
    else if kind == 85 then Some(35)
    else if kind == 72 then Some(25)
    else None
  }

  /** A body is read exactly when its kind is one of those and it is long enough; an Add with
      attribution reads as one without; and of the trading states only a halt and a resume
      of trading reach the book. */
  lemma ReadsOnlyWhole(b: Bytes, stock: Bytes, state: Byte)
    ensures Parse(b).Some? <==> b != [] && Needs(b[0]).Some? && |b| >= Needs(b[0]).value
    ensures b != [] && b[0] == 65 ==> Parse(b[0 := 70]) == Parse(b)
    ensures Deliver(NAction(stock, state)) ==
      if state == 72 then Some(Action(true)) else if state == 84 then Some(Action(false)) else None
  {
    hide Be16, Be32, Be64;
    if b != [] && b[0] == 65 && |b| >= 36 {
      var c: Bytes := b[0 := 70];
      assert c[11..19] == b[11..19] && c[20..24] == b[20..24] && c[24..32] == b[24..32] && c[32..36] == b[32..36];
      SameFields(b, c);
    }
  }

  lemma SameFields(b: Bytes, c: Bytes)
    requires |b| == |c| >= 36 && c[1..] == b[1..]
    ensures Be64(c, 11) == Be64(b, 11) && Be32(c, 20) == Be32(b, 20) && Be32(c, 32) == Be32(b, 32) && c[19] == b[19]
  {
    assert forall i :: 1 <= i < |b| ==> c[i] == c[1..][i - 1] == b[1..][i - 1] == b[i];
  }
}
