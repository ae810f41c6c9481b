/** The fixed-width order-entry messages. */
module OuchCodec {
  import opened Types
  import opened Wire
  import opened ItchCodec
  import opened Ouch

  const TOKEN: nat := 14

  // ---- tokens ---------------------------------------------------------

  /** A token field: cut or space-padded to 14 bytes. */
  function PutToken(t: Bytes): (f: Bytes)
    ensures |f| == TOKEN
  {
    if |t| >= TOKEN then t[..TOKEN] else t + seq(TOKEN - |t|, i => 0x20)
  }

  /** The C string in a field: everything before the first NUL. */
  function GetToken(f: Bytes): (t: Bytes)
    ensures |t| <= |f|
  {
    if f == [] || f[0] == 0 then [] else [f[0]] + GetToken(f[1..])
  }

  predicate NulFree(f: Bytes) { forall k :: 0 <= k < |f| ==> f[k] != 0 }

  lemma {:induction false} GetTokenIs(f: Bytes)
    ensures GetToken(f) == f[..|GetToken(f)|] && NulFree(GetToken(f))
    ensures NulFree(f) ==> GetToken(f) == f
    ensures !NulFree(f) ==> |GetToken(f)| < |f| && f[|GetToken(f)|] == 0
  {
    if f != [] && f[0] != 0 { GetTokenIs(f[1..]); }
  }

  /** A wire token is echoed as the client wrote it exactly when it holds no NUL; with one,
      two tokens the session keeps apart can look alike on the wire. */
  lemma EchoIsFaithfulIff(f: Bytes)
    requires |f| == TOKEN
    ensures PutToken(GetToken(f)) == f <==> NulFree(f)
  {
    GetTokenIs(f);
    if !NulFree(f) {
      var k := |GetToken(f)|;
      assert PutToken(GetToken(f))[k] == 0x20;
    }
  }

  lemma NulTokensLookAlike()
    ensures var a: Bytes, b: Bytes := [65, 0] + seq(12, i => 0), [65] + seq(13, i => 0x20);
      && GetToken(a) != GetToken(b)
      && PutToken(GetToken(a)) == PutToken(GetToken(b))
  {
    var a: Bytes, b: Bytes := [65, 0] + seq(12, i => 0), [65] + seq(13, i => 0x20);
    GetTokenIs(a);
    GetTokenIs(b);
    assert a[1..][0] == 0 && GetToken(a[1..]) == [];
    assert GetToken(a) == [65];
    assert PutToken([65]) == b;
  }

  // ---- signed fields --------------------------------------------------

  const B63: int := 0x8000_0000_0000_0000

  /** A 64-bit field read as two's complement. */
  function Signed(v: nat): int
    requires v < B64
  {
    if v < B63 then v else v - B64
  }

  lemma SignedReadBack(v: int)
    requires -B63 <= v < B63
    ensures Signed(v % B64) == v
  {}

  function TifByte(t: TimeInForce): Byte { match t case GTC => 0 case IOC => 1 case FOK => 2 case PostOnly => 3 }
  function StpByte(s: StpPolicy): Byte { match s case CancelTaker => 0 case CancelMaker => 1 case CancelBoth => 2 }

  function TifOf(b: Byte): Option<TimeInForce> {
    if b == 0 then Some(GTC) else if b == 1 then Some(IOC) else if b == 2 then Some(FOK)
      else if b == 3 then Some(PostOnly) else None
  }

  function StpOf(b: Byte): Option<StpPolicy> {
    if b == 0 then Some(CancelTaker) else if b == 1 then Some(CancelMaker) else if b == 2 then Some(CancelBoth)
      else None
  }

  // ---- inbound --------------------------------------------------------

  function EncodeEnter(token: Bytes, side: Side, qty: nat, price: int, tif: TimeInForce, display: nat, owner: nat,
                       stp: StpPolicy): Bytes {
    ['O' as nat] + PutToken(token) + [SideByte(side)] + Big(qty, 4) + Big(price, 8) + [TifByte(tif)] + Big(display, 4)
    + Big(owner, 2) + [StpByte(stp)]
  }

  function EncodeReplaceIn(token: Bytes, newToken: Bytes, qty: nat, price: int): Bytes {
    ['U' as nat] + PutToken(token) + PutToken(newToken) + Big(qty, 4) + Big(price, 8)
  }

  function EncodeCancelIn(token: Bytes): Bytes { ['X' as nat] + PutToken(token) }

  /** Truncated or unknown messages, and enum bytes out of range, decode to nothing. */
  function DecodeIn(b: Bytes): Option<InMsg> {
    if |b| == 0 then None
    else if b[0] == 'O' as nat then
      if |b| < 36 || TifOf(b[28]).None? || StpOf(b[35]).None? then None
      else Some(EnterMsg(GetToken(b[1..15]), if b[15] == 'B' as nat then Buy else Sell, Be32(b, 16), Signed(U64(b, 20)),
                         TifOf(b[28]).value, Be32(b, 29), Be16(b, 33), StpOf(b[35]).value))
    else if b[0] == 'U' as nat then
      if |b| < 41 then None
      else Some(ReplaceMsg(GetToken(b[1..15]), GetToken(b[15..29]), Be32(b, 29), Signed(U64(b, 33))))
    else if b[0] == 'X' as nat then
      if |b| < 15 then None else Some(CancelMsg(GetToken(b[1..15])))
    else None
  }

  function U64(b: Bytes, i: nat): (v: nat)
    requires i + 8 <= |b|
    ensures v < B64 && v == Be64(b, i)
  {
    Value8(b, i);
    ValueBound(b[i..i + 8]);
    RadixIs();
    Be64(b, i)
  }

  lemma Field16(b: Bytes, pre: Bytes, v: int, post: Bytes)
    requires b == pre + Big(v, 2) + post
    ensures |pre| + 2 <= |b| && Be16(b, |pre|) == v % B16
  {
    hide Big, Be16;
    ReadBack16(pre, v, post);
  }

  lemma TokenField(pre: Bytes, t: Bytes, post: Bytes)
    requires NulFree(t)
    ensures (pre + PutToken(t) + post)[|pre|..|pre| + TOKEN] == PutToken(t)
    ensures GetToken(PutToken(t)) == PutToken(t)
  {
    GetTokenIs(PutToken(t));
  }

  lemma EnumsReadBack(tif: TimeInForce, stp: StpPolicy)
    ensures TifOf(TifByte(tif)) == Some(tif) && StpOf(StpByte(stp)) == Some(stp)
  {}

  /** An encoded entry decodes to itself, its token space-padded. */
  lemma EnterRoundTrips(token: Bytes, side: Side, qty: nat, price: int, tif: TimeInForce, display: nat, owner: nat,
                        stp: StpPolicy)
    requires NulFree(token) && qty < B32 && display < B32 && owner < B16 && -B63 <= price < B63
    ensures DecodeIn(EncodeEnter(token, side, qty, price, tif, display, owner, stp)) ==
      Some(EnterMsg(PutToken(token), side, qty, price, tif, display, owner, stp))
  {
    hide Big, Be16, Be32, Be64, PutToken, GetToken, TifByte, StpByte, TifOf, StpOf;
    var b := EncodeEnter(token, side, qty, price, tif, display, owner, stp);
    var h0 := ['O' as nat] + PutToken(token) + [SideByte(side)];
    var h1 := h0 + Big(qty, 4);
    var h2 := h1 + Big(price, 8) + [TifByte(tif)];
    var h3 := h2 + Big(display, 4);
    assert b == h0 + Big(qty, 4) + (Big(price, 8) + [TifByte(tif)] + Big(display, 4) + Big(owner, 2) + [StpByte(stp)]);
    Field32(b, h0, qty, Big(price, 8) + [TifByte(tif)] + Big(display, 4) + Big(owner, 2) + [StpByte(stp)]);
    assert b == h1 + Big(price, 8) + ([TifByte(tif)] + Big(display, 4) + Big(owner, 2) + [StpByte(stp)]);
    Field64(b, h1, price, [TifByte(tif)] + Big(display, 4) + Big(owner, 2) + [StpByte(stp)]);
    assert b == h2 + Big(display, 4) + (Big(owner, 2) + [StpByte(stp)]);
    Field32(b, h2, display, Big(owner, 2) + [StpByte(stp)]);
    assert b == h3 + Big(owner, 2) + [StpByte(stp)];
    Field16(b, h3, owner, [StpByte(stp)]);
    assert b[15] == SideByte(side) && b[28] == TifByte(tif) && b[35] == StpByte(stp);
    TokenAt(b, ['O' as nat], token);
    EnumsReadBack(tif, stp);
    SignedReadBack(price);
    InRange(qty);
    InRange(display);
    InRange(owner);
  }

  lemma TokenAt(b: Bytes, pre: Bytes, t: Bytes)
    requires NulFree(t) && pre + PutToken(t) <= b
    ensures GetToken(b[|pre|..|pre| + TOKEN]) == PutToken(t)
  {
    hide PutToken, GetToken;
    var post := b[|pre| + TOKEN..];
    assert b == pre + PutToken(t) + post;
    TokenField(pre, t, post);
  }

  lemma ReplaceRoundTrips(token: Bytes, newToken: Bytes, qty: nat, price: int)
    requires NulFree(token) && NulFree(newToken) && qty < B32 && -B63 <= price < B63
    ensures DecodeIn(EncodeReplaceIn(token, newToken, qty, price)) ==
      Some(ReplaceMsg(PutToken(token), PutToken(newToken), qty, price))
  {
    hide Big, Be32, Be64, PutToken, GetToken;
    var b := EncodeReplaceIn(token, newToken, qty, price);
    var h0 := ['U' as nat] + PutToken(token);
    var h1 := h0 + PutToken(newToken);
    assert b == h1 + Big(qty, 4) + Big(price, 8);
    Field32(b, h1, qty, Big(price, 8));
    assert b == (h1 + Big(qty, 4)) + Big(price, 8) + [];
    Field64(b, h1 + Big(qty, 4), price, []);
    TokenAt(b, ['U' as nat], token);
    TokenAt(b, h0, newToken);
    SignedReadBack(price);
    InRange(qty);
  }

  lemma CancelRoundTrips(token: Bytes)
    requires NulFree(token)
    ensures DecodeIn(EncodeCancelIn(token)) == Some(CancelMsg(PutToken(token)))
  {
    hide PutToken, GetToken;
    TokenAt(EncodeCancelIn(token), ['X' as nat], token);
  }
}
