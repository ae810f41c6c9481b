/** The binary messages: encoders, parser, file framing, and the feed over the wire. */
module ItchCodec {
  import opened Types
  import opened Wire
  import opened Feed

  // ---- encoders -------------------------------------------------------

  /** Type, stock locate 1, tracking number 0 and a 48-bit timestamp: 11 bytes. */
  function Head(kind: char, ts: nat): (h: Bytes)
    requires kind < 256 as char
    ensures |h| == 11 && h[0] == kind as nat
  {
    [kind as nat] + Big(1, 2) + Big(0, 2) + Big(ts, 6)
  }

  /** What a message carries on the wire besides its own fields. */
  datatype Envelope = Envelope(ts: nat, stock: Bytes, match_: nat)

  predicate Addressed(e: Envelope) { |e.stock| == 8 }

  function SideByte(s: Side): Byte { if s.Buy? then 'B' as nat else 'S' as nat }

  function EncodeAdd(e: Envelope, ref: nat, s: Side, qty: nat, price: int): Bytes {
    Head('A', e.ts) + Big(ref, 8) + [SideByte(s)] + Big(qty, 4) + e.stock + Big(price, 4)
  }

  function EncodeExecute(e: Envelope, ref: nat, qty: nat): Bytes {
    Head('E', e.ts) + Big(ref, 8) + Big(qty, 4) + Big(e.match_, 8)
  }

  function EncodeExecuteAt(e: Envelope, ref: nat, qty: nat, price: int): Bytes {
    Head('C', e.ts) + Big(ref, 8) + Big(qty, 4) + Big(e.match_, 8) + ['Y' as nat] + Big(price, 4)
  }

  function EncodeShrink(e: Envelope, ref: nat, qty: nat): Bytes { Head('X', e.ts) + Big(ref, 8) + Big(qty, 4) }

  function EncodeDelete(e: Envelope, ref: nat): Bytes { Head('D', e.ts) + Big(ref, 8) }

  function EncodeReplace(e: Envelope, ref: nat, newRef: nat, qty: nat, price: int): Bytes {
    Head('U', e.ts) + Big(ref, 8) + Big(newRef, 8) + Big(qty, 4) + Big(price, 4)
  }

  function EncodeCross(e: Envelope, qty: nat, price: int): Bytes {
    Head('Q', e.ts) + Big(qty, 8) + e.stock + Big(price, 4) + Big(e.match_, 8) + ['O' as nat]
  }

  function EncodeAction(e: Envelope, halted: bool): Bytes {
    Head('H', e.ts) + e.stock + [if halted then 'H' as nat else 'T' as nat] + [0x20, 0x20, 0x20, 0x20, 0x20]
  }

  /** The published form of a feed message. */
  function Encode(m: Message, e: Envelope): Bytes {
    match m
    case Add(ref, side, qty, price) => EncodeAdd(e, ref, side, qty, price)
    case Execute(ref, qty) => EncodeExecute(e, ref, qty)
    case ExecuteAt(ref, qty, price) => EncodeExecuteAt(e, ref, qty, price)
    case Shrink(ref, qty) => EncodeShrink(e, ref, qty)
    case Delete(ref) => EncodeDelete(e, ref)
    case Replace(ref, newRef, qty, price) => EncodeReplace(e, ref, newRef, qty, price)
    case CrossPrint(qty, price) => EncodeCross(e, qty, price)
    case Action(halted) => EncodeAction(e, halted)
  }

  method PutHead(out: Bytes, kind: char, ts: nat) returns (r: Bytes)
    requires kind < 256 as char
    ensures r == out + Head(kind, ts)
  {
    hide Big;
    r := out + [kind as nat];
    r := PutBig(r, 1, 2);
    r := PutBig(r, 0, 2);
    r := PutBig(r, ts, 6);
  }

  /** A negative price is written as its low 32 bits, like any price out of range. */
  method PutPrice(out: Bytes, price: int) returns (r: Bytes)
    ensures r == out + Big(price, 4)
  {
    var low := price % B32;
    r := PutBig(out, low, 4);
    LowBytes(price, 4);
    RadixIs();
  }

  /** The head, the reference and a quantity: how most messages start. */
  method PutRefQty(out: Bytes, kind: char, e: Envelope, ref: nat, qty: nat) returns (r: Bytes)
    requires kind < 256 as char
    ensures r == out + (Head(kind, e.ts) + Big(ref, 8) + Big(qty, 4))
  {
    hide Big, Head;
    r := PutHead(out, kind, e.ts);
    r := PutBig(r, ref, 8);
    r := PutBig(r, qty, 4);
  }

  method PutAdd(out: Bytes, e: Envelope, ref: nat, side: Side, qty: nat, price: int) returns (r: Bytes)
    ensures r == out + EncodeAdd(e, ref, side, qty, price)
  {
    hide Big, Head;
    r := PutHead(out, 'A', e.ts);
    r := PutBig(r, ref, 8);
    r := PutBig(r + [SideByte(side)], qty, 4);
    r := PutPrice(r + e.stock, price);
  }

  method PutExecuteAt(out: Bytes, e: Envelope, ref: nat, qty: nat, price: int) returns (r: Bytes)
    ensures r == out + EncodeExecuteAt(e, ref, qty, price)
  {
    hide Big, Head;
    r := PutRefQty(out, 'C', e, ref, qty);
    r := PutBig(r, e.match_, 8);
    r := PutPrice(r + ['Y' as nat], price);
  }

  method PutReplace(out: Bytes, e: Envelope, ref: nat, newRef: nat, qty: nat, price: int) returns (r: Bytes)
    ensures r == out + EncodeReplace(e, ref, newRef, qty, price)
  {
    hide Big, Head;
    r := PutHead(out, 'U', e.ts);
    r := PutBig(r, ref, 8);
    r := PutBig(r, newRef, 8);
    r := PutBig(r, qty, 4);
    r := PutPrice(r, price);
  }

  method PutCross(out: Bytes, e: Envelope, qty: nat, price: int) returns (r: Bytes)
    ensures r == out + EncodeCross(e, qty, price)
  {
    hide Big, Head;
    r := PutHead(out, 'Q', e.ts);
    r := PutBig(r, qty, 8);
    r := PutPrice(r + e.stock, price);
    r := PutBig(r, e.match_, 8);
    r := r + ['O' as nat];
  }

  /** The message pushed onto the buffer field by field. */
  method PutMessage(out: Bytes, m: Message, e: Envelope) returns (r: Bytes)
    ensures r == out + Encode(m, e)
  {
    hide Big, Head, EncodeAdd, EncodeExecuteAt, EncodeReplace, EncodeCross;
    match m {
      case Add(ref, side, qty, price) => r := PutAdd(out, e, ref, side, qty, price);
      case Execute(ref, qty) =>
        r := PutRefQty(out, 'E', e, ref, qty);
        r := PutBig(r, e.match_, 8);
      case ExecuteAt(ref, qty, price) => r := PutExecuteAt(out, e, ref, qty, price);
      case Shrink(ref, qty) => r := PutRefQty(out, 'X', e, ref, qty);
      case Delete(ref) =>
        r := PutHead(out, 'D', e.ts);
        r := PutBig(r, ref, 8);
      case Replace(ref, newRef, qty, price) => r := PutReplace(out, e, ref, newRef, qty, price);
      case CrossPrint(qty, price) => r := PutCross(out, e, qty, price);
      case Action(halted) =>
        r := PutHead(out, 'H', e.ts);
        r := r + e.stock + [if halted then 'H' as nat else 'T' as nat] + [0x20, 0x20, 0x20, 0x20, 0x20];
    }
  }

  // ---- the parser -----------------------------------------------------

  /** A normalized message; other trading states leave the phase alone. */
  datatype Normal =
    | NAdd(ref: nat, side: Side, qty: nat, stock: Bytes, price: nat)
    | NExecute(ref: nat, qty: nat, printed: Option<nat>)
    | NCancel(ref: nat, qty: nat)
    | NDelete(ref: nat)
    | NReplace(ref: nat, newRef: nat, qty: nat, price: nat)
    | NAction(stock: Bytes, state: Byte)

  /** Untracked kinds and bodies too short for their kind parse to nothing. */
  function Parse(b: Bytes): Option<Normal> {
    if |b| == 0 then None
    else if b[0] == 'A' as nat || b[0] == 'F' as nat then
      if |b| < 36 then None
      else Some(NAdd(Be64(b, 11), if b[19] == 'B' as nat then Buy else Sell, Be32(b, 20), b[24..32], Be32(b, 32)))
    else if b[0] == 'E' as nat then
      if |b| < 31 then None else Some(NExecute(Be64(b, 11), Be32(b, 19), None))
    else if b[0] == 'C' as nat then
      if |b| < 36 then None else Some(NExecute(Be64(b, 11), Be32(b, 19), Some(Be32(b, 32))))
    else if b[0] == 'X' as nat then
      if |b| < 23 then None else Some(NCancel(Be64(b, 11), Be32(b, 19)))
    else if b[0] == 'D' as nat then
      if |b| < 19 then None else Some(NDelete(Be64(b, 11)))
    else if b[0] == 'U' as nat then
      if |b| < 35 then None else Some(NReplace(Be64(b, 11), Be64(b, 19), Be32(b, 27), Be32(b, 31)))
    else if b[0] == 'H' as nat then
      if |b| < 25 then None else Some(NAction(b[11..19], b[19]))
    else None
  }

  /** What a consumer should find of a published message. */
  function Normalized(m: Message, stock: Bytes): Option<Normal> {
    match m
    case Add(ref, side, qty, price) => if price < 0 then None else Some(NAdd(ref, side, qty, stock, price))
    case Execute(ref, qty) => Some(NExecute(ref, qty, None))
    case ExecuteAt(ref, qty, price) => if price < 0 then None else Some(NExecute(ref, qty, Some(price)))
    case Shrink(ref, qty) => Some(NCancel(ref, qty))
    case Delete(ref) => Some(NDelete(ref))
    case Replace(ref, newRef, qty, price) => if price < 0 then None else Some(NReplace(ref, newRef, qty, price))
    case CrossPrint(_, _) => None
    case Action(halted) => Some(NAction(stock, if halted then 'H' as nat else 'T' as nat))
  }

  /** The fields the parser returns fit the widths of the format. */
  predicate Fits(m: Message) { FitsBook(m) && (m.ExecuteAt? ==> 0 <= m.price < B32) }

  /** So do those a book consumer applies: it does not look at an execution's price. */
  predicate FitsBook(m: Message) {
    match m
    case Add(ref, _, qty, price) => ref < B64 && qty < B32 && 0 <= price < B32
    case Execute(ref, qty) => ref < B64 && qty < B32
    case ExecuteAt(ref, qty, _) => ref < B64 && qty < B32
    case Shrink(ref, qty) => ref < B64 && qty < B32
    case Delete(ref) => ref < B64
    case Replace(ref, newRef, qty, price) => ref < B64 && newRef < B64 && qty < B32 && 0 <= price < B32
    case CrossPrint(_, _) => true
    case Action(_) => true
  }

  // ---- a field at its offset ------------------------------------------

  lemma Field64(b: Bytes, pre: Bytes, v: int, post: Bytes)
    requires b == pre + Big(v, 8) + post
    ensures |pre| + 8 <= |b| && Be64(b, |pre|) == v % B64
  {
    hide Big, Be64;
    ReadBack64(pre, v, post);
  }

  lemma Field32(b: Bytes, pre: Bytes, v: int, post: Bytes)
    requires b == pre + Big(v, 4) + post
    ensures |pre| + 4 <= |b| && Be32(b, |pre|) == v % B32
  {
    hide Big, Be32;
    ReadBack32(pre, v, post);
  }

  lemma ExactIff(v: int)
    ensures v % B32 == v <==> 0 <= v < B32
    ensures v % B64 == v <==> 0 <= v < B64
  {}

  lemma ParseAdd(e: Envelope, ref: nat, s: Side, qty: nat, price: int)
    requires Addressed(e)
    ensures Parse(EncodeAdd(e, ref, s, qty, price)) == Some(NAdd(ref % B64, s, qty % B32, e.stock, price % B32))
  {
    hide Big, Be32, Be64;
    var b, h := EncodeAdd(e, ref, s, qty, price), Head('A', e.ts);
    var x := [SideByte(s)];
    assert b == h + Big(ref, 8) + (x + Big(qty, 4) + e.stock + Big(price, 4));
    Field64(b, h, ref, x + Big(qty, 4) + e.stock + Big(price, 4));
    assert b == (h + Big(ref, 8) + x) + Big(qty, 4) + (e.stock + Big(price, 4));
    Field32(b, h + Big(ref, 8) + x, qty, e.stock + Big(price, 4));
    assert b == (h + Big(ref, 8) + x + Big(qty, 4) + e.stock) + Big(price, 4) + [];
    Field32(b, h + Big(ref, 8) + x + Big(qty, 4) + e.stock, price, []);
    assert b[24..32] == e.stock && b[19] == SideByte(s);
  }

  lemma ParseRefQty(b: Bytes, h: Bytes, ref: nat, qty: nat, post: Bytes)
    requires |h| == 11 && b == h + Big(ref, 8) + Big(qty, 4) + post
    ensures |b| == 23 + |post| && b[0] == h[0] && Be64(b, 11) == ref % B64 && Be32(b, 19) == qty % B32
  {
    hide Big, Be32, Be64;
    assert b == h + Big(ref, 8) + (Big(qty, 4) + post);
    Field64(b, h, ref, Big(qty, 4) + post);
    Field32(b, h + Big(ref, 8), qty, post);
  }

  lemma ParseExecute(e: Envelope, ref: nat, qty: nat)
    ensures Parse(EncodeExecute(e, ref, qty)) == Some(NExecute(ref % B64, qty % B32, None))
  {
    hide Big, Be32, Be64;
    ParseRefQty(EncodeExecute(e, ref, qty), Head('E', e.ts), ref, qty, Big(e.match_, 8));
  }

  lemma ParseExecuteAt(e: Envelope, ref: nat, qty: nat, price: int)
    ensures Parse(EncodeExecuteAt(e, ref, qty, price)) == Some(NExecute(ref % B64, qty % B32, Some(price % B32)))
  {
    hide Big, Be32, Be64;
    var b, h := EncodeExecuteAt(e, ref, qty, price), Head('C', e.ts);
    var post := Big(e.match_, 8) + ['Y' as nat] + Big(price, 4);
    assert b == h + Big(ref, 8) + Big(qty, 4) + post;
    ParseRefQty(b, h, ref, qty, post);
    var pre := h + Big(ref, 8) + Big(qty, 4) + Big(e.match_, 8) + ['Y' as nat];
    assert b == pre + Big(price, 4) + [];
    Field32(b, pre, price, []);
  }

  lemma ParseShrink(e: Envelope, ref: nat, qty: nat)
    ensures Parse(EncodeShrink(e, ref, qty)) == Some(NCancel(ref % B64, qty % B32))
  {
    hide Big, Be32, Be64;
    assert EncodeShrink(e, ref, qty) == Head('X', e.ts) + Big(ref, 8) + Big(qty, 4) + [];
    ParseRefQty(EncodeShrink(e, ref, qty), Head('X', e.ts), ref, qty, []);
  }

  lemma ParseDelete(e: Envelope, ref: nat)
    ensures Parse(EncodeDelete(e, ref)) == Some(NDelete(ref % B64))
  {
    hide Big, Be32, Be64;
    assert EncodeDelete(e, ref) == Head('D', e.ts) + Big(ref, 8) + [];
    Field64(EncodeDelete(e, ref), Head('D', e.ts), ref, []);
  }

  lemma ParseReplace(e: Envelope, ref: nat, newRef: nat, qty: nat, price: int)
    ensures Parse(EncodeReplace(e, ref, newRef, qty, price)) ==
      Some(NReplace(ref % B64, newRef % B64, qty % B32, price % B32))
  {
    hide Big, Be32, Be64;
    var b, h := EncodeReplace(e, ref, newRef, qty, price), Head('U', e.ts);
    assert b == h + Big(ref, 8) + (Big(newRef, 8) + Big(qty, 4) + Big(price, 4));
    Field64(b, h, ref, Big(newRef, 8) + Big(qty, 4) + Big(price, 4));
    assert b == (h + Big(ref, 8)) + Big(newRef, 8) + (Big(qty, 4) + Big(price, 4));
    Field64(b, h + Big(ref, 8), newRef, Big(qty, 4) + Big(price, 4));
    assert b == (h + Big(ref, 8) + Big(newRef, 8)) + Big(qty, 4) + Big(price, 4);
    Field32(b, h + Big(ref, 8) + Big(newRef, 8), qty, Big(price, 4));
    assert b == (h + Big(ref, 8) + Big(newRef, 8) + Big(qty, 4)) + Big(price, 4) + [];
    Field32(b, h + Big(ref, 8) + Big(newRef, 8) + Big(qty, 4), price, []);
  }

  lemma ParseUntracked(e: Envelope, qty: nat, price: int)
    ensures Parse(EncodeCross(e, qty, price)) == None
  {
    hide Big, Be32, Be64;
  }

  lemma ParseAction(e: Envelope, halted: bool)
    requires Addressed(e)
    ensures Parse(EncodeAction(e, halted)) == Some(NAction(e.stock, if halted then 'H' as nat else 'T' as nat))
  {
    hide Big, Be32, Be64;
    var b, h := EncodeAction(e, halted), Head('H', e.ts);
    assert b[11..19] == e.stock;
  }

  /** Parsing an encoded message gives back its tracked fields exactly when they fit. */
  lemma CodecRoundTripsIff(m: Message, e: Envelope)
    requires Addressed(e)
    ensures Parse(Encode(m, e)) == Normalized(m, e.stock) <==> Fits(m)
  {
    hide Big, Be32, Be64, Parse, EncodeAdd, EncodeExecute, EncodeExecuteAt, EncodeShrink, EncodeDelete, EncodeReplace,
      EncodeCross, EncodeAction;
    match m {
      case Add(ref, side, qty, price) =>
        ParseAdd(e, ref, side, qty, price);
        ExactIff(ref);
        ExactIff(qty);
        ExactIff(price);
      case Execute(ref, qty) =>
        ParseExecute(e, ref, qty);
        ExactIff(ref);
        ExactIff(qty);
      case ExecuteAt(ref, qty, price) =>
        ParseExecuteAt(e, ref, qty, price);
        ExactIff(ref);
        ExactIff(qty);
        ExactIff(price);
      case Shrink(ref, qty) =>
        ParseShrink(e, ref, qty);
        ExactIff(ref);
        ExactIff(qty);
      case Delete(ref) =>
        ParseDelete(e, ref);
        ExactIff(ref);
      case Replace(ref, newRef, qty, price) =>
        ParseReplace(e, ref, newRef, qty, price);
        ExactIff(ref);
        ExactIff(newRef);
        ExactIff(qty);
        ExactIff(price);
      case CrossPrint(qty, price) => ParseUntracked(e, qty, price);
      case Action(halted) => ParseAction(e, halted);
    }
  }

  // ---- file framing ---------------------------------------------------

  function Frame(body: Bytes): Bytes { Big(|body|, 2) + body }

  function Stream(bodies: seq<Bytes>): Bytes {
    if bodies == [] then [] else Frame(bodies[0]) + Stream(bodies[1..])
  }

  /** The bodies of a stream; a truncated tail is dropped. */
  function Split(s: Bytes): seq<Bytes>
    decreases |s|
  {
    if |s| < 2 || |s| < 2 + Be16(s, 0) then []
    else [s[2..2 + Be16(s, 0)]] + Split(s[2 + Be16(s, 0)..])
  }

  /** The replay loop: header, then body, until either runs short. */
  method ReadStream(s: Bytes) returns (bodies: seq<Bytes>)
    ensures bodies == Split(s)
  {
    hide Be16;
    bodies := [];
    var i := 0;
    assert s[0..] == s;
    while i + 2 <= |s| && i + 2 + Be16(s, i) <= |s|
      invariant i <= |s| && bodies + Split(s[i..]) == Split(s)
      decreases |s| - i
    {
      var len := Be16(s, i);
      SplitAt(s, i);
      ghost var rest := Split(s[i + 2 + len..]);
      assert bodies + ([s[i + 2..i + 2 + len]] + rest) == (bodies + [s[i + 2..i + 2 + len]]) + rest;
      bodies := bodies + [s[i + 2..i + 2 + len]];
      i := i + 2 + len;
    }
    SplitAt(s, i);
  }

  lemma SplitAt(s: Bytes, i: nat)
    requires i <= |s|
    ensures Split(s[i..]) ==
      if i + 2 > |s| || i + 2 + Be16(s, i) > |s| then []
      else [s[i + 2..i + 2 + Be16(s, i)]] + Split(s[i + 2 + Be16(s, i)..])
  {
    var t := s[i..];
    if i + 2 <= |s| {
      assert Be16(t, 0) == Be16(s, i);
      var n := Be16(s, i);
      if i + 2 + n <= |s| {
        assert t[2..2 + n] == s[i + 2..i + 2 + n] && t[2 + n..] == s[i + 2 + n..];
      }
    }
  }

  predicate Framable(bodies: seq<Bytes>) { forall k :: 0 <= k < |bodies| ==> |bodies[k]| < B16 }

  /** A framed stream splits back into the same bodies. */
  lemma {:induction false} SplitUndoesStream(bodies: seq<Bytes>)
    requires Framable(bodies)
    ensures Split(Stream(bodies)) == bodies
    decreases |bodies|
  {
    hide Big, Be16;
    if bodies != [] {
      var m, rest, s := bodies[0], Stream(bodies[1..]), Stream(bodies);
      assert s == [] + Big(|m|, 2) + (m + rest);
      ReadBack16([], |m|, m + rest);
      InRange(|m|);
      assert s[2..2 + |m|] == m && s[2 + |m|..] == rest;
      SplitUndoesStream(bodies[1..]);
    }
  }

  // ---- the feed over the wire -----------------------------------------

  function Deliver(n: Normal): Option<Message> {
    match n
    case NAdd(ref, side, qty, _, price) => Some(Add(ref, side, qty, price))
    case NExecute(ref, qty, _) => Some(Execute(ref, qty))
    case NCancel(ref, qty) => Some(Shrink(ref, qty))
    case NDelete(ref) => Some(Delete(ref))
    case NReplace(ref, newRef, qty, price) => Some(Replace(ref, newRef, qty, price))
    case NAction(_, state) =>
      if state == 'H' as nat then Some(Action(true)) else if state == 'T' as nat then Some(Action(false)) else None
  }

  /** What a consumer applies of the bodies it receives. */
  function Received(bodies: seq<Bytes>): seq<Message> {
    if bodies == [] then []
    else
      var n := Parse(bodies[0]);
      (if n.Some? && Deliver(n.value).Some? then [Deliver(n.value).value] else []) + Received(bodies[1..])
  }

  function EncodeAll(ms: seq<Message>, es: seq<Envelope>): seq<Bytes>
    requires |ms| == |es|
  {
    if ms == [] then [] else [Encode(ms[0], es[0])] + EncodeAll(ms[1..], es[1..])
  }

  /** What a consumer applies of one encoded message: an execution at a price reaches the
      book as a plain one, a cross print not at all, the rest as themselves. */
  lemma DeliveredIs(m: Message, e: Envelope)
    requires Addressed(e) && FitsBook(m)
    ensures var n := Parse(Encode(m, e));
      if m.CrossPrint? then n.None?
      else n.Some? && Deliver(n.value) == Some(if m.ExecuteAt? then Execute(m.ref, m.qty) else m)
  {
    hide Big, Be32, Be64, Parse, EncodeAdd, EncodeExecute, EncodeExecuteAt, EncodeShrink, EncodeDelete, EncodeReplace,
      EncodeCross, EncodeAction;
    if m.ExecuteAt? {
      ParseExecuteAt(e, m.ref, m.qty, m.price);
      ExactIff(m.ref);
      ExactIff(m.qty);
    } else {
      CodecRoundTripsIff(m, e);
    }
  }

  /** A consumer of the encoded message does what a consumer of the message does. */
  lemma OneOverTheWire(b: Builder, m: Message, e: Envelope)
    requires BuilderValid(b) && Addressed(e) && FitsBook(m)
    ensures Replay(b, Received([Encode(m, e)])) == Apply(b, m)
  {
    hide Parse, Encode, Apply, BuilderValid;
    assert [Encode(m, e)][1..] == [];
    var got := Received([Encode(m, e)]);
    SameEffect(b, m);
    assert Received([]) == [];
    DeliveredIs(m, e);
    ReplayNothing(b);
    if m.CrossPrint? {
      assert got == [];
    } else {
      var d := Deliver(Parse(Encode(m, e)).value).value;
      assert got == [d] && got[..0] == [];
      assert Replay(b, got) == Apply(b, d);
    }
  }

  lemma ReplayNothing(b: Builder)
    requires BuilderValid(b)
    ensures Replay(b, []) == b
  {}

  lemma SameEffect(b: Builder, m: Message)
    requires BuilderValid(b)
    ensures m.ExecuteAt? ==> Apply(b, m) == Apply(b, Execute(m.ref, m.qty))
    ensures m.CrossPrint? ==> Apply(b, m) == b
  {}

  lemma {:induction false} ReceivedAppend(a: seq<Bytes>, b: seq<Bytes>)
    ensures Received(a + b) == Received(a) + Received(b)
  {
    hide Parse;
    if a == [] {
      assert a + b == b;
    } else {
      assert (a + b)[1..] == a[1..] + b;
      ReceivedAppend(a[1..], b);
    }
  }

  lemma {:induction false} ReplayOverTheWire(b: Builder, ms: seq<Message>, es: seq<Envelope>)
    requires BuilderValid(b) && |ms| == |es|
    requires forall k :: 0 <= k < |ms| ==> FitsBook(ms[k]) && Addressed(es[k])
    ensures Replay(b, Received(EncodeAll(ms, es))) == Replay(b, ms)
    decreases |ms|
  {
    hide Parse, Encode, Apply, BuilderValid, FitsBook, Addressed;
    if ms != [] {
      var body, rest := Encode(ms[0], es[0]), EncodeAll(ms[1..], es[1..]);
      OneOverTheWire(b, ms[0], es[0]);
      ReceivedAppend([body], rest);
      ReplayAppend(b, Received([body]), Received(rest));
      ReplayOverTheWire(Replay(b, Received([body])), ms[1..], es[1..]);
      assert ms == [ms[0]] + ms[1..];
      ReplayAppend(b, [ms[0]], ms[1..]);
      assert [ms[0]][..0] == [];
      assert Replay(b, [ms[0]]) == Apply(b, ms[0]);
    }
  }

  lemma {:induction false} EncodedAreShort(ms: seq<Message>, es: seq<Envelope>)
    requires |ms| == |es| && forall k :: 0 <= k < |es| ==> Addressed(es[k])
    ensures Framable(EncodeAll(ms, es))
    decreases |ms|
  {
    hide Big;
    if ms != [] {
      EncodedAreShort(ms[1..], es[1..]);
      BodyIsShort(ms[0], es[0]);
    }
  }

  lemma BodyIsShort(m: Message, e: Envelope)
    requires Addressed(e)
    ensures |Encode(m, e)| <= 40
  {
    hide Big;
  }

  /** Through encoding, framing, splitting and parsing, the consumer's engine ends as if
      it had been handed the messages themselves. */
  lemma WireIsTransparent(b: Builder, ms: seq<Message>, es: seq<Envelope>)
    requires BuilderValid(b) && |ms| == |es|
    requires forall k :: 0 <= k < |ms| ==> FitsBook(ms[k]) && Addressed(es[k])
    ensures Replay(b, Received(Split(Stream(EncodeAll(ms, es))))) == Replay(b, ms)
  {
    hide BuilderValid;
    EncodedAreShort(ms, es);
    SplitUndoesStream(EncodeAll(ms, es));
    ReplayOverTheWire(b, ms, es);
  }
}
