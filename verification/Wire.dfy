/** Big-endian integers on the wire. */
module Wire {

  type Byte = b: nat | b < 256
  type Bytes = seq<Byte>

  /** 256 to the `n`. */
  function Radix(n: nat): (r: nat)
    ensures r > 0
  {
    if n == 0 then 1 else 256 * Radix(n - 1)
  }

  const B16: nat := 0x1_0000
  const B32: nat := 0x1_0000_0000
  const B64: nat := 0x1_0000_0000_0000_0000

  lemma RadixIs()
    ensures Radix(1) == 256 && Radix(2) == B16 && Radix(4) == B32 && Radix(8) == B64
  {
    assert Radix(3) == 0x100_0000 && Radix(5) == 0x100_0000_0000 && Radix(6) == 0x1_0000_0000_0000;
    assert Radix(7) == 0x100_0000_0000_0000;
  }

  /** The low `n` bytes of `v`, most significant first; what does not fit is cut off. */
  function Big(v: int, n: nat): (b: Bytes)
    ensures |b| == n
    decreases n
  {
    if n == 0 then [] else Big(v / 256, n - 1) + [v % 256]
  }

  function Value(b: Bytes): nat {
    if b == [] then 0 else 256 * Value(b[..|b| - 1]) + b[|b| - 1]
  }

  lemma {:induction false} ValueBound(b: Bytes)
    ensures Value(b) < Radix(|b|)
  {
    if b != [] { ValueBound(b[..|b| - 1]); }
  }

  /** What is read back is what fitted. */
  lemma {:induction false} ValueOfBig(v: int, n: nat)
    ensures Value(Big(v, n)) == v % Radix(n)
    decreases n
  {
    if n > 0 {
      assert Big(v, n)[..n - 1] == Big(v / 256, n - 1);
      ValueOfBig(v / 256, n - 1);
      SplitMod(v, Radix(n - 1));
    }
  }

  lemma SplitMod(v: int, r: nat)
    requires r > 0
    ensures v % (256 * r) == 256 * ((v / 256) % r) + v % 256
  {
    var q, m := (v / 256) / r, (v / 256) % r;
    assert v == 256 * (q * r + m) + v % 256;
    assert v == q * (256 * r) + (256 * m + v % 256);
    assert 256 * m + v % 256 < 256 * r;
    ModIs(v, q, 256 * m + v % 256, 256 * r);
  }

  lemma ModIs(v: int, q: int, m: nat, r: nat)
    requires m < r && v == q * r + m
    ensures v % r == m
  {
    var q', m' := v / r, v % r;
    assert v == q' * r + m';
    Distribute(q, q', r);
    Distribute(q', q, r);
    if q > q' { AtLeast(q - q', r); }
    if q < q' { AtLeast(q' - q, r); }
  }

  lemma Distribute(a: int, b: int, r: nat)
    ensures (a - b) * r == a * r - b * r
  {}

  lemma AtLeast(k: int, r: nat)
    requires k > 0
    ensures k * r >= r
  {}

  /** Only the low bytes are ever written. */
  lemma {:induction false} LowBytes(v: int, n: nat)
    ensures Big(v % Radix(n), n) == Big(v, n)
    decreases n
  {
    if n > 0 {
      var r := Radix(n - 1);
      SplitMod(v, r);
      var low := v % (256 * r);
      assert low / 256 == (v / 256) % r && low % 256 == v % 256;
      LowBytes(v / 256, n - 1);
    }
  }

  /** Exactly the numbers in range survive. */
  lemma FitsIff(v: int, n: nat)
    ensures Value(Big(v, n)) == v <==> 0 <= v < Radix(n)
  {
    ValueOfBig(v, n);
    if 0 <= v < Radix(n) { ModIs(v, 0, v, Radix(n)); }
  }

  // ---- writing and reading --------------------------------------------

  /** Appends `v` byte by byte, shifting from the top. */
  method PutBig(out: Bytes, v: nat, n: nat) returns (r: Bytes)
    ensures r == out + Big(v, n)
  {
    r := out;
    var k := n;
    assert Big(Shifted(v, n), 0) == [];
    while k > 0
      invariant 0 <= k <= n && r == out + Big(Shifted(v, k), n - k)
    {
      k := k - 1;
      ShiftStep(v, k);
      assert Big(Shifted(v, k), n - k) == Big(Shifted(v, k + 1), n - k - 1) + [Shifted(v, k) % 256];
      r := r + [Shifted(v, k) % 256];
    }
    assert Shifted(v, 0) == v;
  }

  /** `v >> 8 * k`. */
  function Shifted(v: nat, k: nat): nat {
    if k == 0 then v else Shifted(v, k - 1) / 256
  }

  lemma ShiftStep(v: nat, k: nat)
    ensures Shifted(v, k + 1) == Shifted(v, k) / 256
  {}

  function Be16(b: Bytes, i: nat): nat
    requires i + 2 <= |b|
  {
    (b[i] as nat) * 0x100 + b[i + 1]
  }

  function Be32(b: Bytes, i: nat): nat
    requires i + 4 <= |b|
  {
    (b[i] as nat) * 0x100_0000 + (b[i + 1] as nat) * 0x1_0000 + (b[i + 2] as nat) * 0x100 + b[i + 3]
  }

  function Be64(b: Bytes, i: nat): nat
    requires i + 8 <= |b|
  {
    Be32(b, i) * 0x1_0000_0000 + Be32(b, i + 4)
  }

  lemma ValueLast(b: Bytes)
    requires b != []
    ensures Value(b) == 256 * Value(b[..|b| - 1]) + b[|b| - 1] && Radix(|b|) == 256 * Radix(|b| - 1)
  {}

  lemma {:induction false} ValueAppend(a: Bytes, b: Bytes)
    ensures Value(a + b) == Value(a) * Radix(|b|) + Value(b)
  {
    if b == [] {
      assert a + b == a;
    } else {
      hide Value, Radix;
      var n := |b| - 1;
      assert (a + b)[..|a| + n] == a + b[..n];
      ValueLast(a + b);
      ValueLast(b);
      ValueAppend(a, b[..n]);
      Associate(Value(a), Radix(n));
    }
  }

  lemma Associate(a: nat, r: nat)
    ensures 256 * (a * r) == a * (256 * r)
  {}

  lemma Value2(b: Bytes, i: nat)
    requires i + 2 <= |b|
    ensures Be16(b, i) == Value(b[i..i + 2])
  {
    var s := b[i..i + 2];
    assert s[..1] == [b[i]] && [b[i]][..0] == [];
    assert Value([b[i]]) == b[i];
  }

  lemma Value4(b: Bytes, i: nat)
    requires i + 4 <= |b|
    ensures Be32(b, i) == Value(b[i..i + 4])
  {
    Value2(b, i);
    Value2(b, i + 2);
    assert b[i..i + 4] == b[i..i + 2] + b[i + 2..i + 4];
    ValueAppend(b[i..i + 2], b[i + 2..i + 4]);
    RadixIs();
  }

  lemma Value8(b: Bytes, i: nat)
    requires i + 8 <= |b|
    ensures Be64(b, i) == Value(b[i..i + 8])
  {
    Value4(b, i);
    Value4(b, i + 4);
    assert b[i..i + 8] == b[i..i + 4] + b[i + 4..i + 8];
    ValueAppend(b[i..i + 4], b[i + 4..i + 8]);
    RadixIs();
  }

  lemma InRange(v: nat)
    ensures v < B16 ==> v % B16 == v
    ensures v < B32 ==> v % B32 == v
    ensures v < B64 ==> v % B64 == v
  {}

  lemma ReadBack(pre: Bytes, v: int, n: nat, post: Bytes)
    ensures (pre + Big(v, n) + post)[|pre|..|pre| + n] == Big(v, n)
  {
    hide Big;
  }

  /** The fixed-width reads undo the fixed-width writes, wherever the field stands. */
  lemma ReadBack16(pre: Bytes, v: int, post: Bytes)
    ensures Be16(pre + Big(v, 2) + post, |pre|) == v % B16
  {
    hide Big, Value, Be16;
    RadixIs();
    Value2(pre + Big(v, 2) + post, |pre|);
    ReadBack(pre, v, 2, post);
    ValueOfBig(v, 2);
  }

  lemma ReadBack32(pre: Bytes, v: int, post: Bytes)
    ensures Be32(pre + Big(v, 4) + post, |pre|) == v % B32
  {
    hide Big, Value, Be32;
    RadixIs();
    Value4(pre + Big(v, 4) + post, |pre|);
    ReadBack(pre, v, 4, post);
    ValueOfBig(v, 4);
  }

  lemma ReadBack64(pre: Bytes, v: int, post: Bytes)
    ensures Be64(pre + Big(v, 8) + post, |pre|) == v % B64
  {
    hide Big, Value, Be64;
    RadixIs();
    Value8(pre + Big(v, 8) + post, |pre|);
    ReadBack(pre, v, 8, post);
    ValueOfBig(v, 8);
  }
}
