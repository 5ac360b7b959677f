/**
 * Machine integers of the host (Rust) side and the little-endian byte layout
 * of the 4-byte size header that a guest module writes in front of its result.
 */
module MachineInts {

  const I32_MIN: int := -0x8000_0000
  const U32_LIMIT: int := 0x1_0000_0000
  const USIZE_LIMIT: int := 0x1_0000_0000_0000_0000

  /** Rust's `i32`: the type of every value passed to or returned by a guest export. */
  newtype i32 = x: int | -0x8000_0000 <= x < 0x8000_0000

  /** Rust's `u32`: the type of Interface-Types indices. */
  newtype u32 = x: int | 0 <= x < 0x1_0000_0000

  /** `n as i32` for a `usize` n: keeps the low 32 bits, read as two's complement. */
  function WrapI32(n: nat): (r: i32)
    ensures (r as int - n) % U32_LIMIT == 0
    ensures n < 0x8000_0000 ==> r as int == n
  {
    var low := n % U32_LIMIT;
    if low < 0x8000_0000 then low as i32 else (low - U32_LIMIT) as i32
  }

  /** `x as usize` for an `i32` x on a 64-bit host: sign extension. */
  function ToUsize(x: i32): (r: nat)
    ensures r < USIZE_LIMIT
    ensures (r - x as int) % USIZE_LIMIT == 0
    ensures x >= 0 ==> r == x as int
    ensures x < 0 ==> r >= USIZE_LIMIT + I32_MIN
  {
    if x >= 0 then x as int else x as int + USIZE_LIMIT
  }

  /** `n as u32` for a `usize` n: keeps the low 32 bits. */
  function AsU32(n: nat): (r: u32)
    ensures (r as int - n) % U32_LIMIT == 0
    ensures n < U32_LIMIT ==> r as int == n
  {
    (n % U32_LIMIT) as u32
  }
}

module LittleEndian {

  function Pow256(k: nat): (r: nat)
    ensures r >= 1
  {
    if k == 0 then 1 else 256 * Pow256(k - 1)
  }

  /** The number a little-endian byte string denotes: the sum of b[i] * 256^i. */
  function Decode(b: seq<bv8>): nat
  {
    if b == [] then 0 else b[0] as nat + 256 * Decode(b[1..])
  }

  /** The 4-byte little-endian encoding of a 32-bit unsigned number. */
  function Encode32(n: nat): (r: seq<bv8>)
    requires n < 0x1_0000_0000
    ensures |r| == 4
  {
    var q1 := n / 256;
    var q2 := q1 / 256;
    [(n % 256) as bv8, (q1 % 256) as bv8, (q2 % 256) as bv8, (q2 / 256) as bv8]
  }

  lemma {:induction false} DecodeBound(b: seq<bv8>)
    ensures Decode(b) < Pow256(|b|)
  {
    if b != [] {
      DecodeBound(b[1..]);
    }
  }

  lemma Decode4(b: seq<bv8>)
    requires |b| == 4
    ensures Decode(b) == b[0] as nat + 256 * b[1] as nat + 65536 * b[2] as nat + 16777216 * b[3] as nat
  {
    var b0, b1, b2, b3 := b[0] as nat, b[1] as nat, b[2] as nat, b[3] as nat;
    assert b[3..][1..] == [];
    assert Decode(b[3..]) == b3;
    assert b[2..][1..] == b[3..];
    assert Decode(b[2..]) == b2 + 256 * b3;
    assert b[1..][1..] == b[2..];
    assert Decode(b[1..]) == b1 + 256 * (b2 + 256 * b3);
    assert Decode(b) == b0 + 256 * (b1 + 256 * (b2 + 256 * b3));
  }

  /** Decoding an encoded size gives the size back. */
  lemma DecodeEncode32(n: nat)
    requires n < 0x1_0000_0000
    ensures Decode(Encode32(n)) == n
  {
    var e := Encode32(n);
    Decode4(e);
    var q1 := n / 256;
    var q2 := q1 / 256;
    var q3 := q2 / 256;
    ByteOf(n % 256);
    ByteOf(q1 % 256);
    ByteOf(q2 % 256);
    ByteOf(q3);
    assert Decode(e) == n % 256 + 256 * (q1 % 256 + 256 * (q2 % 256 + 256 * q3));
  }

  lemma ByteOf(v: int)
    requires 0 <= v < 256
    ensures (v as bv8) as int == v
  {
    var b := ByteCount(v);
    NatOfByte(b);
  }

  /** The byte holding `v`, reached by counting up from zero. */
  ghost function ByteCount(v: nat): (b: bv8)
    requires v < 256
    ensures b as int == v
  {
    if v == 0 then 0 else
      var p := ByteCount(v - 1);
      assert p < 255;
      p + 1
  }

  /** Every 4-byte header is the encoding of the size it decodes to. */
  lemma EncodeDecode32(b: seq<bv8>)
    requires |b| == 4
    ensures Decode(b) < 0x1_0000_0000
    ensures Encode32(Decode(b)) == b
  {
    Decode4(b);
    EncodeOfNats(Decode(b), b[0] as nat, b[1] as nat, b[2] as nat, b[3] as nat);
    var e := Encode32(Decode(b));
    SameBytes(e, b);
  }

  /** The encoding of a number given by its four base-256 digits is those digits. */
  lemma EncodeOfNats(n: nat, b0: nat, b1: nat, b2: nat, b3: nat)
    requires b0 < 256 && b1 < 256 && b2 < 256 && b3 < 256
    requires n == b0 + 256 * b1 + 65536 * b2 + 16777216 * b3
    ensures n < 0x1_0000_0000
    ensures Encode32(n) == [b0 as bv8, b1 as bv8, b2 as bv8, b3 as bv8]
  {
    Digits(n, b0, b1, b2, b3);
  }

  /** The successive quotients and remainders by 256 of a four-digit base-256 number are its digits. */
  lemma Digits(n: nat, b0: nat, b1: nat, b2: nat, b3: nat)
    requires b0 < 256 && b1 < 256 && b2 < 256 && b3 < 256
    requires n == b0 + 256 * b1 + 65536 * b2 + 16777216 * b3
    ensures n < 0x1_0000_0000
    ensures n % 256 == b0 && (n / 256) % 256 == b1 && (n / 256 / 256) % 256 == b2 && n / 256 / 256 / 256 == b3
  {
    var m2 := b2 + 256 * b3;
    var m1 := b1 + 256 * m2;
    assert n == b0 + 256 * m1;
    DivModUnique(n, m1, b0);
    DivModUnique(m1, m2, b1);
    DivModUnique(m2, b3, b2);
  }

  lemma SameBytes(e: seq<bv8>, b: seq<bv8>)
    requires |b| == 4 && e == [b[0] as nat as bv8, b[1] as nat as bv8, b[2] as nat as bv8, b[3] as nat as bv8]
    ensures e == b
  {
    NatOfByte(b[0]);
    NatOfByte(b[1]);
    NatOfByte(b[2]);
    NatOfByte(b[3]);
  }

  lemma NatOfByte(x: bv8)
    ensures (x as nat) as bv8 == x
  {
  }

  lemma DivModUnique(n: int, q: int, r: int)
    requires 0 <= r < 256 && n == r + 256 * q
    ensures n / 256 == q && n % 256 == r
  {
  }

  /**
   * The value the host computes from a 4-byte header with
   * `size |= (byte as usize) << (8 * k)` after k of its bytes.
   */
  function OrPrefix(h: seq<bv8>, k: bv64): bv64
    requires |h| == 4 && k <= 4
  {
    if k == 0 then 0
    else if k == 1 then h[0] as bv64
    else if k == 2 then h[0] as bv64 | (h[1] as bv64 << 8)
    else if k == 3 then h[0] as bv64 | (h[1] as bv64 << 8) | (h[2] as bv64 << 16)
    else h[0] as bv64 | (h[1] as bv64 << 8) | (h[2] as bv64 << 16) | (h[3] as bv64 << 24)
  }

  /** One more step of the host's loop: or in byte `k`, shifted by `8 * k`. */
  lemma OrPrefixStep(h: seq<bv8>, k: bv64)
    requires |h| == 4 && k < 4
    ensures OrPrefix(h, k + 1) == OrPrefix(h, k) | ((h[k] as bv64) << (8 * k))
  {
    if k == 0 {
      assert (h[0] as bv64) << 0 == h[0] as bv64;
    } else if k == 1 {
    } else if k == 2 {
    } else {
    }
  }

  /** Or-ing the four shifted bytes together is the little-endian sum. */
  lemma OrPrefixIsDecode(h: seq<bv8>)
    requires |h| == 4
    ensures OrPrefix(h, 4) as int == Decode(h)
  {
    var b0, b1, b2, b3 := h[0], h[1], h[2], h[3];
    assert OrPrefix(h, 4) == b0 as bv64 | (b1 as bv64 << 8) | (b2 as bv64 << 16) | (b3 as bv64 << 24);
    OrOfBytes(b0, b1, b2, b3);
    Decode4(h);
  }

  lemma OrOfBytes(b0: bv8, b1: bv8, b2: bv8, b3: bv8)
    ensures (b0 as bv64 | (b1 as bv64 << 8) | (b2 as bv64 << 16) | (b3 as bv64 << 24)) as int
         == b0 as int + 256 * b1 as int + 65536 * b2 as int + 16777216 * b3 as int
  {
    var v := b0 as bv64 | (b1 as bv64 << 8) | (b2 as bv64 << 16) | (b3 as bv64 << 24);
    assert v == b0 as bv64 + b1 as bv64 * 0x100 + b2 as bv64 * 0x1_0000 + b3 as bv64 * 0x100_0000;
    assert (b0 as bv64) as int == b0 as int;
  }
}
