/**
 The Secure Hash Standard's SHA-256 (FIPS 180-4) for messages that are whole bytes, written as
 the standard writes it: recursively and over values. Nothing here looks at how the program
 buffers, shifts or pads; Sha256.dfy proves that the program computes these functions.
 */
module Sha256Spec {
  type Bytes = seq<bv8>

  // ---------------------------------------------------------------- constants

  const TWO_TO_64 := 0x1_0000_0000_0000_0000

  /** The initial hash value H(0) (section 5.3.3), also the program's starting state. */
  const H0: seq<bv32> := [
    0x6a09e667, 0xbb67ae85, 0x3c6ef372, 0xa54ff53a, 0x510e527f, 0x9b05688c, 0x1f83d9ab, 0x5be0cd19]

  /** The sixty-four round constants (section 4.2.2), also the program's table, in rows of eight. */
  const K_ROWS: seq<seq<bv32>> := [
    [0x428a2f98, 0x71374491, 0xb5c0fbcf, 0xe9b5dba5, 0x3956c25b, 0x59f111f1, 0x923f82a4, 0xab1c5ed5],
    [0xd807aa98, 0x12835b01, 0x243185be, 0x550c7dc3, 0x72be5d74, 0x80deb1fe, 0x9bdc06a7, 0xc19bf174],
    [0xe49b69c1, 0xefbe4786, 0x0fc19dc6, 0x240ca1cc, 0x2de92c6f, 0x4a7484aa, 0x5cb0a9dc, 0x76f988da],
    [0x983e5152, 0xa831c66d, 0xb00327c8, 0xbf597fc7, 0xc6e00bf3, 0xd5a79147, 0x06ca6351, 0x14292967],
    [0x27b70a85, 0x2e1b2138, 0x4d2c6dfc, 0x53380d13, 0x650a7354, 0x766a0abb, 0x81c2c92e, 0x92722c85],
    [0xa2bfe8a1, 0xa81a664b, 0xc24b8b70, 0xc76c51a3, 0xd192e819, 0xd6990624, 0xf40e3585, 0x106aa070],
    [0x19a4c116, 0x1e376c08, 0x2748774c, 0x34b0bcb5, 0x391c0cb3, 0x4ed8aa4a, 0x5b9cca4f, 0x682e6ff3],
    [0x748f82ee, 0x78a5636f, 0x84c87814, 0x8cc70208, 0x90befffa, 0xa4506ceb, 0xbef9a3f7, 0xc67178f2]
  ]

  function K(i: nat): bv32
    requires i < 64
  {
    K_ROWS[i / 8][i % 8]
  }

  // ---------------------------------------------------------------- functions (section 4.1.2)

  /** Addition modulo 2^32. */
  function Add(x: bv32, y: bv32): bv32 {
    x + y
  }

  function Sum4(a: bv32, b: bv32, c: bv32, d: bv32): bv32 {
    a + b + c + d
  }

  function Sum5(a: bv32, b: bv32, c: bv32, d: bv32, e: bv32): bv32 {
    a + b + c + d + e
  }

  function Xor3(x: bv32, y: bv32, z: bv32): bv32 {
    x ^ y ^ z
  }

  function Ch(x: bv32, y: bv32, z: bv32): bv32 {
    (x & y) ^ (!x & z)
  }

  function Maj(x: bv32, y: bv32, z: bv32): bv32 {
    Xor3(x & y, x & z, y & z)
  }

  function BigSigma0(x: bv32): bv32 {
    Xor3(x.RotateRight(2), x.RotateRight(13), x.RotateRight(22))
  }

  function BigSigma1(x: bv32): bv32 {
    Xor3(x.RotateRight(6), x.RotateRight(11), x.RotateRight(25))
  }

  function SmallSigma0(x: bv32): bv32 {
    Xor3(x.RotateRight(7), x.RotateRight(18), x >> 3)
  }

  function SmallSigma1(x: bv32): bv32 {
    Xor3(x.RotateRight(17), x.RotateRight(19), x >> 10)
  }

  // ---------------------------------------------------------------- bytes and words

  /** Four bytes read as one word, most significant byte first (section 3.1). */
  function Word(b0: bv8, b1: bv8, b2: bv8, b3: bv8): bv32 {
    ((b0 as bv32) << 24) | ((b1 as bv32) << 16) | ((b2 as bv32) << 8) | (b3 as bv32)
  }

  /** Byte i of a word, byte 0 being the most significant. */
  function WordByte(w: bv32, i: nat): bv8
    requires i < 4
  {
    match i
    case 0 => ((w >> 24) & 0xff) as bv8
    case 1 => ((w >> 16) & 0xff) as bv8
    case 2 => ((w >> 8) & 0xff) as bv8
    case 3 => (w & 0xff) as bv8
  }

  function WordBytes(w: bv32): (r: Bytes)
    ensures |r| == 4
  {
    [WordByte(w, 0), WordByte(w, 1), WordByte(w, 2), WordByte(w, 3)]
  }

  /** The bytes of a run of words, one word after the other. */
  function WordsBytes(ws: seq<bv32>): (r: Bytes)
    ensures |r| == 4 * |ws|
  {
    if ws == [] then [] else WordsBytes(ws[..|ws| - 1]) + WordBytes(ws[|ws| - 1])
  }

  /** One base-256 digit of a number: the digit that counts the given unit. */
  function Digit(n: nat, unit: nat): bv8
    requires 0 < unit
  {
    ((n / unit) % 256) as bv8
  }

  /** The eight bytes of a 64-bit number, most significant first; only l % 2^64 is represented. */
  function LengthField(l: nat): (r: Bytes)
    ensures |r| == 8
  {
    [Digit(l, 0x100_0000_0000_0000), Digit(l, 0x1_0000_0000_0000), Digit(l, 0x100_0000_0000),
     Digit(l, 0x1_0000_0000), Digit(l, 0x100_0000), Digit(l, 0x1_0000), Digit(l, 0x100), Digit(l, 1)]
  }

  // ---------------------------------------------------------------- padding (section 5.1.1)

  /** The number of zero bytes after the byte 0x80, for a message of n bytes. */
  function ZeroCount(n: nat): (z: nat)
    ensures (n + 1 + z) % 64 == 56 && z < 64
  {
    (119 - n % 64) % 64
  }

  function Zeros(n: nat): (r: Bytes)
    ensures |r| == n
  {
    seq(n, _ => 0)
  }

  /** The padded message, with the length field holding l. */
  function PadWithLength(m: Bytes, l: nat): (r: Bytes)
    ensures |r| % 64 == 0 && |m| < |r|
  {
    m + [0x80] + Zeros(ZeroCount(|m|)) + LengthField(l)
  }

  /** The standard's padding, defined for messages of fewer than 2^64 bits. */
  function Pad(m: Bytes): (r: Bytes)
    requires 8 * |m| < TWO_TO_64
    ensures |r| % 64 == 0 && |m| < |r|
  {
    PadWithLength(m, 8 * |m|)
  }

  // ---------------------------------------------------------------- hash computation (section 6.2.2)

  datatype State = State(a: bv32, b: bv32, c: bv32, d: bv32, e: bv32, f: bv32, g: bv32, h: bv32)

  const INITIAL_STATE := State(H0[0], H0[1], H0[2], H0[3], H0[4], H0[5], H0[6], H0[7])

  /** Word t of the message schedule of one 64-byte block. */
  function Schedule(block: Bytes, t: nat): bv32
    requires |block| == 64 && t < 64
  {
    if t < 16 then
      Word(block[4 * t], block[4 * t + 1], block[4 * t + 2], block[4 * t + 3])
    else
      Sum4(SmallSigma1(Schedule(block, t - 2)), Schedule(block, t - 7),
           SmallSigma0(Schedule(block, t - 15)), Schedule(block, t - 16))
  }

  function Round(s: State, k: bv32, w: bv32): State {
    var t1 := Sum5(s.h, BigSigma1(s.e), Ch(s.e, s.f, s.g), k, w);
    var t2 := Add(BigSigma0(s.a), Maj(s.a, s.b, s.c));
    State(Add(t1, t2), s.a, s.b, s.c, Add(s.d, t1), s.e, s.f, s.g)
  }

  /** The working variables after the first t rounds. */
  function Rounds(s: State, block: Bytes, t: nat): State
    requires |block| == 64 && t <= 64
  {
    if t == 0 then s else Round(Rounds(s, block, t - 1), K(t - 1), Schedule(block, t - 1))
  }

  function AddStates(x: State, y: State): State {
    State(Add(x.a, y.a), Add(x.b, y.b), Add(x.c, y.c), Add(x.d, y.d),
          Add(x.e, y.e), Add(x.f, y.f), Add(x.g, y.g), Add(x.h, y.h))
  }

  function Compress(s: State, block: Bytes): State
    requires |block| == 64
  {
    AddStates(s, Rounds(s, block, |block|))
  }

  /** The hash value after every block of m, in order. */
  function Blocks(s: State, m: Bytes): State
    requires |m| % 64 == 0
  {
    if |m| == 0 then s else Compress(Blocks(s, m[..|m| - 64]), m[|m| - 64..])
  }

  function StateWords(s: State): (r: seq<bv32>)
    ensures |r| == 8
  {
    [s.a, s.b, s.c, s.d, s.e, s.f, s.g, s.h]
  }

  function StateBytes(s: State): (r: Bytes)
    ensures |r| == 32
  {
    WordsBytes(StateWords(s))
  }

  /** SHA-256 of a message of fewer than 2^64 bits. */
  function Sha256(m: Bytes): (r: Bytes)
    requires 8 * |m| < TWO_TO_64
    ensures |r| == 32
  {
    StateBytes(Blocks(INITIAL_STATE, Pad(m)))
  }

  /**
   The same computation for a message of any size, when the length field keeps only the low 64
   bits of the length. It is the standard's function wherever the standard defines one.
   */
  function Sha256LowLength(m: Bytes): (r: Bytes)
    ensures |r| == 32
    ensures 8 * |m| < TWO_TO_64 ==> r == Sha256(m)
  {
    var low := 8 * |m| % TWO_TO_64;
    assert 8 * |m| < TWO_TO_64 ==> low == 8 * |m|;
    StateBytes(Blocks(INITIAL_STATE, PadWithLength(m, low)))
  }
}
