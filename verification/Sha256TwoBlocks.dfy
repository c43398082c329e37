/**
 The standard's second published example, a message of 448 bits: its padding is two blocks long, so
 that the second is compressed from the state the first one left.
 */
module Sha256TwoBlocks {
  import opened HexText
  import opened Sha256Spec
  import opened Sha256Trace

  /** Fourteen runs of four letters, each run starting a letter later than the one before. */
  function Letters(): (m: Bytes)
    ensures |m| == 56
  {
    seq(56, k requires 0 <= k < 56 => ByteOf(97 + k / 4 + k % 4))
  }

  function First(): (b: Bytes)
    ensures |b| == 64
  {
    Letters() + [0x80] + Zeros(7)
  }

  function Second(): (b: Bytes)
    ensures |b| == 64
  {
    Zeros(56) + [0, 0, 0, 0, 0, 0, 0x01, 0xc0]
  }

  lemma Digits()
    ensures Digit(448, 0x100) == 0x01 && Digit(448, 1) == 0xc0
  {
    DigitIs(448, 0x100, 1, 0x01);
    DigitIs(448, 1, 192, 0xc0);
  }

  lemma PaddedToTwoBlocks()
    ensures Pad(Letters()) == First() + Second()
  {
    hide LengthField, Letters, Digit;
    ShortLength(448);
    Digits();
    assert ZeroCount(56) == 63;
    assert Zeros(63) == Zeros(7) + Zeros(56);
  }

  lemma LetterWord(t: nat, b0: bv8, b1: bv8, b2: bv8, b3: bv8, w: bv32)
    requires t < 14
    requires ByteOf(97 + t) == b0 && ByteOf(98 + t) == b1 && ByteOf(99 + t) == b2 && ByteOf(100 + t) == b3
    requires Word(b0, b1, b2, b3) == w
    ensures IsWord(First(), t, w)
  {
    hide Word, ByteOf;
    assert First()[4 * t] == ByteOf(97 + t) && First()[4 * t + 1] == ByteOf(98 + t);
    assert First()[4 * t + 2] == ByteOf(99 + t) && First()[4 * t + 3] == ByteOf(100 + t);
    FirstWord(First(), t, b0, b1, b2, b3, w);
  }

  lemma LastWords()
    ensures IsWord(First(), 14, 0x80000000) && IsWord(First(), 15, 0)
  {
    hide Letters;
    FirstWord(First(), 14, 0x80, 0, 0, 0, 0x80000000);
    FirstWord(First(), 15, 0, 0, 0, 0, 0);
  }

  lemma SecondWord(t: nat)
    requires t < 16
    ensures IsWord(Second(), t, if t == 15 then 0x1c0 else 0)
  {
    if t == 15 {
      FirstWord(Second(), 15, 0, 0, 0x01, 0xc0, 0x1c0);
    } else {
      FirstWord(Second(), t, 0, 0, 0, 0, 0);
    }
  }

  // ---------------------------------------------------------------- the first block

  lemma FirstWords0()
    ensures Words(First(), 0, 0x61626364, 0x62636465, 0x63646566, 0x64656667,
                  0x65666768, 0x66676869, 0x6768696a, 0x68696a6b)
  {
    hide IsWord, First;
    LetterWord(0, 0x61, 0x62, 0x63, 0x64, 0x61626364);
    LetterWord(1, 0x62, 0x63, 0x64, 0x65, 0x62636465);
    LetterWord(2, 0x63, 0x64, 0x65, 0x66, 0x63646566);
    LetterWord(3, 0x64, 0x65, 0x66, 0x67, 0x64656667);
    LetterWord(4, 0x65, 0x66, 0x67, 0x68, 0x65666768);
    LetterWord(5, 0x66, 0x67, 0x68, 0x69, 0x66676869);
    LetterWord(6, 0x67, 0x68, 0x69, 0x6a, 0x6768696a);
    LetterWord(7, 0x68, 0x69, 0x6a, 0x6b, 0x68696a6b);
  }

  lemma FirstWords8()
    ensures Words(First(), 8, 0x696a6b6c, 0x6a6b6c6d, 0x6b6c6d6e, 0x6c6d6e6f,
                  0x6d6e6f70, 0x6e6f7071, 0x80000000, 0x00000000)
  {
    hide IsWord, First;
    LetterWord(8, 0x69, 0x6a, 0x6b, 0x6c, 0x696a6b6c);
    LetterWord(9, 0x6a, 0x6b, 0x6c, 0x6d, 0x6a6b6c6d);
    LetterWord(10, 0x6b, 0x6c, 0x6d, 0x6e, 0x6b6c6d6e);
    LetterWord(11, 0x6c, 0x6d, 0x6e, 0x6f, 0x6c6d6e6f);
    LetterWord(12, 0x6d, 0x6e, 0x6f, 0x70, 0x6d6e6f70);
    LetterWord(13, 0x6e, 0x6f, 0x70, 0x71, 0x6e6f7071);
    LastWords();
  }

  lemma FirstWords16()
    ensures Words(First(), 16, 0xeb8012ad, 0xa7c3ae92, 0x76e93ba2, 0xba42e743,
                  0x92a92204, 0xd847e75e, 0x9e160036, 0xb280a7cb)
  {
    hide IsWord, First;
    FirstWords0();
    FirstWords8();
    NextWord(First(), 16, 0x80000000, 0x6a6b6c6d, 0x62636465, 0x61626364, 0xeb8012ad);
    NextWord(First(), 17, 0x00000000, 0x6b6c6d6e, 0x63646566, 0x62636465, 0xa7c3ae92);
    NextWord(First(), 18, 0xeb8012ad, 0x6c6d6e6f, 0x64656667, 0x63646566, 0x76e93ba2);
    NextWord(First(), 19, 0xa7c3ae92, 0x6d6e6f70, 0x65666768, 0x64656667, 0xba42e743);
    NextWord(First(), 20, 0x76e93ba2, 0x6e6f7071, 0x66676869, 0x65666768, 0x92a92204);
    NextWord(First(), 21, 0xba42e743, 0x80000000, 0x6768696a, 0x66676869, 0xd847e75e);
    NextWord(First(), 22, 0x92a92204, 0x00000000, 0x68696a6b, 0x6768696a, 0x9e160036);
    NextWord(First(), 23, 0xd847e75e, 0xeb8012ad, 0x696a6b6c, 0x68696a6b, 0xb280a7cb);
  }

  lemma FirstWords24()
    ensures Words(First(), 24, 0xddeb1516, 0xf36586f4, 0x969cd048, 0xe959d99d,
                  0x6accc0ec, 0xf54cb098, 0x2af1b2da, 0xee59c4c9)
  {
    hide IsWord, First;
    FirstWords8();
    FirstWords16();
    NextWord(First(), 24, 0x9e160036, 0xa7c3ae92, 0x6a6b6c6d, 0x696a6b6c, 0xddeb1516);
    NextWord(First(), 25, 0xb280a7cb, 0x76e93ba2, 0x6b6c6d6e, 0x6a6b6c6d, 0xf36586f4);
    NextWord(First(), 26, 0xddeb1516, 0xba42e743, 0x6c6d6e6f, 0x6b6c6d6e, 0x969cd048);
    NextWord(First(), 27, 0xf36586f4, 0x92a92204, 0x6d6e6f70, 0x6c6d6e6f, 0xe959d99d);
    NextWord(First(), 28, 0x969cd048, 0xd847e75e, 0x6e6f7071, 0x6d6e6f70, 0x6accc0ec);
    NextWord(First(), 29, 0xe959d99d, 0x9e160036, 0x80000000, 0x6e6f7071, 0xf54cb098);
    NextWord(First(), 30, 0x6accc0ec, 0xb280a7cb, 0x00000000, 0x80000000, 0x2af1b2da);
    NextWord(First(), 31, 0xf54cb098, 0xddeb1516, 0xeb8012ad, 0x00000000, 0xee59c4c9);
  }

  lemma FirstWords32()
    ensures Words(First(), 32, 0xa835e16a, 0x1dff4429, 0xd6e15959, 0xc397cd6e,
                  0x6f1801ca, 0x21574205, 0x35ff7a84, 0x9743ee78)
  {
    hide IsWord, First;
    FirstWords16();
    FirstWords24();
    NextWord(First(), 32, 0x2af1b2da, 0xf36586f4, 0xa7c3ae92, 0xeb8012ad, 0xa835e16a);
    NextWord(First(), 33, 0xee59c4c9, 0x969cd048, 0x76e93ba2, 0xa7c3ae92, 0x1dff4429);
    NextWord(First(), 34, 0xa835e16a, 0xe959d99d, 0xba42e743, 0x76e93ba2, 0xd6e15959);
    NextWord(First(), 35, 0x1dff4429, 0x6accc0ec, 0x92a92204, 0xba42e743, 0xc397cd6e);
    NextWord(First(), 36, 0xd6e15959, 0xf54cb098, 0xd847e75e, 0x92a92204, 0x6f1801ca);
    NextWord(First(), 37, 0xc397cd6e, 0x2af1b2da, 0x9e160036, 0xd847e75e, 0x21574205);
    NextWord(First(), 38, 0x6f1801ca, 0xee59c4c9, 0xb280a7cb, 0x9e160036, 0x35ff7a84);
    NextWord(First(), 39, 0x21574205, 0xa835e16a, 0xddeb1516, 0xb280a7cb, 0x9743ee78);
  }

  lemma FirstWords40()
    ensures Words(First(), 40, 0xe44183e7, 0x0d09f00d, 0x9c89af54, 0x042d5bef,
                  0x71f134d0, 0x0f94f463, 0x7e49dc63, 0x6f65c997)
  {
    hide IsWord, First;
    FirstWords24();
    FirstWords32();
    NextWord(First(), 40, 0x35ff7a84, 0x1dff4429, 0xf36586f4, 0xddeb1516, 0xe44183e7);
    NextWord(First(), 41, 0x9743ee78, 0xd6e15959, 0x969cd048, 0xf36586f4, 0x0d09f00d);
    NextWord(First(), 42, 0xe44183e7, 0xc397cd6e, 0xe959d99d, 0x969cd048, 0x9c89af54);
    NextWord(First(), 43, 0x0d09f00d, 0x6f1801ca, 0x6accc0ec, 0xe959d99d, 0x042d5bef);
    NextWord(First(), 44, 0x9c89af54, 0x21574205, 0xf54cb098, 0x6accc0ec, 0x71f134d0);
    NextWord(First(), 45, 0x042d5bef, 0x35ff7a84, 0x2af1b2da, 0xf54cb098, 0x0f94f463);
    NextWord(First(), 46, 0x71f134d0, 0x9743ee78, 0xee59c4c9, 0x2af1b2da, 0x7e49dc63);
    NextWord(First(), 47, 0x0f94f463, 0xe44183e7, 0xa835e16a, 0xee59c4c9, 0x6f65c997);
  }

  lemma FirstWords48()
    ensures Words(First(), 48, 0x0b706583, 0x179312ca, 0x503054e9, 0xba125c39,
                  0x7e9392c9, 0xd5cbaa1e, 0x78e0585d, 0xf6e7611c)
  {
    hide IsWord, First;
    FirstWords32();
    FirstWords40();
    NextWord(First(), 48, 0x7e49dc63, 0x0d09f00d, 0x1dff4429, 0xa835e16a, 0x0b706583);
    NextWord(First(), 49, 0x6f65c997, 0x9c89af54, 0xd6e15959, 0x1dff4429, 0x179312ca);
    NextWord(First(), 50, 0x0b706583, 0x042d5bef, 0xc397cd6e, 0xd6e15959, 0x503054e9);
    NextWord(First(), 51, 0x179312ca, 0x71f134d0, 0x6f1801ca, 0xc397cd6e, 0xba125c39);
    NextWord(First(), 52, 0x503054e9, 0x0f94f463, 0x21574205, 0x6f1801ca, 0x7e9392c9);
    NextWord(First(), 53, 0xba125c39, 0x7e49dc63, 0x35ff7a84, 0x21574205, 0xd5cbaa1e);
    NextWord(First(), 54, 0x7e9392c9, 0x6f65c997, 0x9743ee78, 0x35ff7a84, 0x78e0585d);
    NextWord(First(), 55, 0xd5cbaa1e, 0x0b706583, 0xe44183e7, 0x9743ee78, 0xf6e7611c);
  }

  lemma FirstWords56()
    ensures Words(First(), 56, 0x8ac830ce, 0x8b47a303, 0xfd6e627f, 0x8c6e2c6a,
                  0x4001adf1, 0x1a3dd097, 0xa9df6f62, 0x6aa60a39)
  {
    hide IsWord, First;
    FirstWords40();
    FirstWords48();
    NextWord(First(), 56, 0x78e0585d, 0x179312ca, 0x0d09f00d, 0xe44183e7, 0x8ac830ce);
    NextWord(First(), 57, 0xf6e7611c, 0x503054e9, 0x9c89af54, 0x0d09f00d, 0x8b47a303);
    NextWord(First(), 58, 0x8ac830ce, 0xba125c39, 0x042d5bef, 0x9c89af54, 0xfd6e627f);
    NextWord(First(), 59, 0x8b47a303, 0x7e9392c9, 0x71f134d0, 0x042d5bef, 0x8c6e2c6a);
    NextWord(First(), 60, 0xfd6e627f, 0xd5cbaa1e, 0x0f94f463, 0x71f134d0, 0x4001adf1);
    NextWord(First(), 61, 0x8c6e2c6a, 0x78e0585d, 0x7e49dc63, 0x0f94f463, 0x1a3dd097);
    NextWord(First(), 62, 0x4001adf1, 0xf6e7611c, 0x6f65c997, 0x7e49dc63, 0xa9df6f62);
    NextWord(First(), 63, 0x1a3dd097, 0x8ac830ce, 0x0b706583, 0x6f65c997, 0x6aa60a39);
  }

  lemma FirstRounds8() returns (s: State)
    ensures s == State(0xd237e6db, 0x485835b7, 0x55c8ef48, 0xf921c212, 0xa401d211, 0x39a5b2ca, 0x7ff91c94, 0x05c4f88a)
    ensures After(INITIAL_STATE, First(), 8, s)
  {
    hide IsWord, Rounds, First;
    FirstWords0();
    s := INITIAL_STATE;
    NoRound(s, First());
    s := NextRound(INITIAL_STATE, First(), 0, s, 0x428a2f98, 0x61626364, 0x5d6aebb1, 0xfa2a4606);
    s := NextRound(INITIAL_STATE, First(), 1, s, 0x71374491, 0x62636465, 0x2f2d5fcf, 0x4eb1cfce);
    s := NextRound(INITIAL_STATE, First(), 2, s, 0xb5c0fbcf, 0x63646566, 0x97651825, 0x62d5c49e);
    s := NextRound(INITIAL_STATE, First(), 3, s, 0xe9b5dba5, 0x64656667, 0x4a8d64d5, 0x6494841b);
    s := NextRound(INITIAL_STATE, First(), 4, s, 0x3956c25b, 0x65666768, 0xf921c212, 0x05c4f88a);
    s := NextRound(INITIAL_STATE, First(), 5, s, 0x59f111f1, 0x66676869, 0x55c8ef48, 0x7ff91c94);
    s := NextRound(INITIAL_STATE, First(), 6, s, 0x923f82a4, 0x6768696a, 0x485835b7, 0x39a5b2ca);
    s := NextRound(INITIAL_STATE, First(), 7, s, 0xab1c5ed5, 0x68696a6b, 0xd237e6db, 0xa401d211);
  }

  lemma FirstRounds16() returns (s: State)
    ensures s == State(0xc3486194, 0xdd16cbb3, 0xd68e6457, 0x101a4861, 0x1496a54f, 0x9162aded, 0x9243f8af, 0x839a0fc9)
    ensures After(INITIAL_STATE, First(), 16, s)
  {
    hide IsWord, Rounds, First;
    FirstWords8();
    s := FirstRounds8();
    s := NextRound(INITIAL_STATE, First(), 8, s, 0xd807aa98, 0x696a6b6c, 0x359f2bce, 0xc09ffec4);
    s := NextRound(INITIAL_STATE, First(), 9, s, 0x12835b01, 0x6a6b6c6d, 0x3a474b2b, 0x9037b3b8);
    s := NextRound(INITIAL_STATE, First(), 10, s, 0x243185be, 0x6b6c6d6e, 0xb8e2b4cb, 0x443ed29e);
    s := NextRound(INITIAL_STATE, First(), 11, s, 0x550c7dc3, 0x6c6d6e6f, 0x1762215c, 0xee1c97a8);
    s := NextRound(INITIAL_STATE, First(), 12, s, 0x72be5d74, 0x6d6e6f70, 0x101a4861, 0x839a0fc9);
    s := NextRound(INITIAL_STATE, First(), 13, s, 0x80deb1fe, 0x6e6f7071, 0xd68e6457, 0x9243f8af);
    s := NextRound(INITIAL_STATE, First(), 14, s, 0x9bdc06a7, 0x80000000, 0xdd16cbb3, 0x9162aded);
    s := NextRound(INITIAL_STATE, First(), 15, s, 0xc19bf174, 0x00000000, 0xc3486194, 0x1496a54f);
  }

  lemma FirstRounds24() returns (s: State)
    ensures s == State(0x59fce6b9, 0xae2e2d4f, 0x1b2b66b8, 0xd70ac17d, 0xa2c7d51d, 0xf074fc95, 0xd560b028, 0x7cc6b262)
    ensures After(INITIAL_STATE, First(), 24, s)
  {
    hide IsWord, Rounds, First;
    FirstWords16();
    s := FirstRounds16();
    s := NextRound(INITIAL_STATE, First(), 16, s, 0xe49b69c1, 0xeb8012ad, 0xb9dcacb1, 0xd4f64250);
    s := NextRound(INITIAL_STATE, First(), 17, s, 0xefbe4786, 0xa7c3ae92, 0x046a193e, 0x885370b6);
    s := NextRound(INITIAL_STATE, First(), 18, s, 0x0fc19dc6, 0x76e93ba2, 0xf402f058, 0x6f433549);
    s := NextRound(INITIAL_STATE, First(), 19, s, 0x240ca1cc, 0xba42e743, 0x2139187b, 0x7c304206);
    s := NextRound(INITIAL_STATE, First(), 20, s, 0x2de92c6f, 0x92a92204, 0xd70ac17d, 0x7cc6b262);
    s := NextRound(INITIAL_STATE, First(), 21, s, 0x4a7484aa, 0xd847e75e, 0x1b2b66b8, 0xd560b028);
    s := NextRound(INITIAL_STATE, First(), 22, s, 0x5cb0a9dc, 0x9e160036, 0xae2e2d4f, 0xf074fc95);
    s := NextRound(INITIAL_STATE, First(), 23, s, 0x76f988da, 0xb280a7cb, 0x59fce6b9, 0xa2c7d51d);
  }

  lemma FirstRounds32() returns (s: State)
    ensures s == State(0x5581ab07, 0xeb43f3ed, 0xdf7151a0, 0x74bcf468, 0xdf980085, 0x0635d880, 0x7629c961, 0x72abaecd)
    ensures After(INITIAL_STATE, First(), 32, s)
  {
    hide IsWord, Rounds, First;
    FirstWords24();
    s := FirstRounds24();
    s := NextRound(INITIAL_STATE, First(), 24, s, 0x983e5152, 0xddeb1516, 0x4a885065, 0x763597fb);
    s := NextRound(INITIAL_STATE, First(), 25, s, 0xa831c66d, 0xf36586f4, 0x573221da, 0x36e74eb4);
    s := NextRound(INITIAL_STATE, First(), 26, s, 0xb00327c8, 0x969cd048, 0x128661da, 0x1162d575);
    s := NextRound(INITIAL_STATE, First(), 27, s, 0xbf597fc7, 0xe959d99d, 0x73f858af, 0xe77c797f);
    s := NextRound(INITIAL_STATE, First(), 28, s, 0xc6e00bf3, 0x6accc0ec, 0x74bcf468, 0x72abaecd);
    s := NextRound(INITIAL_STATE, First(), 29, s, 0xd5a79147, 0xf54cb098, 0xdf7151a0, 0x7629c961);
    s := NextRound(INITIAL_STATE, First(), 30, s, 0x06ca6351, 0x2af1b2da, 0xeb43f3ed, 0x0635d880);
    s := NextRound(INITIAL_STATE, First(), 31, s, 0x14292967, 0xee59c4c9, 0x5581ab07, 0xdf980085);
  }

  lemma FirstRounds40() returns (s: State)
    ensures s == State(0x7e4d30b8, 0x91ac9d5d, 0xa985b4be, 0x2c55d3a6, 0x9f5b9b6d, 0x68d8d590, 0xf72bf353, 0xb067c1af)
    ensures After(INITIAL_STATE, First(), 40, s)
  {
    hide IsWord, Rounds, First;
    FirstWords32();
    s := FirstRounds32();
    s := NextRound(INITIAL_STATE, First(), 32, s, 0x27b70a85, 0xa835e16a, 0x9fc905c8, 0xa94d2af1);
    s := NextRound(INITIAL_STATE, First(), 33, s, 0x2e1b2138, 0x1dff4429, 0x9ce5a62f, 0x6ef3b6bd);
    s := NextRound(INITIAL_STATE, First(), 34, s, 0x4d2c6dfc, 0xd6e15959, 0x1df8e885, 0x2a9e048e);
    s := NextRound(INITIAL_STATE, First(), 35, s, 0x53380d13, 0xc397cd6e, 0x0786dce8, 0xde2a21d1);
    s := NextRound(INITIAL_STATE, First(), 36, s, 0x650a7354, 0x6f1801ca, 0x2c55d3a6, 0xb067c1af);
    s := NextRound(INITIAL_STATE, First(), 37, s, 0x766a0abb, 0x21574205, 0xa985b4be, 0xf72bf353);
    s := NextRound(INITIAL_STATE, First(), 38, s, 0x81c2c92e, 0x35ff7a84, 0x91ac9d5d, 0x68d8d590);
    s := NextRound(INITIAL_STATE, First(), 39, s, 0x92722c85, 0x9743ee78, 0x7e4d30b8, 0x9f5b9b6d);
  }

  lemma FirstRounds48() returns (s: State)
    ensures s == State(0x13d82741, 0x165be9cd, 0x18f0d19d, 0xde71e2f2, 0xa7802a4d, 0xa483f080, 0x6b88472c, 0xff61c636)
    ensures After(INITIAL_STATE, First(), 48, s)
  {
    hide IsWord, Rounds, First;
    FirstWords40();
    s := FirstRounds40();
    s := NextRound(INITIAL_STATE, First(), 40, s, 0xa2bfe8a1, 0xe44183e7, 0x7e056794, 0x423b26c0);
    s := NextRound(INITIAL_STATE, First(), 41, s, 0xa81a664b, 0x0d09f00d, 0x508a16ab, 0x45459d97);
    s := NextRound(INITIAL_STATE, First(), 42, s, 0xc24b8b70, 0x9c89af54, 0xb62c7013, 0x80a92a00);
    s := NextRound(INITIAL_STATE, First(), 43, s, 0xc76c51a3, 0x042d5bef, 0x167361de, 0x41dd3844);
    s := NextRound(INITIAL_STATE, First(), 44, s, 0xd192e819, 0x71f134d0, 0xde71e2f2, 0xff61c636);
    s := NextRound(INITIAL_STATE, First(), 45, s, 0xd6990624, 0x0f94f463, 0x18f0d19d, 0x6b88472c);
    s := NextRound(INITIAL_STATE, First(), 46, s, 0xf40e3585, 0x7e49dc63, 0x165be9cd, 0xa483f080);
    s := NextRound(INITIAL_STATE, First(), 47, s, 0x106aa070, 0x6f65c997, 0x13d82741, 0xa7802a4d);
  }

  lemma FirstRounds56() returns (s: State)
    ensures s == State(0x9e57c4a0, 0xf907b313, 0x1d6de87a, 0xb8d55619, 0xeec13548, 0x61a41711, 0x3443bed4, 0x1c806a61)
    ensures After(INITIAL_STATE, First(), 56, s)
  {
    hide IsWord, Rounds, First;
    FirstWords48();
    s := FirstRounds48();
    s := NextRound(INITIAL_STATE, First(), 48, s, 0x19a4c116, 0x0b706583, 0x017b9d99, 0xaeb10b60);
    s := NextRound(INITIAL_STATE, First(), 49, s, 0x1e376c08, 0x179312ca, 0x543c99a1, 0x16f134b6);
    s := NextRound(INITIAL_STATE, First(), 50, s, 0x2748774c, 0x503054e9, 0x758ca97a, 0x100cf2ea);
    s := NextRound(INITIAL_STATE, First(), 51, s, 0x34b0bcb5, 0xba125c39, 0x81c1cde0, 0x5c47eb7b);
    s := NextRound(INITIAL_STATE, First(), 52, s, 0x391c0cb3, 0x7e9392c9, 0xb8d55619, 0x1c806a61);
    s := NextRound(INITIAL_STATE, First(), 53, s, 0x4ed8aa4a, 0xd5cbaa1e, 0x1d6de87a, 0x3443bed4);
    s := NextRound(INITIAL_STATE, First(), 54, s, 0x5b9cca4f, 0x78e0585d, 0xf907b313, 0x61a41711);
    s := NextRound(INITIAL_STATE, First(), 55, s, 0x682e6ff3, 0xf6e7611c, 0x9e57c4a0, 0xeec13548);
  }

  lemma FirstRounds64() returns (s: State)
    ensures s == State(0x1bdc6f6f, 0x86126910, 0xf6f443f8, 0xbcfce922, 0x25d2430a, 0x2fc08f85, 0xacc75916, 0x962d8621)
    ensures After(INITIAL_STATE, First(), 64, s)
  {
    hide IsWord, Rounds, First;
    FirstWords56();
    s := FirstRounds56();
    s := NextRound(INITIAL_STATE, First(), 56, s, 0x748f82ee, 0x8ac830ce, 0x71629856, 0x2f6c8c4e);
    s := NextRound(INITIAL_STATE, First(), 57, s, 0x78a5636f, 0x8b47a303, 0x7c015a2c, 0xcb9d3dd0);
    s := NextRound(INITIAL_STATE, First(), 58, s, 0x84c87814, 0xfd6e627f, 0x921fccb6, 0x43d8a034);
    s := NextRound(INITIAL_STATE, First(), 59, s, 0x8cc70208, 0x8c6e2c6a, 0xe18f259a, 0x51e15869);
    s := NextRound(INITIAL_STATE, First(), 60, s, 0x90befffa, 0x4001adf1, 0xbcfce922, 0x962d8621);
    s := NextRound(INITIAL_STATE, First(), 61, s, 0xa4506ceb, 0x1a3dd097, 0xf6f443f8, 0xacc75916);
    s := NextRound(INITIAL_STATE, First(), 62, s, 0xbef9a3f7, 0xa9df6f62, 0x86126910, 0x2fc08f85);
    s := NextRound(INITIAL_STATE, First(), 63, s, 0xc67178f2, 0x6aa60a39, 0x1bdc6f6f, 0x25d2430a);
  }

  function Middle(): State {
    State(0x85e655d6, 0x417a1795, 0x3363376a, 0x624cde5c, 0x76e09589, 0xcac5f811, 0xcc4b32c1, 0xf20e533a)
  }

  lemma FirstAdded(s: State)
    requires s == State(0x1bdc6f6f, 0x86126910, 0xf6f443f8, 0xbcfce922, 0x25d2430a, 0x2fc08f85, 0xacc75916, 0x962d8621)
    ensures AddStates(INITIAL_STATE, s) == Middle()
  {
  }

  lemma FirstCompressed()
    ensures Compress(INITIAL_STATE, First()) == Middle()
  {
    hide Rounds, First, AddStates;
    var s := FirstRounds64();
    FirstAdded(s);
  }

  // ---------------------------------------------------------------- the second block

  lemma AtMiddle() returns (s: State)
    ensures s == State(0x85e655d6, 0x417a1795, 0x3363376a, 0x624cde5c, 0x76e09589, 0xcac5f811, 0xcc4b32c1, 0xf20e533a)
    ensures After(Middle(), Second(), 0, s)
  {
    s := Middle();
    NoRound(s, Second());
  }

  lemma SecondWords0()
    ensures Words(Second(), 0, 0x00000000, 0x00000000, 0x00000000, 0x00000000,
                  0x00000000, 0x00000000, 0x00000000, 0x00000000)
  {
    hide IsWord, Second;
    SecondWord(0);
    SecondWord(1);
    SecondWord(2);
    SecondWord(3);
    SecondWord(4);
    SecondWord(5);
    SecondWord(6);
    SecondWord(7);
  }

  lemma SecondWords8()
    ensures Words(Second(), 8, 0x00000000, 0x00000000, 0x00000000, 0x00000000,
                  0x00000000, 0x00000000, 0x00000000, 0x000001c0)
  {
    hide IsWord, Second;
    SecondWord(8);
    SecondWord(9);
    SecondWord(10);
    SecondWord(11);
    SecondWord(12);
    SecondWord(13);
    SecondWord(14);
    SecondWord(15);
  }

  lemma SecondWords16()
    ensures Words(Second(), 16, 0x00000000, 0x00d80000, 0x00000000, 0x00003677,
                  0x00000000, 0x1df5600d, 0x000001c0, 0x1c00501c)
  {
    hide IsWord, Second;
    SecondWords0();
    SecondWords8();
    NextWord(Second(), 16, 0x00000000, 0x00000000, 0x00000000, 0x00000000, 0x00000000);
    NextWord(Second(), 17, 0x000001c0, 0x00000000, 0x00000000, 0x00000000, 0x00d80000);
    NextWord(Second(), 18, 0x00000000, 0x00000000, 0x00000000, 0x00000000, 0x00000000);
    NextWord(Second(), 19, 0x00d80000, 0x00000000, 0x00000000, 0x00000000, 0x00003677);
    NextWord(Second(), 20, 0x00000000, 0x00000000, 0x00000000, 0x00000000, 0x00000000);
    NextWord(Second(), 21, 0x00003677, 0x00000000, 0x00000000, 0x00000000, 0x1df5600d);
    NextWord(Second(), 22, 0x00000000, 0x000001c0, 0x00000000, 0x00000000, 0x000001c0);
    NextWord(Second(), 23, 0x1df5600d, 0x00000000, 0x00000000, 0x00000000, 0x1c00501c);
  }

  lemma SecondWords24()
    ensures Words(Second(), 24, 0x01b00000, 0x220a8d94, 0x0000a365, 0x177017e7,
                  0x63d38035, 0x090ab713, 0x4c7539ca, 0x0f19a8c9)
  {
    hide IsWord, Second;
    SecondWords8();
    SecondWords16();
    NextWord(Second(), 24, 0x000001c0, 0x00d80000, 0x00000000, 0x00000000, 0x01b00000);
    NextWord(Second(), 25, 0x1c00501c, 0x00000000, 0x00000000, 0x00000000, 0x220a8d94);
    NextWord(Second(), 26, 0x01b00000, 0x00003677, 0x00000000, 0x00000000, 0x0000a365);
    NextWord(Second(), 27, 0x220a8d94, 0x00000000, 0x00000000, 0x00000000, 0x177017e7);
    NextWord(Second(), 28, 0x0000a365, 0x1df5600d, 0x00000000, 0x00000000, 0x63d38035);
    NextWord(Second(), 29, 0x177017e7, 0x000001c0, 0x00000000, 0x00000000, 0x090ab713);
    NextWord(Second(), 30, 0x63d38035, 0x1c00501c, 0x000001c0, 0x00000000, 0x4c7539ca);
    NextWord(Second(), 31, 0x090ab713, 0x01b00000, 0x00000000, 0x000001c0, 0x0f19a8c9);
  }

  lemma SecondWords32()
    ensures Words(Second(), 32, 0x5df4b0c4, 0xe257036a, 0xc97bb6f1, 0xc5b46f4d,
                  0xf8253c4e, 0xa558d189, 0x78696285, 0xed07117f)
  {
    hide IsWord, Second;
    SecondWords16();
    SecondWords24();
    NextWord(Second(), 32, 0x4c7539ca, 0x220a8d94, 0x00d80000, 0x00000000, 0x5df4b0c4);
    NextWord(Second(), 33, 0x0f19a8c9, 0x0000a365, 0x00000000, 0x00d80000, 0xe257036a);
    NextWord(Second(), 34, 0x5df4b0c4, 0x177017e7, 0x00003677, 0x00000000, 0xc97bb6f1);
    NextWord(Second(), 35, 0xe257036a, 0x63d38035, 0x00000000, 0x00003677, 0xc5b46f4d);
    NextWord(Second(), 36, 0xc97bb6f1, 0x090ab713, 0x1df5600d, 0x00000000, 0xf8253c4e);
    NextWord(Second(), 37, 0xc5b46f4d, 0x4c7539ca, 0x000001c0, 0x1df5600d, 0xa558d189);
    NextWord(Second(), 38, 0xf8253c4e, 0x0f19a8c9, 0x1c00501c, 0x000001c0, 0x78696285);
    NextWord(Second(), 39, 0xa558d189, 0x5df4b0c4, 0x01b00000, 0x1c00501c, 0xed07117f);
  }

  lemma SecondWords40()
    ensures Words(Second(), 40, 0x107358f6, 0x390ae496, 0x565010a2, 0xc51d7d44,
                  0x9e74c972, 0x6614b561, 0x30fc129d, 0x9ac684a8)
  {
    hide IsWord, Second;
    SecondWords24();
    SecondWords32();
    NextWord(Second(), 40, 0x78696285, 0xe257036a, 0x220a8d94, 0x01b00000, 0x107358f6);
    NextWord(Second(), 41, 0xed07117f, 0xc97bb6f1, 0x0000a365, 0x220a8d94, 0x390ae496);
    NextWord(Second(), 42, 0x107358f6, 0xc5b46f4d, 0x177017e7, 0x0000a365, 0x565010a2);
    NextWord(Second(), 43, 0x390ae496, 0xf8253c4e, 0x63d38035, 0x177017e7, 0xc51d7d44);
    NextWord(Second(), 44, 0x565010a2, 0xa558d189, 0x090ab713, 0x63d38035, 0x9e74c972);
    NextWord(Second(), 45, 0xc51d7d44, 0x78696285, 0x4c7539ca, 0x090ab713, 0x6614b561);
    NextWord(Second(), 46, 0x9e74c972, 0xed07117f, 0x0f19a8c9, 0x4c7539ca, 0x30fc129d);
    NextWord(Second(), 47, 0x6614b561, 0x107358f6, 0x5df4b0c4, 0x0f19a8c9, 0x9ac684a8);
  }

  lemma SecondWords48()
    ensures Words(Second(), 48, 0x2b658dbd, 0xe290f793, 0x9eebb24c, 0x9713b5de,
                  0x41061ab7, 0xe022e23b, 0x0772079e, 0x7de22d9c)
  {
    hide IsWord, Second;
    SecondWords32();
    SecondWords40();
    NextWord(Second(), 48, 0x30fc129d, 0x390ae496, 0xe257036a, 0x5df4b0c4, 0x2b658dbd);
    NextWord(Second(), 49, 0x9ac684a8, 0x565010a2, 0xc97bb6f1, 0xe257036a, 0xe290f793);
    NextWord(Second(), 50, 0x2b658dbd, 0xc51d7d44, 0xc5b46f4d, 0xc97bb6f1, 0x9eebb24c);
    NextWord(Second(), 51, 0xe290f793, 0x9e74c972, 0xf8253c4e, 0xc5b46f4d, 0x9713b5de);
    NextWord(Second(), 52, 0x9eebb24c, 0x6614b561, 0xa558d189, 0xf8253c4e, 0x41061ab7);
    NextWord(Second(), 53, 0x9713b5de, 0x30fc129d, 0x78696285, 0xa558d189, 0xe022e23b);
    NextWord(Second(), 54, 0x41061ab7, 0x9ac684a8, 0xed07117f, 0x78696285, 0x0772079e);
    NextWord(Second(), 55, 0xe022e23b, 0x2b658dbd, 0x107358f6, 0xed07117f, 0x7de22d9c);
  }

  lemma SecondWords56()
    ensures Words(Second(), 56, 0xc8b83778, 0x75a79849, 0xd93dbddb, 0x0a036c9d,
                  0xcb4f6ac6, 0x823f97e2, 0xea2f2a7a, 0xb9018b52)
  {
    hide IsWord, Second;
    SecondWords40();
    SecondWords48();
    NextWord(Second(), 56, 0x0772079e, 0xe290f793, 0x390ae496, 0x107358f6, 0xc8b83778);
    NextWord(Second(), 57, 0x7de22d9c, 0x9eebb24c, 0x565010a2, 0x390ae496, 0x75a79849);
    NextWord(Second(), 58, 0xc8b83778, 0x9713b5de, 0xc51d7d44, 0x565010a2, 0xd93dbddb);
    NextWord(Second(), 59, 0x75a79849, 0x41061ab7, 0x9e74c972, 0xc51d7d44, 0x0a036c9d);
    NextWord(Second(), 60, 0xd93dbddb, 0xe022e23b, 0x6614b561, 0x9e74c972, 0xcb4f6ac6);
    NextWord(Second(), 61, 0x0a036c9d, 0x0772079e, 0x30fc129d, 0x6614b561, 0x823f97e2);
    NextWord(Second(), 62, 0xcb4f6ac6, 0x7de22d9c, 0x9ac684a8, 0x30fc129d, 0xea2f2a7a);
    NextWord(Second(), 63, 0x823f97e2, 0xc8b83778, 0x2b658dbd, 0x9ac684a8, 0xb9018b52);
  }

  lemma SecondRounds4() returns (s: State)
    ensures s == State(0xf268faa9, 0xfd1eebdc, 0x7c3c0f86, 0x7c20c838, 0xe20362ef, 0xaf71b9ea, 0x8c51be64, 0x4670ae6e)
    ensures After(Middle(), Second(), 4, s)
  {
    hide IsWord, Rounds, Second, Middle;
    SecondWords0();
    s := AtMiddle();
    s := NextRound(Middle(), Second(), 0, s, 0x428a2f98, 0x00000000, 0x7c20c838, 0x4670ae6e);
    s := NextRound(Middle(), Second(), 1, s, 0x71374491, 0x00000000, 0x7c3c0f86, 0x8c51be64);
    s := NextRound(Middle(), Second(), 2, s, 0xb5c0fbcf, 0x00000000, 0xfd1eebdc, 0xaf71b9ea);
    s := NextRound(Middle(), Second(), 3, s, 0xe9b5dba5, 0x00000000, 0xf268faa9, 0xe20362ef);
  }

  lemma SecondRounds8() returns (s: State)
    ensures s == State(0xbf9a93a0, 0x89bba3f1, 0x3eeb6c06, 0x185a5d79, 0x059abdd1, 0x0a34df03, 0xfe20cda6, 0x8dff3001)
    ensures After(Middle(), Second(), 8, s)
  {
    hide IsWord, Rounds, Second, Middle;
    SecondWords0();
    s := SecondRounds4();
    s := NextRound(Middle(), Second(), 4, s, 0x3956c25b, 0x00000000, 0x185a5d79, 0x8dff3001);
    s := NextRound(Middle(), Second(), 5, s, 0x59f111f1, 0x00000000, 0x3eeb6c06, 0xfe20cda6);
    s := NextRound(Middle(), Second(), 6, s, 0x923f82a4, 0x00000000, 0x89bba3f1, 0x0a34df03);
    s := NextRound(Middle(), Second(), 7, s, 0xab1c5ed5, 0x00000000, 0xbf9a93a0, 0x059abdd1);
  }

  lemma SecondRounds12() returns (s: State)
    ensures s == State(0x5eb4ec40, 0x5b35025b, 0x2d964e86, 0x2c096744, 0xe11b4548, 0x10e77723, 0xaa27ed82, 0xabfa465b)
    ensures After(Middle(), Second(), 12, s)
  {
    hide IsWord, Rounds, Second, Middle;
    SecondWords8();
    s := SecondRounds8();
    s := NextRound(Middle(), Second(), 8, s, 0xd807aa98, 0x00000000, 0x2c096744, 0xabfa465b);
    s := NextRound(Middle(), Second(), 9, s, 0x12835b01, 0x00000000, 0x2d964e86, 0xaa27ed82);
    s := NextRound(Middle(), Second(), 10, s, 0x243185be, 0x00000000, 0x5b35025b, 0x10e77723);
    s := NextRound(Middle(), Second(), 11, s, 0x550c7dc3, 0x00000000, 0x5eb4ec40, 0xe11b4548);
  }

  lemma SecondRounds16() returns (s: State)
    ensures s == State(0x16a8cc79, 0x0cea5cbc, 0xd74080fa, 0x35ee996d, 0x0fcb1f6f, 0x60356548, 0x68aa893f, 0x5c24e2a2)
    ensures After(Middle(), Second(), 16, s)
  {
    hide IsWord, Rounds, Second, Middle;
    SecondWords8();
    s := SecondRounds12();
    s := NextRound(Middle(), Second(), 12, s, 0x72be5d74, 0x00000000, 0x35ee996d, 0x5c24e2a2);
    s := NextRound(Middle(), Second(), 13, s, 0x80deb1fe, 0x00000000, 0xd74080fa, 0x68aa893f);
    s := NextRound(Middle(), Second(), 14, s, 0x9bdc06a7, 0x00000000, 0x0cea5cbc, 0x60356548);
    s := NextRound(Middle(), Second(), 15, s, 0xc19bf174, 0x000001c0, 0x16a8cc79, 0x0fcb1f6f);
  }

  lemma SecondRounds20() returns (s: State)
    ensures s == State(0x76f1a2bc, 0xdcff40fd, 0x23dcb6c2, 0xf16f634e, 0x0dc84bb1, 0x69bf7b95, 0xca9182d3, 0x8b21cdc1)
    ensures After(Middle(), Second(), 20, s)
  {
    hide IsWord, Rounds, Second, Middle;
    SecondWords16();
    s := SecondRounds16();
    s := NextRound(Middle(), Second(), 16, s, 0xe49b69c1, 0x00000000, 0xf16f634e, 0x8b21cdc1);
    s := NextRound(Middle(), Second(), 17, s, 0xefbe4786, 0x00d80000, 0x23dcb6c2, 0xca9182d3);
    s := NextRound(Middle(), Second(), 18, s, 0x0fc19dc6, 0x00000000, 0xdcff40fd, 0x69bf7b95);
    s := NextRound(Middle(), Second(), 19, s, 0x240ca1cc, 0x00003677, 0x76f1a2bc, 0x0dc84bb1);
  }

  lemma SecondRounds24() returns (s: State)
    ensures s == State(0xa4195b91, 0xf13ae55b, 0xd44dc81a, 0x20aad899, 0xeddbd6ed, 0x966aa287, 0x5bace62d, 0xcc4769f2)
    ensures After(Middle(), Second(), 24, s)
  {
    hide IsWord, Rounds, Second, Middle;
    SecondWords16();
    s := SecondRounds20();
    s := NextRound(Middle(), Second(), 20, s, 0x2de92c6f, 0x00000000, 0x20aad899, 0xcc4769f2);
    s := NextRound(Middle(), Second(), 21, s, 0x4a7484aa, 0x1df5600d, 0xd44dc81a, 0x5bace62d);
    s := NextRound(Middle(), Second(), 22, s, 0x5cb0a9dc, 0x000001c0, 0xf13ae55b, 0x966aa287);
    s := NextRound(Middle(), Second(), 23, s, 0x76f988da, 0x1c00501c, 0xa4195b91, 0xeddbd6ed);
  }

  lemma SecondRounds28() returns (s: State)
    ensures s == State(0x0d936bab, 0x9450fbbc, 0xaa6cb982, 0x4984fa79, 0x6e495d4b, 0x09166dda, 0x0b5eeea4, 0xa530d939)
    ensures After(Middle(), Second(), 28, s)
  {
    hide IsWord, Rounds, Second, Middle;
    SecondWords24();
    s := SecondRounds24();
    s := NextRound(Middle(), Second(), 24, s, 0x983e5152, 0x01b00000, 0x4984fa79, 0xa530d939);
    s := NextRound(Middle(), Second(), 25, s, 0xa831c66d, 0x220a8d94, 0xaa6cb982, 0x0b5eeea4);
    s := NextRound(Middle(), Second(), 26, s, 0xb00327c8, 0x0000a365, 0x9450fbbc, 0x09166dda);
    s := NextRound(Middle(), Second(), 27, s, 0xbf597fc7, 0x177017e7, 0x0d936bab, 0x6e495d4b);
  }

  lemma SecondRounds32() returns (s: State)
    ensures s == State(0xb0eab1c5, 0x02ef3a5f, 0x1cfa5eb0, 0xd958b529, 0xf6d93952, 0x5da10665, 0x6c49db9f, 0xc2fa99b1)
    ensures After(Middle(), Second(), 32, s)
  {
    hide IsWord, Rounds, Second, Middle;
    SecondWords24();
    s := SecondRounds28();
    s := NextRound(Middle(), Second(), 28, s, 0xc6e00bf3, 0x63d38035, 0xd958b529, 0xc2fa99b1);
    s := NextRound(Middle(), Second(), 29, s, 0xd5a79147, 0x090ab713, 0x1cfa5eb0, 0x6c49db9f);
    s := NextRound(Middle(), Second(), 30, s, 0x06ca6351, 0x4c7539ca, 0x02ef3a5f, 0x5da10665);
    s := NextRound(Middle(), Second(), 31, s, 0x14292967, 0x0f19a8c9, 0xb0eab1c5, 0xf6d93952);
  }

  lemma SecondRounds36() returns (s: State)
    ensures s == State(0xecde4e0d, 0x9907f1b6, 0x4bd1df96, 0x0bfba73c, 0x5dc119e6, 0x66c3043d, 0x905e44ac, 0x8b99e3a9)
    ensures After(Middle(), Second(), 36, s)
  {
    hide IsWord, Rounds, Second, Middle;
    SecondWords32();
    s := SecondRounds32();
    s := NextRound(Middle(), Second(), 32, s, 0x27b70a85, 0x5df4b0c4, 0x0bfba73c, 0x8b99e3a9);
    s := NextRound(Middle(), Second(), 33, s, 0x2e1b2138, 0xe257036a, 0x4bd1df96, 0x905e44ac);
    s := NextRound(Middle(), Second(), 34, s, 0x4d2c6dfc, 0xc97bb6f1, 0x9907f1b6, 0x66c3043d);
    s := NextRound(Middle(), Second(), 35, s, 0x53380d13, 0xc5b46f4d, 0xecde4e0d, 0x5dc119e6);
  }

  lemma SecondRounds40() returns (s: State)
    ensures s == State(0x221b8a5a, 0xadca7a96, 0xd949682b, 0x2f11c939, 0x0b82c5eb, 0xc6cce4ff, 0x32d99008, 0xfed4ce1d)
    ensures After(Middle(), Second(), 40, s)
  {
    hide IsWord, Rounds, Second, Middle;
    SecondWords32();
    s := SecondRounds36();
    s := NextRound(Middle(), Second(), 36, s, 0x650a7354, 0xf8253c4e, 0x2f11c939, 0xfed4ce1d);
    s := NextRound(Middle(), Second(), 37, s, 0x766a0abb, 0xa558d189, 0xd949682b, 0x32d99008);
    s := NextRound(Middle(), Second(), 38, s, 0x81c2c92e, 0x78696285, 0xadca7a96, 0xc6cce4ff);
    s := NextRound(Middle(), Second(), 39, s, 0x92722c85, 0xed07117f, 0x221b8a5a, 0x0b82c5eb);
  }

  lemma SecondRounds44() returns (s: State)
    ensures s == State(0xf2ad6322, 0x8300fca2, 0x2c794876, 0x12d97845, 0xcc48c7f3, 0xe0e3457c, 0xff6759ba, 0xe4213ca2)
    ensures After(Middle(), Second(), 44, s)
  {
    hide IsWord, Rounds, Second, Middle;
    SecondWords40();
    s := SecondRounds40();
    s := NextRound(Middle(), Second(), 40, s, 0xa2bfe8a1, 0x107358f6, 0x12d97845, 0xe4213ca2);
    s := NextRound(Middle(), Second(), 41, s, 0xa81a664b, 0x390ae496, 0x2c794876, 0xff6759ba);
    s := NextRound(Middle(), Second(), 42, s, 0xc24b8b70, 0x565010a2, 0x8300fca2, 0xe0e3457c);
    s := NextRound(Middle(), Second(), 43, s, 0xc76c51a3, 0xc51d7d44, 0xf2ad6322, 0xcc48c7f3);
  }

  lemma SecondRounds48() returns (s: State)
    ensures s == State(0xd7354d5b, 0x0b3303a7, 0x104a7db4, 0x0f154e11, 0xaad55b6b, 0xbbe1c39a, 0x5348e8f6, 0x6f9517cb)
    ensures After(Middle(), Second(), 48, s)
  {
    hide IsWord, Rounds, Second, Middle;
    SecondWords40();
    s := SecondRounds44();
    s := NextRound(Middle(), Second(), 44, s, 0xd192e819, 0x9e74c972, 0x0f154e11, 0x6f9517cb);
    s := NextRound(Middle(), Second(), 45, s, 0xd6990624, 0x6614b561, 0x104a7db4, 0x5348e8f6);
    s := NextRound(Middle(), Second(), 46, s, 0xf40e3585, 0x30fc129d, 0x0b3303a7, 0xbbe1c39a);
    s := NextRound(Middle(), Second(), 47, s, 0x106aa070, 0x9ac684a8, 0xd7354d5b, 0xaad55b6b);
  }

  lemma SecondRounds52() returns (s: State)
    ensures s == State(0x1a6bcf6a, 0xd8aabcf9, 0x2748e5ec, 0xb736d7a6, 0xff5e99d0, 0x27844711, 0xd4b58576, 0x68f25260)
    ensures After(Middle(), Second(), 52, s)
  {
    hide IsWord, Rounds, Second, Middle;
    SecondWords48();
    s := SecondRounds48();
    s := NextRound(Middle(), Second(), 48, s, 0x19a4c116, 0x2b658dbd, 0xb736d7a6, 0x68f25260);
    s := NextRound(Middle(), Second(), 49, s, 0x1e376c08, 0xe290f793, 0x2748e5ec, 0xd4b58576);
    s := NextRound(Middle(), Second(), 50, s, 0x2748774c, 0x9eebb24c, 0xd8aabcf9, 0x27844711);
    s := NextRound(Middle(), Second(), 51, s, 0x34b0bcb5, 0x9713b5de, 0x1a6bcf6a, 0xff5e99d0);
  }

  lemma SecondRounds56() returns (s: State)
    ensures s == State(0x92952710, 0xd9f0c115, 0xec02560a, 0x4eca6fa0, 0x226806d6, 0x624150c4, 0x7151df8e, 0x989ed071)
    ensures After(Middle(), Second(), 56, s)
  {
    hide IsWord, Rounds, Second, Middle;
    SecondWords48();
    s := SecondRounds52();
    s := NextRound(Middle(), Second(), 52, s, 0x391c0cb3, 0x41061ab7, 0x4eca6fa0, 0x989ed071);
    s := NextRound(Middle(), Second(), 53, s, 0x4ed8aa4a, 0xe022e23b, 0xec02560a, 0x7151df8e);
    s := NextRound(Middle(), Second(), 54, s, 0x5b9cca4f, 0x0772079e, 0xd9f0c115, 0x624150c4);
    s := NextRound(Middle(), Second(), 55, s, 0x682e6ff3, 0x7de22d9c, 0x92952710, 0x226806d6);
  }

  lemma SecondRounds60() returns (s: State)
    ensures s == State(0x1c4cddd9, 0x286fe5f0, 0x4348eb1f, 0x20d4d0e4, 0xf487a853, 0x54076664, 0xc21eddf9, 0x4e515a4d)
    ensures After(Middle(), Second(), 60, s)
  {
    hide IsWord, Rounds, Second, Middle;
    SecondWords56();
    s := SecondRounds56();
    s := NextRound(Middle(), Second(), 56, s, 0x748f82ee, 0xc8b83778, 0x20d4d0e4, 0x4e515a4d);
    s := NextRound(Middle(), Second(), 57, s, 0x78a5636f, 0x75a79849, 0x4348eb1f, 0xc21eddf9);
    s := NextRound(Middle(), Second(), 58, s, 0x84c87814, 0xd93dbddb, 0x286fe5f0, 0x54076664);
    s := NextRound(Middle(), Second(), 59, s, 0x8cc70208, 0x0a036c9d, 0x1c4cddd9, 0xf487a853);
  }

  lemma SecondRounds64() returns (s: State)
    ensures s == State(0x9ea7148b, 0x908c2123, 0xb25cef29, 0xa9f181dd, 0x2c5c4ed0, 0x9a392956, 0x2aa1bb13, 0x27ccb387)
    ensures After(Middle(), Second(), 64, s)
  {
    hide IsWord, Rounds, Second, Middle;
    SecondWords56();
    s := SecondRounds60();
    s := NextRound(Middle(), Second(), 60, s, 0x90befffa, 0xcb4f6ac6, 0xa9f181dd, 0x27ccb387);
    s := NextRound(Middle(), Second(), 61, s, 0xa4506ceb, 0x823f97e2, 0xb25cef29, 0x2aa1bb13);
    s := NextRound(Middle(), Second(), 62, s, 0xbef9a3f7, 0xea2f2a7a, 0x908c2123, 0x9a392956);
    s := NextRound(Middle(), Second(), 63, s, 0xc67178f2, 0xb9018b52, 0x9ea7148b, 0x2c5c4ed0);
  }

  const HASH := State(0x248d6a61, 0xd20638b8, 0xe5c02693, 0x0c3e6039, 0xa33ce459, 0x64ff2167, 0xf6ecedd4, 0x19db06c1)

  lemma SecondAdded(s: State)
    requires s == State(0x9ea7148b, 0x908c2123, 0xb25cef29, 0xa9f181dd, 0x2c5c4ed0, 0x9a392956, 0x2aa1bb13, 0x27ccb387)
    ensures AddStates(Middle(), s) == HASH
  {
  }

  lemma SecondCompressed()
    ensures Compress(Middle(), Second()) == HASH
  {
    hide Rounds, Second, AddStates;
    var s := SecondRounds64();
    SecondAdded(s);
  }

  lemma HashWords()
    ensures WordBytes(0x248d6a61) == [0x24, 0x8d, 0x6a, 0x61]
    ensures WordBytes(0xd20638b8) == [0xd2, 0x06, 0x38, 0xb8]
    ensures WordBytes(0xe5c02693) == [0xe5, 0xc0, 0x26, 0x93]
    ensures WordBytes(0x0c3e6039) == [0x0c, 0x3e, 0x60, 0x39]
    ensures WordBytes(0xa33ce459) == [0xa3, 0x3c, 0xe4, 0x59]
    ensures WordBytes(0x64ff2167) == [0x64, 0xff, 0x21, 0x67]
    ensures WordBytes(0xf6ecedd4) == [0xf6, 0xec, 0xed, 0xd4]
    ensures WordBytes(0x19db06c1) == [0x19, 0xdb, 0x06, 0xc1]
  {
  }

  lemma LettersState()
    ensures Sha256(Letters()) == StateBytes(HASH)
  {
    hide Compress, StateBytes, First, Second, Letters, Pad;
    PaddedToTwoBlocks();
    var p := First() + Second();
    assert p[..64] == First() && p[64..] == Second();
    OneBlock(INITIAL_STATE, First());
    FirstCompressed();
    SecondCompressed();
  }

  /** The hash is the one the standard's examples give. */
  lemma LettersHash()
    ensures Sha256(Letters()) ==
            [0x24, 0x8d, 0x6a, 0x61] + [0xd2, 0x06, 0x38, 0xb8] + [0xe5, 0xc0, 0x26, 0x93] + [0x0c, 0x3e, 0x60, 0x39] +
            [0xa3, 0x3c, 0xe4, 0x59] + [0x64, 0xff, 0x21, 0x67] + [0xf6, 0xec, 0xed, 0xd4] + [0x19, 0xdb, 0x06, 0xc1]
  {
    hide WordBytes, StateBytes, Sha256, Letters;
    LettersState();
    HashWords();
    EightWords(HASH);
  }
}
