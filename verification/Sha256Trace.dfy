/**
 Evaluating the standard's functions on given blocks, a few words or rounds at a time, and reading
 the result as bytes and as text.
 */
module Sha256Trace {
  import opened HexText
  import opened Sha256Spec

  // ---------------------------------------------------------------- words of a block

  predicate IsWord(block: Bytes, t: nat, w: bv32)
    requires |block| == 64 && t < 64
  {
    Schedule(block, t) == w
  }

  /** Eight words of the schedule, from word t on. */
  predicate Words(block: Bytes, t: nat, a: bv32, b: bv32, c: bv32, d: bv32, e: bv32, f: bv32, g: bv32, h: bv32)
    requires |block| == 64 && t + 8 <= 64
  {
    && IsWord(block, t, a) && IsWord(block, t + 1, b) && IsWord(block, t + 2, c) && IsWord(block, t + 3, d)
    && IsWord(block, t + 4, e) && IsWord(block, t + 5, f) && IsWord(block, t + 6, g) && IsWord(block, t + 7, h)
  }

  lemma FirstWord(block: Bytes, t: nat, b0: bv8, b1: bv8, b2: bv8, b3: bv8, w: bv32)
    requires |block| == 64 && t < 16
    requires block[4 * t] == b0 && block[4 * t + 1] == b1 && block[4 * t + 2] == b2 && block[4 * t + 3] == b3
    requires Word(b0, b1, b2, b3) == w
    ensures IsWord(block, t, w)
  {
    hide Word;
  }

  /** One word further. */
  lemma NextWord(block: Bytes, t: nat, w2: bv32, w7: bv32, w15: bv32, w16: bv32, w: bv32)
    requires |block| == 64 && 16 <= t < 64
    requires IsWord(block, t - 2, w2) && IsWord(block, t - 7, w7)
    requires IsWord(block, t - 15, w15) && IsWord(block, t - 16, w16)
    requires Sum4(SmallSigma1(w2), w7, SmallSigma0(w15), w16) == w
    ensures IsWord(block, t, w)
  {
    hide Sum4, SmallSigma0, SmallSigma1;
  }

  // ---------------------------------------------------------------- rounds

  predicate After(start: State, block: Bytes, t: nat, s: State)
    requires |block| == 64 && t <= 64
  {
    Rounds(start, block, t) == s
  }

  lemma NoRound(s: State, block: Bytes)
    requires |block| == 64
    ensures After(s, block, 0, s)
  {
  }

  /** One round further, by which two of the working variables are new. */
  lemma NextRound(start: State, block: Bytes, t: nat, s: State, k: bv32, w: bv32, a: bv32, e: bv32)
    returns (next: State)
    requires |block| == 64 && t < 64 && After(start, block, t, s) && K(t) == k && IsWord(block, t, w)
    requires Round(s, k, w) == State(a, s.a, s.b, s.c, e, s.e, s.f, s.g)
    ensures next == State(a, s.a, s.b, s.c, e, s.e, s.f, s.g) && After(start, block, t + 1, next)
  {
    hide Round, K, Schedule;
    next := Round(s, k, w);
  }

  // ---------------------------------------------------------------- lengths

  lemma NoDigit(n: nat, unit: nat)
    requires n < unit
    ensures Digit(n, unit) == 0
  {
    assert n / unit == 0;
  }

  lemma DigitIs(n: nat, unit: nat, d: nat, b: bv8)
    requires 0 < unit && (n / unit) % 256 == d && Value(b) == d
    ensures Digit(n, unit) == b
  {
    hide Value;
    BackToByte(b);
  }

  /** The length field of a length of at most two digits. */
  lemma ShortLength(n: nat)
    requires n < 0x1_0000
    ensures LengthField(n) == [0, 0, 0, 0, 0, 0, Digit(n, 0x100), Digit(n, 1)]
  {
    hide Digit;
    NoDigit(n, 0x100_0000_0000_0000);
    NoDigit(n, 0x1_0000_0000_0000);
    NoDigit(n, 0x100_0000_0000);
    NoDigit(n, 0x1_0000_0000);
    NoDigit(n, 0x100_0000);
    NoDigit(n, 0x1_0000);
  }

  // ---------------------------------------------------------------- bytes

  lemma {:induction false} WordsBytesAppend(x: seq<bv32>, y: seq<bv32>)
    ensures WordsBytes(x + y) == WordsBytes(x) + WordsBytes(y)
  {
    hide WordBytes;
    if y == [] {
      assert x + y == x && WordsBytes(y) == [];
    } else {
      assert (x + y)[..|x + y| - 1] == x + y[..|y| - 1];
      WordsBytesAppend(x, y[..|y| - 1]);
    }
  }

  lemma OneWord(w: bv32)
    ensures WordsBytes([w]) == WordBytes(w)
  {
    hide WordBytes;
    assert [w][..0] == [] && WordsBytes([w][..0]) == [];
  }

  lemma FourWords(a: bv32, b: bv32, c: bv32, d: bv32)
    ensures WordsBytes([a, b, c, d]) == WordBytes(a) + WordBytes(b) + WordBytes(c) + WordBytes(d)
  {
    hide WordBytes, WordsBytes;
    OneWord(a);
    OneWord(b);
    OneWord(c);
    OneWord(d);
    WordsBytesAppend([a], [b]);
    WordsBytesAppend([a, b], [c]);
    WordsBytesAppend([a, b, c], [d]);
    assert [a] + [b] == [a, b] && [a, b] + [c] == [a, b, c] && [a, b, c] + [d] == [a, b, c, d];
  }

  lemma EightWords(s: State)
    ensures StateBytes(s)
         == WordBytes(s.a) + WordBytes(s.b) + WordBytes(s.c) + WordBytes(s.d)
          + WordBytes(s.e) + WordBytes(s.f) + WordBytes(s.g) + WordBytes(s.h)
  {
    hide WordBytes, WordsBytes;
    FourWords(s.a, s.b, s.c, s.d);
    FourWords(s.e, s.f, s.g, s.h);
    WordsBytesAppend([s.a, s.b, s.c, s.d], [s.e, s.f, s.g, s.h]);
    assert [s.a, s.b, s.c, s.d] + [s.e, s.f, s.g, s.h] == StateWords(s);
    Regroup(WordBytes(s.a) + WordBytes(s.b) + WordBytes(s.c) + WordBytes(s.d),
            WordBytes(s.e), WordBytes(s.f), WordBytes(s.g), WordBytes(s.h));
  }

  lemma Regroup(x: Bytes, a: Bytes, b: Bytes, c: Bytes, d: Bytes)
    ensures x + (a + b + c + d) == x + a + b + c + d
  {
  }

  // ---------------------------------------------------------------- text

  lemma {:induction false} TextAppend(x: Bytes, y: Bytes)
    ensures Text(x + y) == Text(x) + Text(y)
  {
    hide ByteText;
    if y == [] {
      assert x + y == x && Text(y) == [];
    } else {
      assert (x + y)[..|x + y| - 1] == x + y[..|y| - 1];
      TextAppend(x, y[..|y| - 1]);
    }
  }

  lemma TextOfByte(b: bv8, n: nat)
    requires n < 256 && Value(b) == n
    ensures Text([b]) == [DIGITS[n / 16], DIGITS[n % 16]]
  {
    hide Value, Fill, Shortest;
    TwoDigits(n);
    assert [b][..0] == [] && Text([b][..0]) == [];
  }

  lemma TextOfFour(b0: bv8, b1: bv8, b2: bv8, b3: bv8, n0: nat, n1: nat, n2: nat, n3: nat)
    requires n0 < 256 && n1 < 256 && n2 < 256 && n3 < 256
    requires Value(b0) == n0 && Value(b1) == n1 && Value(b2) == n2 && Value(b3) == n3
    ensures Text([b0, b1, b2, b3])
         == [DIGITS[n0 / 16], DIGITS[n0 % 16], DIGITS[n1 / 16], DIGITS[n1 % 16],
             DIGITS[n2 / 16], DIGITS[n2 % 16], DIGITS[n3 / 16], DIGITS[n3 % 16]]
  {
    hide Value, Text;
    TextOfByte(b0, n0);
    TextOfByte(b1, n1);
    TextOfByte(b2, n2);
    TextOfByte(b3, n3);
    TextAppend([b0], [b1]);
    TextAppend([b0, b1], [b2]);
    TextAppend([b0, b1, b2], [b3]);
    assert [b0] + [b1] == [b0, b1] && [b0, b1] + [b2] == [b0, b1, b2] && [b0, b1, b2] + [b3] == [b0, b1, b2, b3];
  }

  lemma TextOfEight(a: Bytes, b: Bytes, c: Bytes, d: Bytes, e: Bytes, f: Bytes, g: Bytes, h: Bytes)
    ensures Text(a + b + c + d + e + f + g + h)
         == Text(a) + Text(b) + Text(c) + Text(d) + Text(e) + Text(f) + Text(g) + Text(h)
  {
    hide Text;
    TextAppend(a, b);
    TextAppend(a + b, c);
    TextAppend(a + b + c, d);
    TextAppend(a + b + c + d, e);
    TextAppend(a + b + c + d + e, f);
    TextAppend(a + b + c + d + e + f, g);
    TextAppend(a + b + c + d + e + f + g, h);
  }

  lemma OneBlock(s: State, m: Bytes)
    requires |m| == 64
    ensures Blocks(s, m) == Compress(s, m)
  {
    hide Compress;
    assert m[..0] == [] && m[0..] == m;
    assert Blocks(s, m[..0]) == s;
  }
}
