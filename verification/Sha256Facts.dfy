/**
 What the standard's functions in Sha256Spec mean: the constants are the prime roots they are
 said to be, the padding is the shortest one that fits and loses nothing, and the words of a hash
 can be read back from its bytes.
 */
module Sha256Facts {
  import opened HexText
  import opened Sha256Spec

  // ---------------------------------------------------------------- constants

  /** The first sixty-four primes, in rows of eight. */
  const PRIME_ROWS: seq<seq<nat>> := [
    [2, 3, 5, 7, 11, 13, 17, 19],
    [23, 29, 31, 37, 41, 43, 47, 53],
    [59, 61, 67, 71, 73, 79, 83, 89],
    [97, 101, 103, 107, 109, 113, 127, 131],
    [137, 139, 149, 151, 157, 163, 167, 173],
    [179, 181, 191, 193, 197, 199, 211, 223],
    [227, 229, 233, 239, 241, 251, 257, 263],
    [269, 271, 277, 281, 283, 293, 307, 311]
  ]

  function Prime(i: nat): nat
    requires i < 64
  {
    PRIME_ROWS[i / 8][i % 8]
  }

  predicate IsPrime(n: nat) {
    2 <= n && forall d :: 2 <= d < n ==> n % d != 0
  }

  /** None of 2 to 17 divides n, but perhaps n itself. */
  predicate NoSmallDivisor(n: nat) {
    && (n % 2 != 0 || n <= 2) && (n % 3 != 0 || n <= 3) && (n % 4 != 0 || n <= 4) && (n % 5 != 0 || n <= 5)
    && (n % 6 != 0 || n <= 6) && (n % 7 != 0 || n <= 7) && (n % 8 != 0 || n <= 8) && (n % 9 != 0 || n <= 9)
    && (n % 10 != 0 || n <= 10) && (n % 11 != 0 || n <= 11) && (n % 12 != 0 || n <= 12) && (n % 13 != 0 || n <= 13)
    && (n % 14 != 0 || n <= 14) && (n % 15 != 0 || n <= 15) && (n % 16 != 0 || n <= 16) && (n % 17 != 0 || n <= 17)
  }

  lemma SmallDivisor(n: nat, d: nat)
    requires NoSmallDivisor(n) && 2 <= d < 18 && d < n
    ensures n % d != 0
  {
  }

  lemma TimesAtLeast(q: nat, t: nat)
    requires 1 <= t
    ensures q <= q * t
  {
  }

  lemma MultipleIsDivisible(q: nat, d: nat)
    requires 0 < q
    ensures (q * d) % q == 0
  {
    var m, r := (q * d) / q, (q * d) % q;
    assert q * (d - m) == r;
    if 1 <= d - m {
      TimesAtLeast(q, d - m);
    } else if 1 <= m - d {
      TimesAtLeast(q, m - d);
    }
  }

  lemma ExactQuotient(n: nat, d: nat) returns (q: nat)
    requires 0 < d && n % d == 0
    ensures q == n / d && n == q * d
  {
    q := n / d;
  }

  lemma AtLeastEighteen(q: nat, d: nat)
    requires 18 <= d
    ensures 18 * q <= q * d
  {
    TimesAtLeast(q, d - 17);
    assert q * (d - 17) == q * d - 17 * q;
  }

  lemma QuotientIsProper(q: nat, d: nat, n: nat)
    requires n == q * d && 2 <= n && 18 <= d < n && 18 * q <= q * d
    ensures 2 <= q < n
  {
  }

  lemma QuotientDivides(q: nat, d: nat, n: nat)
    requires n == q * d && 0 < q
    ensures n % q == 0
  {
    MultipleIsDivisible(q, d);
  }

  /** A large divisor of a number below 18 * 18 has a small one beside it. */
  lemma SmallCofactor(n: nat, d: nat) returns (q: nat)
    requires 2 <= n < 324 && 18 <= d < n && n % d == 0
    ensures 2 <= q < 18 && q < n && n % q == 0
  {
    q := ExactQuotient(n, d);
    AtLeastEighteen(q, d);
    QuotientIsProper(q, d, n);
    QuotientDivides(q, d, n);
  }

  lemma NoSmallDivisorIsPrime(n: nat)
    requires 2 <= n < 324 && NoSmallDivisor(n)
    ensures IsPrime(n)
  {
    hide NoSmallDivisor;
    forall d | 2 <= d < n
      ensures n % d != 0
    {
      if d < 18 {
        SmallDivisor(n, d);
      } else if n % d == 0 {
        var q := SmallCofactor(n, d);
        SmallDivisor(n, q);
      }
    }
  }

  /** The table's entries have no small divisors, in both halves. */
  lemma FirstEntries(r: nat, j: nat)
    requires r < 4 && j < 8
    ensures 2 <= PRIME_ROWS[r][j] < 312 && NoSmallDivisor(PRIME_ROWS[r][j])
  {
  }

  lemma LastEntries(r: nat, j: nat)
    requires 4 <= r < 8 && j < 8
    ensures 2 <= PRIME_ROWS[r][j] < 312 && NoSmallDivisor(PRIME_ROWS[r][j])
  {
  }

  lemma EntryIsPrime(i: nat)
    requires i < 64
    ensures Prime(i) < 312 && IsPrime(Prime(i))
  {
    hide NoSmallDivisor, IsPrime;
    if i < 32 {
      FirstEntries(i / 8, i % 8);
    } else {
      LastEntries(i / 8, i % 8);
    }
    NoSmallDivisorIsPrime(Prime(i));
  }

  /** The remainders by 30 of the numbers that 2, 3 and 5 do not divide. */
  const WHEEL: seq<nat> := [1, 7, 11, 13, 17, 19, 23, 29]

  lemma OnWheel(n: nat)
    requires n % 2 != 0 && n % 3 != 0 && n % 5 != 0
    ensures n % 30 in WHEEL
  {
    var q, r := n / 30, n % 30;
    RemainderBy2(q, r);
    RemainderBy3(q, r);
    RemainderBy5(q, r);
    RemainderOnWheel(r);
  }

  lemma RemainderBy2(q: nat, r: nat)
    ensures (30 * q + r) % 2 == r % 2
  {
  }

  lemma RemainderBy3(q: nat, r: nat)
    ensures (30 * q + r) % 3 == r % 3
  {
  }

  lemma RemainderBy5(q: nat, r: nat)
    ensures (30 * q + r) % 5 == r % 5
  {
  }

  lemma RemainderOnWheel(r: nat)
    requires r < 30 && r % 2 != 0 && r % 3 != 0 && r % 5 != 0
    ensures r in WHEEL
  {
  }

  predicate IsListed(n: nat) {
    || n in PRIME_ROWS[0] || n in PRIME_ROWS[1] || n in PRIME_ROWS[2] || n in PRIME_ROWS[3]
    || n in PRIME_ROWS[4] || n in PRIME_ROWS[5] || n in PRIME_ROWS[6] || n in PRIME_ROWS[7]
  }

  /** Every number on the wheel is divided by one of 7 to 17 or is in the table. */
  lemma WheelIsListed(q: nat, i: nat)
    requires q < 11 && i < 8 && 1 < 30 * q + WHEEL[i] < 312
    ensures var n := 30 * q + WHEEL[i];
            n % 7 == 0 || n % 11 == 0 || n % 13 == 0 || n % 17 == 0 || IsListed(n)
  {
  }

  lemma PrimeIsListed(n: nat)
    requires n < 312 && IsPrime(n)
    ensures IsListed(n)
  {
    if n !in [2, 3, 5, 7, 11, 13, 17] {
      NoneDivides(n);
      hide IsPrime, IsListed;
      OnWheel(n);
      var i :| 0 <= i < 8 && WHEEL[i] == n % 30;
      WheelIsListed(n / 30, i);
    }
  }

  lemma NoneDivides(n: nat)
    requires IsPrime(n) && n !in [2, 3, 5, 7, 11, 13, 17]
    ensures n % 2 != 0 && n % 3 != 0 && n % 5 != 0 && n % 7 != 0 && n % 11 != 0 && n % 13 != 0 && n % 17 != 0
  {
    forall p | p in [2, 3, 5, 7, 11, 13, 17]
      ensures n % p != 0
    {
      if n < p {
        SmallPrimes(n);
      }
    }
  }

  lemma SmallPrimes(n: nat)
    requires IsPrime(n) && n < 17
    ensures n in [2, 3, 5, 7, 11, 13]
  {
    assert n % 2 != 0 || n == 2;
    assert n % 3 != 0 || n == 3;
  }

  lemma EntryHasIndex(r: nat, n: nat)
    requires r < 8
    ensures n in PRIME_ROWS[r] ==> exists i :: 0 <= i < 64 && Prime(i) == n
  {
    if n in PRIME_ROWS[r] {
      RowOfEight(r);
      var j :| 0 <= j < 8 && PRIME_ROWS[r][j] == n;
      IndexOf(r, j);
    }
  }

  lemma RowOfEight(r: nat)
    requires r < 8
    ensures |PRIME_ROWS[r]| == 8
  {
  }

  lemma IndexOf(r: nat, j: nat)
    requires r < 8 && j < 8
    ensures 8 * r + j < 64 && Prime(8 * r + j) == PRIME_ROWS[r][j]
  {
    assert (8 * r + j) / 8 == r && (8 * r + j) % 8 == j;
  }

  lemma ListedHasIndex(n: nat)
    requires IsListed(n)
    ensures exists i :: 0 <= i < 64 && Prime(i) == n
  {
    hide Prime;
    EntryHasIndex(0, n);
    EntryHasIndex(1, n);
    EntryHasIndex(2, n);
    EntryHasIndex(3, n);
    EntryHasIndex(4, n);
    EntryHasIndex(5, n);
    EntryHasIndex(6, n);
    EntryHasIndex(7, n);
  }

  lemma Ascends(i: nat)
    requires i < 63
    ensures Prime(i) < Prime(i + 1)
  {
    var r, j := i / 8, i % 8;
    RowAscends(r);
    if j == 7 {
      assert (i + 1) / 8 == r + 1 && (i + 1) % 8 == 0;
    } else {
      assert (i + 1) / 8 == r && (i + 1) % 8 == j + 1;
    }
  }

  lemma RowAscends(r: nat)
    requires r < 8
    ensures var l := PRIME_ROWS[r]; l[0] < l[1] < l[2] < l[3] < l[4] < l[5] < l[6] < l[7]
    ensures r < 7 ==> PRIME_ROWS[r][7] < PRIME_ROWS[r + 1][0]
  {
  }

  /** The table lists the first sixty-four primes in order: exactly those below 312. */
  lemma {:induction false} PrimesAreListed(n: nat)
    requires n < 312
    ensures IsPrime(n) <==> exists i :: 0 <= i < 64 && Prime(i) == n
    ensures forall i :: 0 <= i < 63 ==> Prime(i) < Prime(i + 1)
  {
    hide IsPrime, IsListed, Prime;
    if IsPrime(n) {
      PrimeIsListed(n);
      ListedHasIndex(n);
    }
    forall i | 0 <= i < 64
      ensures IsPrime(Prime(i))
    {
      EntryIsPrime(i);
    }
    forall i | 0 <= i < 63
      ensures Prime(i) < Prime(i + 1)
    {
      Ascends(i);
    }
  }

  /** w is the first 32 bits of the fractional part of the cube root of p. */
  predicate IsCubeRootFraction(p: nat, whole: nat, w: nat) {
    && w < 0x1_0000_0000
    && var r := whole * 0x1_0000_0000 + w;
    && r * r * r <= p * 0x1_0000_0000_0000_0000_0000_0000
    && p * 0x1_0000_0000_0000_0000_0000_0000 < (r + 1) * (r + 1) * (r + 1)
  }

  /** w is the first 32 bits of the fractional part of the square root of p. */
  predicate IsSquareRootFraction(p: nat, whole: nat, w: nat) {
    && w < 0x1_0000_0000
    && var r := whole * 0x1_0000_0000 + w;
    && r * r <= p * 0x1_0000_0000_0000_0000
    && p * 0x1_0000_0000_0000_0000 < (r + 1) * (r + 1)
  }

  /** The whole part of the cube root of a number below 7^3. */
  function WholeCubeRoot(p: nat): (r: nat)
    requires p < 343
    ensures r * r * r <= p < (r + 1) * (r + 1) * (r + 1)
  {
    if p < 1 then 0 else if p < 8 then 1 else if p < 27 then 2 else if p < 64 then 3
    else if p < 125 then 4 else if p < 216 then 5 else 6
  }

  /** The whole part of the square root of a number below 5^2. */
  function WholeSquareRoot(p: nat): (r: nat)
    requires p < 25
    ensures r * r <= p < (r + 1) * (r + 1)
  {
    if p < 1 then 0 else if p < 4 then 1 else if p < 9 then 2 else if p < 16 then 3 else 4
  }

  /** Entry j of row r of the constants is the cube-root fraction of that entry of the primes. */
  predicate RootAt(r: nat, j: nat)
    requires r < 8 && j < 8
  {
    PRIME_ROWS[r][j] < 343 &&
    IsCubeRootFraction(PRIME_ROWS[r][j], WholeCubeRoot(PRIME_ROWS[r][j]), K_ROWS[r][j] as nat)
  }

  lemma RootsOfRow0(j: nat)
    requires j < 8
    ensures RootAt(0, j)
  {
  }

  lemma RootsOfRow1(j: nat)
    requires j < 8
    ensures RootAt(1, j)
  {
  }

  lemma RootsOfRow2(j: nat)
    requires j < 8
    ensures RootAt(2, j)
  {
  }

  lemma RootsOfRow3(j: nat)
    requires j < 8
    ensures RootAt(3, j)
  {
  }

  lemma RootsOfRow4(j: nat)
    requires j < 8
    ensures RootAt(4, j)
  {
  }

  lemma RootsOfRow5(j: nat)
    requires j < 8
    ensures RootAt(5, j)
  {
  }

  lemma RootsOfRow6(j: nat)
    requires j < 8
    ensures RootAt(6, j)
  {
  }

  lemma RootsOfRow7(j: nat)
    requires j < 8
    ensures RootAt(7, j)
  {
  }

  /** Section 4.2.2: every round constant is the cube-root fraction of its prime. */
  lemma RoundConstantsAreCubeRoots(i: nat)
    requires i < 64
    ensures Prime(i) < 343
    ensures IsCubeRootFraction(Prime(i), WholeCubeRoot(Prime(i)), K(i) as nat)
  {
    hide IsCubeRootFraction, WholeCubeRoot;
    RootsOfRow(i / 8, i % 8);
  }

  lemma RootsOfRow(r: nat, j: nat)
    requires r < 8 && j < 8
    ensures RootAt(r, j)
  {
    hide RootAt;
    match r {
      case 0 => RootsOfRow0(j);
      case 1 => RootsOfRow1(j);
      case 2 => RootsOfRow2(j);
      case 3 => RootsOfRow3(j);
      case 4 => RootsOfRow4(j);
      case 5 => RootsOfRow5(j);
      case 6 => RootsOfRow6(j);
      case _ => RootsOfRow7(j);
    }
  }

  lemma FirstInitialWords(i: nat)
    requires i < 4
    ensures Prime(i) < 25
    ensures IsSquareRootFraction(Prime(i), WholeSquareRoot(Prime(i)), H0[i] as nat)
  {
  }

  lemma LastInitialWords(i: nat)
    requires 4 <= i < 8
    ensures Prime(i) < 25
    ensures IsSquareRootFraction(Prime(i), WholeSquareRoot(Prime(i)), H0[i] as nat)
  {
  }

  /** Section 5.3.3: every initial word is the square-root fraction of its prime. */
  lemma InitialWordsAreSquareRoots(i: nat)
    requires i < 8
    ensures Prime(i) < 25
    ensures IsSquareRootFraction(Prime(i), WholeSquareRoot(Prime(i)), H0[i] as nat)
  {
    hide IsSquareRootFraction, WholeSquareRoot, Prime;
    if i < 4 {
      FirstInitialWords(i);
    } else {
      LastInitialWords(i);
    }
  }

  // ---------------------------------------------------------------- padding

  /**
   Section 5.1.1 asks for the smallest k with l + 1 + k congruent to 448 modulo 512, l being the
   length in bits. Seven of those zero bits are in the byte 0x80, the others in whole bytes.
   */
  lemma PaddingIsShortest(n: nat, k: nat)
    ensures var shortest := 7 + 8 * ZeroCount(n);
            && (8 * n + 1 + shortest) % 512 == 448
            && ((8 * n + 1 + k) % 512 == 448 ==> shortest <= k)
  {
    var z := ZeroCount(n);
    var q := (n + 1 + z) / 64;
    assert n + 1 + z == 64 * q + 56;
    assert 8 * n + 1 + (7 + 8 * z) == 512 * q + 448;
    if (8 * n + 1 + k) % 512 == 448 {
      var p := (8 * n + 1 + k) / 512;
      assert 8 * n + 1 + k == 512 * p + 448;
      assert k - (7 + 8 * z) == 512 * (p - q);
    }
  }

  /** The number whose base-256 digits are the given bytes, most significant first. */
  function FromBytes(b: Bytes): nat {
    if b == [] then 0 else 256 * FromBytes(b[..|b| - 1]) + b[|b| - 1] as nat
  }

  lemma NextByte(b: bv8)
    ensures if b == 255 then Value(b) == 255 else Value(b + 1) == Value(b) + 1
  {
  }

  lemma {:induction false} ByteWithValue(n: nat) returns (b: bv8)
    requires n < 256
    ensures Value(b) == n
  {
    if n == 0 {
      b := 0;
    } else {
      hide Value;
      b := ByteWithValue(n - 1);
      NextByte(b);
      b := b + 1;
    }
  }

  /** Every number below 256 is the value of its byte. */
  lemma ByteValue(n: nat)
    requires n < 256
    ensures Value(ByteOf(n)) == n
  {
    hide Value, ByteOf;
    var b := ByteWithValue(n);
    BackToByte(b);
  }

  /** Appending the next digit of l to the digits before it. */
  lemma NextDigit(l: nat, unit: nat, before: Bytes)
    requires 0 < unit && FromBytes(before) == (l / unit) / 256
    ensures FromBytes(before + [Digit(l, unit)]) == l / unit
  {
    var q := l / unit;
    var all := before + [Digit(l, unit)];
    assert all[..|all| - 1] == before;
    ByteValue(q % 256);
  }

  lemma FirstDigit(l: nat) returns (b: Bytes)
    requires l < TWO_TO_64
    ensures b == [Digit(l, 0x100_0000_0000_0000)]
    ensures FromBytes(b) == l / 0x100_0000_0000_0000
  {
    NextDigit(l, 0x100_0000_0000_0000, []);
    b := [] + [Digit(l, 0x100_0000_0000_0000)];
  }

  lemma NestedDivisions(l: nat)
    ensures (l / 0x1_0000_0000_0000) / 256 == l / 0x100_0000_0000_0000
    ensures (l / 0x100_0000_0000) / 256 == l / 0x1_0000_0000_0000
    ensures (l / 0x1_0000_0000) / 256 == l / 0x100_0000_0000
    ensures (l / 0x100_0000) / 256 == l / 0x1_0000_0000
    ensures (l / 0x1_0000) / 256 == l / 0x100_0000
    ensures (l / 0x100) / 256 == l / 0x1_0000
  {
  }

  /** The length field holds the length: nothing of a 64-bit number is lost. */
  lemma LengthFieldHoldsLength(l: nat)
    requires l < TWO_TO_64
    ensures FromBytes(LengthField(l)) == l
  {
    hide Digit, FromBytes;
    NestedDivisions(l);
    var b := FirstDigit(l);
    NextDigit(l, 0x1_0000_0000_0000, b);
    b := b + [Digit(l, 0x1_0000_0000_0000)];
    NextDigit(l, 0x100_0000_0000, b);
    b := b + [Digit(l, 0x100_0000_0000)];
    NextDigit(l, 0x1_0000_0000, b);
    b := b + [Digit(l, 0x1_0000_0000)];
    NextDigit(l, 0x100_0000, b);
    b := b + [Digit(l, 0x100_0000)];
    NextDigit(l, 0x1_0000, b);
    b := b + [Digit(l, 0x1_0000)];
    NextDigit(l, 0x100, b);
    b := b + [Digit(l, 0x100)];
    NextDigit(l, 1, b);
    assert LengthField(l) == b + [Digit(l, 1)];
  }

  /** The padding is injective: the padded message determines the message. */
  lemma PadInjective(m1: Bytes, m2: Bytes)
    requires 8 * |m1| < TWO_TO_64 && 8 * |m2| < TWO_TO_64 && Pad(m1) == Pad(m2)
    ensures m1 == m2
  {
    hide LengthField, Zeros, Digit;
    var p := Pad(m1);
    assert p[|p| - 8..] == LengthField(8 * |m1|);
    assert p[|p| - 8..] == LengthField(8 * |m2|);
    LengthFieldHoldsLength(8 * |m1|);
    LengthFieldHoldsLength(8 * |m2|);
    assert p[..|m1|] == m1 && p[..|m2|] == m2;
  }

  // ---------------------------------------------------------------- words and bytes

  /** Reads words back from bytes. */
  function WordsOf(b: Bytes): (r: seq<bv32>)
    requires |b| % 4 == 0
  {
    if b == [] then [] else
      var n := |b|;
      WordsOf(b[..n - 4]) + [Word(b[n - 4], b[n - 3], b[n - 2], b[n - 1])]
  }

  lemma BytesIdentity(w: bv32)
    ensures ((((w >> 24) & 0xff) as bv8) as bv32 << 24) | ((((w >> 16) & 0xff) as bv8) as bv32 << 16)
          | ((((w >> 8) & 0xff) as bv8) as bv32 << 8) | (((w & 0xff) as bv8) as bv32) == w
  {
  }

  lemma WordRoundTrip(w: bv32)
    ensures Word(WordByte(w, 0), WordByte(w, 1), WordByte(w, 2), WordByte(w, 3)) == w
  {
    BytesIdentity(w);
  }

  /** The words of a hash can be read back from its bytes. */
  lemma {:induction false} WordsRoundTrip(ws: seq<bv32>)
    ensures WordsOf(WordsBytes(ws)) == ws
  {
    hide Word, WordByte;
    if ws != [] {
      var front, w := ws[..|ws| - 1], ws[|ws| - 1];
      WordsRoundTrip(front);
      WordRoundTrip(w);
      var b := WordsBytes(ws);
      assert b[..|b| - 4] == WordsBytes(front) && b[|b| - 4..] == WordBytes(w);
    }
  }

  /** Different hash values have different bytes. */
  lemma StateBytesInjective(x: State, y: State)
    requires StateBytes(x) == StateBytes(y)
    ensures x == y
  {
    WordsRoundTrip(StateWords(x));
    WordsRoundTrip(StateWords(y));
    assert StateWords(x) == StateWords(y);
    forall i | 0 <= i < 8
      ensures StateWords(x)[i] == StateWords(y)[i]
    {
    }
  }
}
