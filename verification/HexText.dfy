/**
 The text form of a digest: a stream set to hexadecimal with fill '0' prints every byte with
 width two. The text can be read back.
 */
module HexText {
  const DIGITS := "0123456789abcdef"

  /** What a stream in hexadecimal prints for a number: the fewest digits. */
  function Shortest(n: nat): (s: string)
    ensures 0 < |s|
    ensures forall i :: 0 <= i < |s| ==> s[i] in DIGITS
  {
    if n < 16 then [DIGITS[n]] else Shortest(n / 16) + [DIGITS[n % 16]]
  }

  /** A field of at least the given width, filled from the left. */
  function Fill(s: string, width: nat): string {
    seq(if |s| < width then width - |s| else 0, _ => '0') + s
  }

  function Value(b: bv8): nat {
    b as nat
  }

  function ByteOf(n: nat): bv8 {
    if n < 256 then n as bv8 else 0
  }

  function ByteText(b: bv8): string {
    Fill(Shortest(Value(b)), 2)
  }

  function Text(b: seq<bv8>): string {
    if b == [] then [] else Text(b[..|b| - 1]) + ByteText(b[|b| - 1])
  }

  /** The value of a digit of DIGITS; 16 for any other character. */
  function DigitValue(c: char): nat {
    if '0' <= c <= '9' then (c - '0') as nat
    else if 'a' <= c <= 'f' then (c - 'a') as nat + 10
    else 16
  }

  function PairByte(high: char, low: char): bv8 {
    ByteOf(16 * DigitValue(high) + DigitValue(low))
  }

  /** Reads a text of digit pairs. */
  function Parse(s: string): seq<bv8>
    requires |s| % 2 == 0
  {
    if s == [] then [] else Parse(s[..|s| - 2]) + [PairByte(s[|s| - 2], s[|s| - 1])]
  }

  lemma DigitRoundTrip(d: nat)
    requires d < 16
    ensures DigitValue(DIGITS[d]) == d
  {
  }

  lemma TwoDigits(n: nat)
    requires n < 256
    ensures Fill(Shortest(n), 2) == [DIGITS[n / 16], DIGITS[n % 16]]
  {
    if n < 16 {
      assert Shortest(n) == [DIGITS[n]];
    } else {
      assert Shortest(n / 16) == [DIGITS[n / 16]];
    }
  }

  lemma BackToByte(b: bv8)
    ensures ByteOf(Value(b)) == b && Value(b) < 256
  {
  }

  /** A byte is printed as two digits, from which it can be read. */
  lemma ByteRoundTrip(b: bv8)
    ensures var t := ByteText(b);
            |t| == 2 && t[0] in DIGITS && t[1] in DIGITS && PairByte(t[0], t[1]) == b
  {
    hide Fill, Shortest, DigitValue, Value, ByteOf;
    BackToByte(b);
    var n := Value(b);
    TwoDigits(n);
    DigitRoundTrip(n / 16);
    DigitRoundTrip(n % 16);
  }

  lemma ParseAppend(s: string, pair: string)
    requires |s| % 2 == 0 && |pair| == 2
    ensures Parse(s + pair) == Parse(s) + [PairByte(pair[0], pair[1])]
  {
    hide PairByte;
    assert (s + pair)[..|s|] == s;
  }

  /** The text is two lower-case digits per byte. */
  lemma {:induction false} TextShape(b: seq<bv8>)
    ensures |Text(b)| == 2 * |b|
    ensures forall i :: 0 <= i < |Text(b)| ==> Text(b)[i] in DIGITS
  {
    hide ByteText, PairByte;
    if b != [] {
      TextShape(b[..|b| - 1]);
      ByteRoundTrip(b[|b| - 1]);
    }
  }

  /** Reading the text gives the bytes back. */
  lemma {:induction false} TextRoundTrip(b: seq<bv8>)
    ensures |Text(b)| == 2 * |b|
    ensures Parse(Text(b)) == b
  {
    hide ByteText, PairByte, Parse;
    TextShape(b);
    if b != [] {
      var front, last := b[..|b| - 1], b[|b| - 1];
      TextRoundTrip(front);
      ByteRoundTrip(last);
      ParseAppend(Text(front), ByteText(last));
    } else {
      ParseEmpty();
    }
  }

  lemma ParseEmpty()
    ensures Parse([]) == []
  {
  }

  /** Equal texts mean equal bytes: comparing hash texts is comparing hashes. */
  lemma TextInjective(x: seq<bv8>, y: seq<bv8>)
    requires Text(x) == Text(y)
    ensures x == y
  {
    TextRoundTrip(x);
    TextRoundTrip(y);
  }
}
