/**
 The program's SHA-256 object: a 64-byte buffer with a fill count, a 64-bit counter of the bits
 already compressed, and eight state words, fed any number of times and then finalised in place.
 Every method is proved against Sha256Spec.
 */
module Sha256 {
  import opened Sha256Spec
  import opened Sha256Words
  import opened HexText

  // ---------------------------------------------------------------- views of arrays

  function ToState(s: seq<bv32>): State
    requires |s| == 8
  {
    State(s[0], s[1], s[2], s[3], s[4], s[5], s[6], s[7])
  }

  lemma {:induction false} WordsBytesAt(ws: seq<bv32>, n: nat)
    requires n < 4 * |ws|
    ensures WordsBytes(ws)[n] == WordByte(ws[n / 4], n % 4)
  {
    hide WordByte;
    if n < 4 * (|ws| - 1) {
      WordsBytesAt(ws[..|ws| - 1], n);
    }
  }

  // ---------------------------------------------------------------- blocks of a growing message

  /**
   What a half-filled object stands for: the state is the hash of the whole blocks of the bytes
   fed, the tail is what is left of them, and the counter holds the compressed bits modulo 2^64.
   */
  ghost predicate Represents(fed: Bytes, tail: Bytes, bits: nat, st: State) {
    && |tail| < 64 && |tail| <= |fed|
    && var full := |fed| - |tail|;
    && full % 64 == 0
    && fed[full..] == tail
    && bits == 8 * full % TWO_TO_64
    && st == Blocks(INITIAL_STATE, fed[..full])
  }

  lemma CounterAdvances(full: nat)
    ensures (8 * full % TWO_TO_64 + 512) % TWO_TO_64 == 8 * (full + 64) % TWO_TO_64
  {
  }

  lemma BlocksAppend(s: State, m: Bytes, block: Bytes)
    requires |m| % 64 == 0 && |block| == 64
    ensures |m + block| % 64 == 0
    ensures Blocks(s, m + block) == Compress(Blocks(s, m), block)
  {
    var all := m + block;
    assert all[..|all| - 64] == m && all[|all| - 64..] == block;
  }

  lemma PutInside(fed: Bytes, tail: Bytes, bits: nat, st: State, b: bv8)
    requires Represents(fed, tail, bits, st) && |tail| < 63
    ensures Represents(fed + [b], tail + [b], bits, st)
  {
    hide Blocks;
    var full := |fed| - |tail|;
    assert (fed + [b])[..full] == fed[..full];
    assert (fed + [b])[full..] == tail + [b];
  }

  lemma PutLast(fed: Bytes, tail: Bytes, bits: nat, st: State, b: bv8)
    requires Represents(fed, tail, bits, st) && |tail| == 63
    ensures Represents(fed + [b], [], (bits + 512) % TWO_TO_64, Compress(st, tail + [b]))
  {
    hide Compress;
    var full := |fed| - 63;
    BlocksAppend(INITIAL_STATE, fed[..full], tail + [b]);
    assert fed + [b] == fed[..full] + (tail + [b]);
    assert (fed + [b])[..full + 64] == fed + [b];
    CounterAdvances(full);
  }

  /** The counter at finalisation: compressed bits plus the bits still in the buffer. */
  lemma RepresentsCounter(fed: Bytes, tail: Bytes, bits: nat, st: State)
    requires Represents(fed, tail, bits, st)
    ensures (bits + |tail| * 8) % TWO_TO_64 == 8 * |fed| % TWO_TO_64
  {
    hide Blocks;
    CounterFinal(|fed| - |tail|, |tail|);
  }

  lemma CounterFinal(full: nat, rest: nat)
    ensures (8 * full % TWO_TO_64 + rest * 8) % TWO_TO_64 == 8 * (full + rest) % TWO_TO_64
  {
  }

  /** With room for the length, the padding completes the block being filled. */
  lemma PadInOneBlock(fed: Bytes, tail: Bytes, bits: nat, st: State, l: nat)
    requires Represents(fed, tail, bits, st) && |tail| < 56
    ensures Blocks(INITIAL_STATE, PadWithLength(fed, l))
         == Compress(st, tail + [0x80] + Zeros(55 - |tail|) + LengthField(l))
  {
    hide Compress, LengthField;
    var whole := fed[..|fed| - |tail|];
    var block := tail + [0x80] + Zeros(55 - |tail|) + LengthField(l);
    assert ZeroCount(|fed|) == 55 - |tail|;
    assert PadWithLength(fed, l) == whole + block by {
      assert fed == whole + tail;
    }
    BlocksAppend(INITIAL_STATE, whole, block);
  }

  lemma ZerosSplit(m: nat, n: nat)
    ensures Zeros(m + n) == Zeros(m) + Zeros(n)
  {
  }

  lemma Regroup(a: Bytes, b: Bytes, c: Bytes, d: Bytes, e: Bytes, f: Bytes)
    ensures (a + b) + c + (d + e) + f == a + (b + c + d) + (e + f)
  {
  }

  /** Without room, it completes that block and adds one more. */
  lemma PadInTwoBlocks(fed: Bytes, tail: Bytes, bits: nat, st: State, l: nat)
    requires Represents(fed, tail, bits, st) && 56 <= |tail|
    ensures Blocks(INITIAL_STATE, PadWithLength(fed, l))
         == Compress(Compress(st, tail + [0x80] + Zeros(63 - |tail|)), Zeros(56) + LengthField(l))
  {
    hide Compress, LengthField, Zeros;
    var whole := fed[..|fed| - |tail|];
    var first := tail + [0x80] + Zeros(63 - |tail|);
    var second := Zeros(56) + LengthField(l);
    assert ZeroCount(|fed|) == 63 - |tail| + 56;
    assert PadWithLength(fed, l) == whole + first + second by {
      assert fed == whole + tail;
      ZerosSplit(63 - |tail|, 56);
      Regroup(whole, tail, [0x80], Zeros(63 - |tail|), Zeros(56), LengthField(l));
    }
    BlocksAppend(INITIAL_STATE, whole, first);
    BlocksAppend(INITIAL_STATE, whole + first, second);
  }

  class SHA256 {
    const data: array<bv8>    // the block being filled
    var blockLen: nat         // bytes of data in use
    var bitLen: nat           // bits compressed so far, a 64-bit counter
    const state: array<bv32>
    ghost var fed: Bytes      // every byte given to Update

    ghost predicate Shape()
      reads this
    {
      data.Length == 64 && state.Length == 8 && blockLen < 64
    }

    /** What holds from construction until Digest. */
    ghost predicate Valid()
      reads this, data, state
    {
      Shape() && Represents(fed, data[..blockLen], bitLen, ToState(state[..]))
    }

    constructor ()
      ensures Valid() && fed == [] && fresh(data) && fresh(state)
    {
      data := new bv8[64];
      blockLen, bitLen := 0, 0;
      state := new bv32[8] [H0[0], H0[1], H0[2], H0[3], H0[4], H0[5], H0[6], H0[7]];
      fed := [];
    }

    /** Compresses the full buffer into the state. */
    method Transform()
      requires data.Length == 64 && state.Length == 8
      modifies state
      ensures ToState(state[..]) == Compress(old(ToState(state[..])), data[..])
    {
      hide Add, Round, Rounds, Schedule;
      var m := BuildSchedule();
      var s := new bv32[8];
      for i := 0 to 8
        invariant forall k :: 0 <= k < i ==> s[k] == state[k]
        modifies s
      {
        s[i] := state[i];
      }
      assert ToState(s[..]) == ToState(state[..]);
      AllRounds(s, m, data[..]);
      AddInto(state, s);
    }

    /** The loop that adds the working variables to the state. */
    static method AddInto(state: array<bv32>, s: array<bv32>)
      requires state.Length == 8 && s.Length == 8 && s != state
      modifies state
      ensures ToState(state[..]) == AddStates(old(ToState(state[..])), ToState(s[..]))
    {
      hide Add;
      for i := 0 to 8
        invariant forall k :: 0 <= k < i ==> state[k] == Add(old(state[k]), s[k])
        invariant forall k :: i <= k < 8 ==> state[k] == old(state[k])
      {
        state[i] := Add(state[i], s[i]);
      }
    }

    /** The loop over the sixty-four rounds. */
    static method AllRounds(s: array<bv32>, m: array<bv32>, ghost block: Bytes)
      requires s.Length == 8 && m.Length == 64 && |block| == 64 && s != m
      requires forall t :: 0 <= t < 64 ==> m[t] == Schedule(block, t)
      modifies s
      ensures ToState(s[..]) == Rounds(old(ToState(s[..])), block, 64)
    {
      hide Add, Round, Schedule, K;
      for i := 0 to 64
        invariant ToState(s[..]) == Rounds(old(ToState(s[..])), block, i)
      {
        RoundInPlace(s, K(i), m[i]);
      }
    }

    /** The 64-word message schedule of the buffer. */
    method BuildSchedule() returns (m: array<bv32>)
      requires data.Length == 64
      ensures fresh(m) && m.Length == 64
      ensures forall t :: 0 <= t < 64 ==> m[t] == Schedule(data[..], t)
    {
      hide Sum4, Word, Sig0, Sig1, SmallSigma0, SmallSigma1, XorA, XorE, BigSigma0, BigSigma1;
      m := new bv32[64];
      var j := 0;
      for i := 0 to 16
        invariant j == 4 * i
        invariant forall t :: 0 <= t < i ==> m[t] == Schedule(data[..], t)
      {
        m[i] := Word(data[j], data[j + 1], data[j + 2], data[j + 3]);
        j := j + 4;
      }
      for k := 16 to 64
        invariant forall t :: 0 <= t < k ==> m[t] == Schedule(data[..], t)
      {
        SigmasAgree(m[k - 2]);
        SigmasAgree(m[k - 15]);
        m[k] := Sum4(Sig1(m[k - 2]), m[k - 7], Sig0(m[k - 15]), m[k - 16]);
      }
    }

    /** One round over the shifting array of working variables. */
    static method RoundInPlace(s: array<bv32>, k: bv32, w: bv32)
      requires s.Length == 8
      modifies s
      ensures ToState(s[..]) == Round(old(ToState(s[..])), k, w)
    {
      hide Add, Sum5, Majority, Choose, XorA, XorE, Round;
      RoundAgrees(ToState(s[..]), k, w);
      var maj := Majority(s[0], s[1], s[2]);
      var ch := Choose(s[4], s[5], s[6]);
      var sum := Sum5(w, k, s[7], ch, XorE(s[4]));
      var newA := Add(Add(XorA(s[0]), maj), sum);
      var newE := Add(s[3], sum);
      s[7] := s[6];
      s[6] := s[5];
      s[5] := s[4];
      s[4] := newE;
      s[3] := s[2];
      s[2] := s[1];
      s[1] := s[0];
      s[0] := newA;
    }

    method Update(input: Bytes)
      requires Valid()
      modifies this, data, state
      ensures Valid() && fed == old(fed) + input
    {
      hide Represents;
      for i := 0 to |input|
        invariant Valid() && fed == old(fed) + input[..i]
      {
        PutByte(input[i]);
      }
    }

    /** One iteration of Update's loop. */
    method PutByte(b: bv8)
      requires Valid()
      modifies this, data, state
      ensures Valid() && fed == old(fed) + [b]
    {
      hide Compress, Represents;
      ghost var tail := data[..blockLen];
      data[blockLen] := b;
      blockLen := blockLen + 1;
      assert data[..blockLen] == tail + [b];
      if blockLen == 64 {
        PutLast(fed, tail, bitLen, ToState(state[..]), b);
        assert data[..] == tail + [b];
        Transform();
        bitLen := (bitLen + 512) % TWO_TO_64;
        blockLen := 0;
        assert data[..blockLen] == [];
      } else {
        PutInside(fed, tail, bitLen, ToState(state[..]), b);
      }
      fed := fed + [b];
    }

    /** Writes 0x80 and zeros up to the length field, or to the end when that does not fit. */
    method MarkEnd()
      requires Shape()
      modifies data
      ensures var end := if blockLen < 56 then 56 else 64;
              data[..end] == old(data[..blockLen]) + [0x80] + Zeros(end - blockLen - 1)
    {
      var i := blockLen;
      var end := if blockLen < 56 then 56 else 64;
      data[i] := 0x80;
      i := i + 1;
      while i < end
        invariant blockLen < i <= end
        invariant data[..i] == old(data[..blockLen]) + [0x80] + Zeros(i - blockLen - 1)
      {
        data[i] := 0x00;
        i := i + 1;
      }
    }

    method ClearFront()
      requires data.Length == 64
      modifies data
      ensures data[..56] == Zeros(56)
    {
      for i := 0 to 56
        invariant data[..i] == Zeros(i)
      {
        data[i] := 0;
      }
    }

    /** Writes eight bytes over the end of the buffer, last byte first. */
    method WriteLast(d: Bytes)
      requires data.Length == 64 && |d| == 8
      modifies data
      ensures data[..] == old(data[..56]) + d
    {
      data[63] := d[7];
      data[62] := d[6];
      data[61] := d[5];
      data[60] := d[4];
      data[59] := d[3];
      data[58] := d[2];
      data[57] := d[1];
      data[56] := d[0];
      assert data[..56] == old(data[..56]) && data[56..] == d;
      assert data[..] == data[..56] + data[56..];
    }

    /** Writes the counter over the last eight bytes, least significant byte last. */
    method WriteLength()
      requires data.Length == 64
      modifies data
      ensures data[..] == old(data[..56]) + LengthField(bitLen)
    {
      hide Digit;
      WriteLast([Digit(bitLen, 0x100_0000_0000_0000), Digit(bitLen, 0x1_0000_0000_0000),
                 Digit(bitLen, 0x100_0000_0000), Digit(bitLen, 0x1_0000_0000), Digit(bitLen, 0x100_0000),
                 Digit(bitLen, 0x1_0000), Digit(bitLen, 0x100), Digit(bitLen, 1)]);
    }

    /** Pads in place and compresses the last one or two blocks. */
    method Pad()
      requires Valid()
      modifies this, data, state
      ensures fed == old(fed) && blockLen == old(blockLen)
      ensures bitLen == 8 * |fed| % TWO_TO_64
      ensures ToState(state[..]) == Blocks(INITIAL_STATE, PadWithLength(fed, bitLen))
    {
      hide Compress, LengthField, Zeros, PadWithLength, Represents;
      ghost var tail := data[..blockLen];
      ghost var bits := bitLen;
      ghost var st := ToState(state[..]);
      RepresentsCounter(fed, tail, bits, st);
      MarkEnd();
      if blockLen >= 56 {
        assert data[..] == data[..64];
        Transform();
        ClearFront();
      }
      bitLen := (bitLen + blockLen * 8) % TWO_TO_64;
      WriteLength();
      if blockLen >= 56 {
        PadInTwoBlocks(fed, tail, bits, st, bitLen);
      } else {
        PadInOneBlock(fed, tail, bits, st, bitLen);
      }
      Transform();
    }

    /** The state words written out most significant byte first, column by column. */
    method Revert(hash: array<bv8>)
      requires state.Length == 8 && hash.Length == 32 && hash != data
      modifies hash
      ensures hash[..] == StateBytes(ToState(state[..]))
    {
      hide WordByte;
      for i := 0 to 4
        invariant forall n :: 0 <= n < 32 && n % 4 < i ==> hash[n] == WordByte(state[n / 4], n % 4)
      {
        for j := 0 to 8
          invariant forall n :: 0 <= n < 32 && (n % 4 < i || (n % 4 == i && n / 4 < j))
                      ==> hash[n] == WordByte(state[n / 4], n % 4)
        {
          hash[i + j * 4] := WordByte(state[j], i);
        }
      }
      forall n | 0 <= n < 32
        ensures hash[n] == StateBytes(ToState(state[..]))[n]
      {
        assert StateWords(ToState(state[..])) == state[..];
        WordsBytesAt(state[..], n);
      }
    }

    /**
     The final hash. The object is not reset: its padding is now in the buffer and counter, so it
     no longer satisfies Valid and is to be discarded.
     */
    method Digest() returns (hash: array<bv8>)
      requires Valid()
      modifies this, data, state
      ensures fresh(hash) && hash[..] == Sha256LowLength(old(fed))
      ensures 8 * |old(fed)| < TWO_TO_64 ==> hash[..] == Sha256(old(fed))
    {
      hash := new bv8[32];
      Pad();
      Revert(hash);
    }

    /** Prints a digest through a stream in hexadecimal. */
    static method ToString(digest: array<bv8>) returns (s: string)
      requires digest.Length == 32
      ensures s == Text(digest[..]) && |s| == 64 && Parse(s) == digest[..]
    {
      s := "";
      for i := 0 to 32
        invariant s == Text(digest[..i])
      {
        s := s + ByteText(digest[i]);
        assert digest[..i + 1][..i] == digest[..i];
      }
      assert digest[..32] == digest[..];
      TextRoundTrip(digest[..]);
    }
  }

  /** Pieces one after the other. */
  function Join(pieces: seq<Bytes>): Bytes {
    if pieces == [] then [] else Join(pieces[..|pieces| - 1]) + pieces[|pieces| - 1]
  }

  /**
   However a message is cut into pieces for Update, one Digest returns the hash of the whole: the
   standard's below 2^61 bytes, and beyond that the same function with the low 64 bits of the
   length in its length field.
   */
  method HashPieces(pieces: seq<Bytes>) returns (hash: array<bv8>)
    ensures hash[..] == Sha256LowLength(Join(pieces))
    ensures 8 * |Join(pieces)| < TWO_TO_64 ==> hash[..] == Sha256(Join(pieces))
  {
    hide Represents, Sha256LowLength, Sha256;
    var sha := new SHA256();
    for i := 0 to |pieces|
      invariant fresh(sha) && fresh(sha.data) && fresh(sha.state)
      invariant sha.Valid() && sha.fed == Join(pieces[..i])
    {
      sha.Update(pieces[i]);
      assert pieces[..i + 1][..i] == pieces[..i];
    }
    assert pieces[..|pieces|] == pieces;
    hash := sha.Digest();
  }

  /** Hashes one message and prints the digest, as the client and the server do with passwords. */
  method HashToText(m: Bytes) returns (text: string)
    ensures text == Text(Sha256LowLength(m))
  {
    hide Represents, Sha256LowLength, Sha256, Text, Parse;
    var sha := new SHA256();
    sha.Update(m);
    assert sha.fed == m;
    var digest := sha.Digest();
    text := SHA256.ToString(digest);
  }
}
