/** The standard's first published example: the hash of "abc", which is one block long. */
module Sha256Abc {
  import opened HexText
  import opened Sha256Spec
  import opened Sha256Trace

  const ABC: Bytes := [0x61, 0x62, 0x63]

  function Block(): (b: Bytes)
    ensures |b| == 64
  {
    ABC + [0x80] + Zeros(52) + [0, 0, 0, 0, 0, 0, 0, 0x18]
  }

  lemma Digits()
    ensures Digit(24, 0x100) == 0 && Digit(24, 1) == 0x18
  {
    NoDigit(24, 0x100);
    DigitIs(24, 1, 24, 0x18);
  }

  lemma AbcIsOneBlock()
    ensures Pad(ABC) == Block()
  {
    hide LengthField, Zeros, Digit;
    ShortLength(24);
    Digits();
    assert ZeroCount(3) == 52;
  }

  lemma WordsOfBlock()
    ensures Word(0x61, 0x62, 0x63, 0x80) == 0x61626380 && Word(0, 0, 0, 0x18) == 0x18 && Word(0, 0, 0, 0) == 0
  {
  }

  lemma BlockWord(t: nat)
    requires t < 16
    ensures IsWord(Block(), t, if t == 0 then 0x61626380 else if t == 15 then 0x18 else 0)
  {
    hide Word;
    WordsOfBlock();
    if t == 0 {
      FirstWord(Block(), 0, 0x61, 0x62, 0x63, 0x80, 0x61626380);
    } else if t == 15 {
      FirstWord(Block(), 15, 0, 0, 0, 0x18, 0x18);
    } else {
      FirstWord(Block(), t, 0, 0, 0, 0, 0);
    }
  }

  lemma Words0()
    ensures Words(Block(), 0, 0x61626380, 0x00000000, 0x00000000, 0x00000000,
                  0x00000000, 0x00000000, 0x00000000, 0x00000000)
  {
    hide IsWord, Block;
    BlockWord(0);
    BlockWord(1);
    BlockWord(2);
    BlockWord(3);
    BlockWord(4);
    BlockWord(5);
    BlockWord(6);
    BlockWord(7);
  }

  lemma Words8()
    ensures Words(Block(), 8, 0x00000000, 0x00000000, 0x00000000, 0x00000000,
                  0x00000000, 0x00000000, 0x00000000, 0x00000018)
  {
    hide IsWord, Block;
    BlockWord(8);
    BlockWord(9);
    BlockWord(10);
    BlockWord(11);
    BlockWord(12);
    BlockWord(13);
    BlockWord(14);
    BlockWord(15);
  }

  lemma Words16()
    ensures Words(Block(), 16, 0x61626380, 0x000f0000, 0x7da86405, 0x600003c6,
                  0x3e9d7b78, 0x0183fc00, 0x12dcbfdb, 0xe2e2c38e)
  {
    hide IsWord, Block;
    Words0();
    Words8();
    NextWord(Block(), 16, 0x00000000, 0x00000000, 0x00000000, 0x61626380, 0x61626380);
    NextWord(Block(), 17, 0x00000018, 0x00000000, 0x00000000, 0x00000000, 0x000f0000);
    NextWord(Block(), 18, 0x61626380, 0x00000000, 0x00000000, 0x00000000, 0x7da86405);
    NextWord(Block(), 19, 0x000f0000, 0x00000000, 0x00000000, 0x00000000, 0x600003c6);
    NextWord(Block(), 20, 0x7da86405, 0x00000000, 0x00000000, 0x00000000, 0x3e9d7b78);
    NextWord(Block(), 21, 0x600003c6, 0x00000000, 0x00000000, 0x00000000, 0x0183fc00);
    NextWord(Block(), 22, 0x3e9d7b78, 0x00000018, 0x00000000, 0x00000000, 0x12dcbfdb);
    NextWord(Block(), 23, 0x0183fc00, 0x61626380, 0x00000000, 0x00000000, 0xe2e2c38e);
  }

  lemma Words24()
    ensures Words(Block(), 24, 0xc8215c1a, 0xb73679a2, 0xe5bc3909, 0x32663c5b,
                  0x9d209d67, 0xec8726cb, 0x702138a4, 0xd3b7973b)
  {
    hide IsWord, Block;
    Words8();
    Words16();
    NextWord(Block(), 24, 0x12dcbfdb, 0x000f0000, 0x00000000, 0x00000000, 0xc8215c1a);
    NextWord(Block(), 25, 0xe2e2c38e, 0x7da86405, 0x00000000, 0x00000000, 0xb73679a2);
    NextWord(Block(), 26, 0xc8215c1a, 0x600003c6, 0x00000000, 0x00000000, 0xe5bc3909);
    NextWord(Block(), 27, 0xb73679a2, 0x3e9d7b78, 0x00000000, 0x00000000, 0x32663c5b);
    NextWord(Block(), 28, 0xe5bc3909, 0x0183fc00, 0x00000000, 0x00000000, 0x9d209d67);
    NextWord(Block(), 29, 0x32663c5b, 0x12dcbfdb, 0x00000000, 0x00000000, 0xec8726cb);
    NextWord(Block(), 30, 0x9d209d67, 0xe2e2c38e, 0x00000018, 0x00000000, 0x702138a4);
    NextWord(Block(), 31, 0xec8726cb, 0xc8215c1a, 0x61626380, 0x00000018, 0xd3b7973b);
  }

  lemma Words32()
    ensures Words(Block(), 32, 0x93f5997f, 0x3b68ba73, 0xaff4ffc1, 0xf10a5c62,
                  0x0a8b3996, 0x72af830a, 0x9409e33e, 0x24641522)
  {
    hide IsWord, Block;
    Words16();
    Words24();
    NextWord(Block(), 32, 0x702138a4, 0xb73679a2, 0x000f0000, 0x61626380, 0x93f5997f);
    NextWord(Block(), 33, 0xd3b7973b, 0xe5bc3909, 0x7da86405, 0x000f0000, 0x3b68ba73);
    NextWord(Block(), 34, 0x93f5997f, 0x32663c5b, 0x600003c6, 0x7da86405, 0xaff4ffc1);
    NextWord(Block(), 35, 0x3b68ba73, 0x9d209d67, 0x3e9d7b78, 0x600003c6, 0xf10a5c62);
    NextWord(Block(), 36, 0xaff4ffc1, 0xec8726cb, 0x0183fc00, 0x3e9d7b78, 0x0a8b3996);
    NextWord(Block(), 37, 0xf10a5c62, 0x702138a4, 0x12dcbfdb, 0x0183fc00, 0x72af830a);
    NextWord(Block(), 38, 0x0a8b3996, 0xd3b7973b, 0xe2e2c38e, 0x12dcbfdb, 0x9409e33e);
    NextWord(Block(), 39, 0x72af830a, 0x93f5997f, 0xc8215c1a, 0xe2e2c38e, 0x24641522);
  }

  lemma Words40()
    ensures Words(Block(), 40, 0x9f47bf94, 0xf0a64f5a, 0x3e246a79, 0x27333ba3,
                  0x0c4763f2, 0x840abf27, 0x7a290d5d, 0x065c43da)
  {
    hide IsWord, Block;
    Words24();
    Words32();
    NextWord(Block(), 40, 0x9409e33e, 0x3b68ba73, 0xb73679a2, 0xc8215c1a, 0x9f47bf94);
    NextWord(Block(), 41, 0x24641522, 0xaff4ffc1, 0xe5bc3909, 0xb73679a2, 0xf0a64f5a);
    NextWord(Block(), 42, 0x9f47bf94, 0xf10a5c62, 0x32663c5b, 0xe5bc3909, 0x3e246a79);
    NextWord(Block(), 43, 0xf0a64f5a, 0x0a8b3996, 0x9d209d67, 0x32663c5b, 0x27333ba3);
    NextWord(Block(), 44, 0x3e246a79, 0x72af830a, 0xec8726cb, 0x9d209d67, 0x0c4763f2);
    NextWord(Block(), 45, 0x27333ba3, 0x9409e33e, 0x702138a4, 0xec8726cb, 0x840abf27);
    NextWord(Block(), 46, 0x0c4763f2, 0x24641522, 0xd3b7973b, 0x702138a4, 0x7a290d5d);
    NextWord(Block(), 47, 0x840abf27, 0x9f47bf94, 0x93f5997f, 0xd3b7973b, 0x065c43da);
  }

  lemma Words48()
    ensures Words(Block(), 48, 0xfb3e89cb, 0xcc7617db, 0xb9e66c34, 0xa9993667,
                  0x84badedd, 0xc21462bc, 0x1487472c, 0xb20f7a99)
  {
    hide IsWord, Block;
    Words32();
    Words40();
    NextWord(Block(), 48, 0x7a290d5d, 0xf0a64f5a, 0x3b68ba73, 0x93f5997f, 0xfb3e89cb);
    NextWord(Block(), 49, 0x065c43da, 0x3e246a79, 0xaff4ffc1, 0x3b68ba73, 0xcc7617db);
    NextWord(Block(), 50, 0xfb3e89cb, 0x27333ba3, 0xf10a5c62, 0xaff4ffc1, 0xb9e66c34);
    NextWord(Block(), 51, 0xcc7617db, 0x0c4763f2, 0x0a8b3996, 0xf10a5c62, 0xa9993667);
    NextWord(Block(), 52, 0xb9e66c34, 0x840abf27, 0x72af830a, 0x0a8b3996, 0x84badedd);
    NextWord(Block(), 53, 0xa9993667, 0x7a290d5d, 0x9409e33e, 0x72af830a, 0xc21462bc);
    NextWord(Block(), 54, 0x84badedd, 0x065c43da, 0x24641522, 0x9409e33e, 0x1487472c);
    NextWord(Block(), 55, 0xc21462bc, 0xfb3e89cb, 0x9f47bf94, 0x24641522, 0xb20f7a99);
  }

  lemma Words56()
    ensures Words(Block(), 56, 0xef57b9cd, 0xebe6b238, 0x9fe3095e, 0x78bc8d4b,
                  0xa43fcf15, 0x668b2ff8, 0xeeaba2cc, 0x12b1edeb)
  {
    hide IsWord, Block;
    Words40();
    Words48();
    NextWord(Block(), 56, 0x1487472c, 0xcc7617db, 0xf0a64f5a, 0x9f47bf94, 0xef57b9cd);
    NextWord(Block(), 57, 0xb20f7a99, 0xb9e66c34, 0x3e246a79, 0xf0a64f5a, 0xebe6b238);
    NextWord(Block(), 58, 0xef57b9cd, 0xa9993667, 0x27333ba3, 0x3e246a79, 0x9fe3095e);
    NextWord(Block(), 59, 0xebe6b238, 0x84badedd, 0x0c4763f2, 0x27333ba3, 0x78bc8d4b);
    NextWord(Block(), 60, 0x9fe3095e, 0xc21462bc, 0x840abf27, 0x0c4763f2, 0xa43fcf15);
    NextWord(Block(), 61, 0x78bc8d4b, 0x1487472c, 0x7a290d5d, 0x840abf27, 0x668b2ff8);
    NextWord(Block(), 62, 0xa43fcf15, 0xb20f7a99, 0x065c43da, 0x7a290d5d, 0xeeaba2cc);
    NextWord(Block(), 63, 0x668b2ff8, 0xef57b9cd, 0xfb3e89cb, 0x065c43da, 0x12b1edeb);
  }

  lemma Rounds8() returns (s: State)
    ensures s == State(0x85a07b5f, 0xe5030380, 0x2b4209f5, 0x04409a6a, 0x0c657a79, 0x9b27a401, 0x714260ad, 0x43ada245)
    ensures After(INITIAL_STATE, Block(), 8, s)
  {
    hide IsWord, Rounds, Block;
    Words0();
    s := INITIAL_STATE;
    NoRound(s, Block());
    s := NextRound(INITIAL_STATE, Block(), 0, s, 0x428a2f98, 0x61626380, 0x5d6aebcd, 0xfa2a4622);
    s := NextRound(INITIAL_STATE, Block(), 1, s, 0x71374491, 0x00000000, 0x5a6ad9ad, 0x78ce7989);
    s := NextRound(INITIAL_STATE, Block(), 2, s, 0xb5c0fbcf, 0x00000000, 0xc8c347a7, 0xf92939eb);
    s := NextRound(INITIAL_STATE, Block(), 3, s, 0xe9b5dba5, 0x00000000, 0xd550f666, 0x24e00850);
    s := NextRound(INITIAL_STATE, Block(), 4, s, 0x3956c25b, 0x00000000, 0x04409a6a, 0x43ada245);
    s := NextRound(INITIAL_STATE, Block(), 5, s, 0x59f111f1, 0x00000000, 0x2b4209f5, 0x714260ad);
    s := NextRound(INITIAL_STATE, Block(), 6, s, 0x923f82a4, 0x00000000, 0xe5030380, 0x9b27a401);
    s := NextRound(INITIAL_STATE, Block(), 7, s, 0xab1c5ed5, 0x00000000, 0x85a07b5f, 0x0c657a79);
  }

  lemma Rounds16() returns (s: State)
    ensures s == State(0xb0fa238e, 0xc0645fde, 0xd932eb16, 0x87912990, 0x07590dcd, 0x0b92f20c, 0x745a48de, 0x1e578218)
    ensures After(INITIAL_STATE, Block(), 16, s)
  {
    hide IsWord, Rounds, Block;
    Words8();
    s := Rounds8();
    s := NextRound(INITIAL_STATE, Block(), 8, s, 0xd807aa98, 0x00000000, 0x8e04ecb9, 0x32ca2d8c);
    s := NextRound(INITIAL_STATE, Block(), 9, s, 0x12835b01, 0x00000000, 0x8c87346b, 0x1cc92596);
    s := NextRound(INITIAL_STATE, Block(), 10, s, 0x243185be, 0x00000000, 0x4798a3f4, 0x436b23e8);
    s := NextRound(INITIAL_STATE, Block(), 11, s, 0x550c7dc3, 0x00000000, 0xf71fc5a9, 0x816fd6e9);
    s := NextRound(INITIAL_STATE, Block(), 12, s, 0x72be5d74, 0x00000000, 0x87912990, 0x1e578218);
    s := NextRound(INITIAL_STATE, Block(), 13, s, 0x80deb1fe, 0x00000000, 0xd932eb16, 0x745a48de);
    s := NextRound(INITIAL_STATE, Block(), 14, s, 0x9bdc06a7, 0x00000000, 0xc0645fde, 0x0b92f20c);
    s := NextRound(INITIAL_STATE, Block(), 15, s, 0xc19bf174, 0x00000018, 0xb0fa238e, 0x07590dcd);
  }

  lemma Rounds24() returns (s: State)
    ensures s == State(0xc5d53d8d, 0xa7a3623f, 0xc2606d6d, 0x9dc68b63, 0xaa47c347, 0x49f5114a, 0xe1257970, 0x8ada8930)
    ensures After(INITIAL_STATE, Block(), 24, s)
  {
    hide IsWord, Rounds, Block;
    Words16();
    s := Rounds16();
    s := NextRound(INITIAL_STATE, Block(), 16, s, 0xe49b69c1, 0x61626380, 0x21da9a9b, 0x8034229c);
    s := NextRound(INITIAL_STATE, Block(), 17, s, 0xefbe4786, 0x000f0000, 0xc2fbd9d1, 0x846ee454);
    s := NextRound(INITIAL_STATE, Block(), 18, s, 0x0fc19dc6, 0x7da86405, 0xfe777bbf, 0xcc899961);
    s := NextRound(INITIAL_STATE, Block(), 19, s, 0x240ca1cc, 0x600003c6, 0xe1f20c33, 0xb0638179);
    s := NextRound(INITIAL_STATE, Block(), 20, s, 0x2de92c6f, 0x3e9d7b78, 0x9dc68b63, 0x8ada8930);
    s := NextRound(INITIAL_STATE, Block(), 21, s, 0x4a7484aa, 0x0183fc00, 0xc2606d6d, 0xe1257970);
    s := NextRound(INITIAL_STATE, Block(), 22, s, 0x5cb0a9dc, 0x12dcbfdb, 0xa7a3623f, 0x49f5114a);
    s := NextRound(INITIAL_STATE, Block(), 23, s, 0x76f988da, 0xe2e2c38e, 0xc5d53d8d, 0xaa47c347);
  }

  lemma Rounds32() returns (s: State)
    ensures s == State(0x73b33bf5, 0xea992a22, 0xa0060b30, 0x363482c9, 0xba591112, 0x0109ab3a, 0xade79437, 0x6112a3b7)
    ensures After(INITIAL_STATE, Block(), 32, s)
  {
    hide IsWord, Rounds, Block;
    Words24();
    s := Rounds24();
    s := NextRound(INITIAL_STATE, Block(), 24, s, 0x983e5152, 0xc8215c1a, 0x1c2c2838, 0x2823ef91);
    s := NextRound(INITIAL_STATE, Block(), 25, s, 0xa831c66d, 0xb73679a2, 0xcde8037d, 0x14383d8e);
    s := NextRound(INITIAL_STATE, Block(), 26, s, 0xb00327c8, 0xe5bc3909, 0xb62ec4bc, 0xc74c6516);
    s := NextRound(INITIAL_STATE, Block(), 27, s, 0xbf597fc7, 0x32663c5b, 0x77d37528, 0xedffbff8);
    s := NextRound(INITIAL_STATE, Block(), 28, s, 0xc6e00bf3, 0x9d209d67, 0x363482c9, 0x6112a3b7);
    s := NextRound(INITIAL_STATE, Block(), 29, s, 0xd5a79147, 0xec8726cb, 0xa0060b30, 0xade79437);
    s := NextRound(INITIAL_STATE, Block(), 30, s, 0x06ca6351, 0x702138a4, 0xea992a22, 0x0109ab3a);
    s := NextRound(INITIAL_STATE, Block(), 31, s, 0x14292967, 0xd3b7973b, 0x73b33bf5, 0xba591112);
  }

  lemma Rounds40() returns (s: State)
    ensures s == State(0x79ea687a, 0x6dc57a8a, 0x34df1604, 0x41a65cb1, 0x1efbc0a0, 0xf0781bc8, 0xa507a53d, 0x0772a26b)
    ensures After(INITIAL_STATE, Block(), 40, s)
  {
    hide IsWord, Rounds, Block;
    Words32();
    s := Rounds32();
    s := NextRound(INITIAL_STATE, Block(), 32, s, 0x27b70a85, 0x93f5997f, 0x98e12507, 0x9cd9f5f6);
    s := NextRound(INITIAL_STATE, Block(), 33, s, 0x2e1b2138, 0x3b68ba73, 0xfe604df5, 0x59249dd3);
    s := NextRound(INITIAL_STATE, Block(), 34, s, 0x4d2c6dfc, 0xaff4ffc1, 0xa9a7738c, 0x085f3833);
    s := NextRound(INITIAL_STATE, Block(), 35, s, 0x53380d13, 0xf10a5c62, 0x65a0cfe4, 0xf4b002d6);
    s := NextRound(INITIAL_STATE, Block(), 36, s, 0x650a7354, 0x0a8b3996, 0x41a65cb1, 0x0772a26b);
    s := NextRound(INITIAL_STATE, Block(), 37, s, 0x766a0abb, 0x72af830a, 0x34df1604, 0xa507a53d);
    s := NextRound(INITIAL_STATE, Block(), 38, s, 0x81c2c92e, 0x9409e33e, 0x6dc57a8a, 0xf0781bc8);
    s := NextRound(INITIAL_STATE, Block(), 39, s, 0x92722c85, 0x24641522, 0x79ea687a, 0x1efbc0a0);
  }

  lemma Rounds48() returns (s: State)
    ensures s == State(0x4172328d, 0xa14c14b0, 0x72ab4b91, 0x26628815, 0xfecf0bc6, 0xd57b94a9, 0xb7755da1, 0xa80f11f0)
    ensures After(INITIAL_STATE, Block(), 48, s)
  {
    hide IsWord, Rounds, Block;
    Words40();
    s := Rounds40();
    s := NextRound(INITIAL_STATE, Block(), 40, s, 0xa2bfe8a1, 0x9f47bf94, 0xd6670766, 0x26352d63);
    s := NextRound(INITIAL_STATE, Block(), 41, s, 0xa81a664b, 0xf0a64f5a, 0xdf46652f, 0x838b2711);
    s := NextRound(INITIAL_STATE, Block(), 42, s, 0xc24b8b70, 0x3e246a79, 0x17aa0dfe, 0xdecd4715);
    s := NextRound(INITIAL_STATE, Block(), 43, s, 0xc76c51a3, 0x27333ba3, 0x9d4baf93, 0xfda24c2e);
    s := NextRound(INITIAL_STATE, Block(), 44, s, 0xd192e819, 0x0c4763f2, 0x26628815, 0xa80f11f0);
    s := NextRound(INITIAL_STATE, Block(), 45, s, 0xd6990624, 0x840abf27, 0x72ab4b91, 0xb7755da1);
    s := NextRound(INITIAL_STATE, Block(), 46, s, 0xf40e3585, 0x7a290d5d, 0xa14c14b0, 0xd57b94a9);
    s := NextRound(INITIAL_STATE, Block(), 47, s, 0x106aa070, 0x065c43da, 0x4172328d, 0xfecf0bc6);
  }

  lemma Rounds56() returns (s: State)
    ensures s == State(0x38cc9913, 0x3ec45cdb, 0xf5702fdb, 0x101fd28f, 0x54cb266b, 0xe50e1b4f, 0x9f4787c3, 0x529e7d00)
    ensures After(INITIAL_STATE, Block(), 56, s)
  {
    hide IsWord, Rounds, Block;
    Words48();
    s := Rounds48();
    s := NextRound(INITIAL_STATE, Block(), 48, s, 0x19a4c116, 0xfb3e89cb, 0x05757ceb, 0xbd714038);
    s := NextRound(INITIAL_STATE, Block(), 49, s, 0x1e376c08, 0xcc7617db, 0xf11bfaa8, 0x6e5c390c);
    s := NextRound(INITIAL_STATE, Block(), 50, s, 0x2748774c, 0xb9e66c34, 0x7a0508a1, 0x52f1ccf7);
    s := NextRound(INITIAL_STATE, Block(), 51, s, 0x34b0bcb5, 0xa9993667, 0x886e7a22, 0x49231c1e);
    s := NextRound(INITIAL_STATE, Block(), 52, s, 0x391c0cb3, 0x84badedd, 0x101fd28f, 0x529e7d00);
    s := NextRound(INITIAL_STATE, Block(), 53, s, 0x4ed8aa4a, 0xc21462bc, 0xf5702fdb, 0x9f4787c3);
    s := NextRound(INITIAL_STATE, Block(), 54, s, 0x5b9cca4f, 0x1487472c, 0x3ec45cdb, 0xe50e1b4f);
    s := NextRound(INITIAL_STATE, Block(), 55, s, 0x682e6ff3, 0xb20f7a99, 0x38cc9913, 0x54cb266b);
  }

  lemma Rounds64() returns (s: State)
    ensures s == State(0x506e3058, 0xd39a2165, 0x04d24d6c, 0xb85e2ce9, 0x5ef50f24, 0xfb121210, 0x948d25b6, 0x961f4894)
    ensures After(INITIAL_STATE, Block(), 64, s)
  {
    hide IsWord, Rounds, Block;
    Words56();
    s := Rounds56();
    s := NextRound(INITIAL_STATE, Block(), 56, s, 0x748f82ee, 0xef57b9cd, 0xfcd1887b, 0x9b5e906c);
    s := NextRound(INITIAL_STATE, Block(), 57, s, 0x78a5636f, 0xebe6b238, 0xc062d46f, 0x7e44008e);
    s := NextRound(INITIAL_STATE, Block(), 58, s, 0x84c87814, 0x9fe3095e, 0xffb70472, 0x6d83bfc6);
    s := NextRound(INITIAL_STATE, Block(), 59, s, 0x8cc70208, 0x78bc8d4b, 0xb6ae8fff, 0xb21bad3d);
    s := NextRound(INITIAL_STATE, Block(), 60, s, 0x90befffa, 0xa43fcf15, 0xb85e2ce9, 0x961f4894);
    s := NextRound(INITIAL_STATE, Block(), 61, s, 0xa4506ceb, 0x668b2ff8, 0x04d24d6c, 0x948d25b6);
    s := NextRound(INITIAL_STATE, Block(), 62, s, 0xbef9a3f7, 0xeeaba2cc, 0xd39a2165, 0xfb121210);
    s := NextRound(INITIAL_STATE, Block(), 63, s, 0xc67178f2, 0x12b1edeb, 0x506e3058, 0x5ef50f24);
  }

  const HASH := State(0xba7816bf, 0x8f01cfea, 0x414140de, 0x5dae2223, 0xb00361a3, 0x96177a9c, 0xb410ff61, 0xf20015ad)

  lemma Added(s: State)
    requires s == State(0x506e3058, 0xd39a2165, 0x04d24d6c, 0xb85e2ce9, 0x5ef50f24, 0xfb121210, 0x948d25b6, 0x961f4894)
    ensures AddStates(INITIAL_STATE, s) == HASH
  {
  }

  lemma Compressed()
    ensures Compress(INITIAL_STATE, Block()) == HASH
  {
    hide Rounds, Block, AddStates;
    var s := Rounds64();
    Added(s);
  }

  lemma AbcState()
    ensures Sha256(ABC) == StateBytes(HASH)
  {
    hide Compress, StateBytes, Block, Pad;
    AbcIsOneBlock();
    OneBlock(INITIAL_STATE, Block());
    Compressed();
  }

  lemma HashWords()
    ensures WordBytes(0xba7816bf) == [0xba, 0x78, 0x16, 0xbf]
    ensures WordBytes(0x8f01cfea) == [0x8f, 0x01, 0xcf, 0xea]
    ensures WordBytes(0x414140de) == [0x41, 0x41, 0x40, 0xde]
    ensures WordBytes(0x5dae2223) == [0x5d, 0xae, 0x22, 0x23]
    ensures WordBytes(0xb00361a3) == [0xb0, 0x03, 0x61, 0xa3]
    ensures WordBytes(0x96177a9c) == [0x96, 0x17, 0x7a, 0x9c]
    ensures WordBytes(0xb410ff61) == [0xb4, 0x10, 0xff, 0x61]
    ensures WordBytes(0xf20015ad) == [0xf2, 0x00, 0x15, 0xad]
  {
  }

  /** The hash of "abc" is the one the standard's examples give. */
  lemma AbcHash()
    ensures Sha256(ABC) ==
            [0xba, 0x78, 0x16, 0xbf] + [0x8f, 0x01, 0xcf, 0xea] + [0x41, 0x41, 0x40, 0xde] + [0x5d, 0xae, 0x22, 0x23] +
            [0xb0, 0x03, 0x61, 0xa3] + [0x96, 0x17, 0x7a, 0x9c] + [0xb4, 0x10, 0xff, 0x61] + [0xf2, 0x00, 0x15, 0xad]
  {
    hide WordBytes, StateBytes, Sha256;
    AbcState();
    HashWords();
    EightWords(HASH);
  }

  lemma Text0()
    ensures Text([0xba, 0x78, 0x16, 0xbf]) == "ba7816bf"
  {
    TextOfFour(0xba, 0x78, 0x16, 0xbf, 0xba, 0x78, 0x16, 0xbf);
  }

  lemma Text1()
    ensures Text([0x8f, 0x01, 0xcf, 0xea]) == "8f01cfea"
  {
    TextOfFour(0x8f, 0x01, 0xcf, 0xea, 0x8f, 0x01, 0xcf, 0xea);
  }

  lemma Text2()
    ensures Text([0x41, 0x41, 0x40, 0xde]) == "414140de"
  {
    TextOfFour(0x41, 0x41, 0x40, 0xde, 0x41, 0x41, 0x40, 0xde);
  }

  lemma Text3()
    ensures Text([0x5d, 0xae, 0x22, 0x23]) == "5dae2223"
  {
    TextOfFour(0x5d, 0xae, 0x22, 0x23, 0x5d, 0xae, 0x22, 0x23);
  }

  lemma Text4()
    ensures Text([0xb0, 0x03, 0x61, 0xa3]) == "b00361a3"
  {
    TextOfFour(0xb0, 0x03, 0x61, 0xa3, 0xb0, 0x03, 0x61, 0xa3);
  }

  lemma Text5()
    ensures Text([0x96, 0x17, 0x7a, 0x9c]) == "96177a9c"
  {
    TextOfFour(0x96, 0x17, 0x7a, 0x9c, 0x96, 0x17, 0x7a, 0x9c);
  }

  lemma Text6()
    ensures Text([0xb4, 0x10, 0xff, 0x61]) == "b410ff61"
  {
    TextOfFour(0xb4, 0x10, 0xff, 0x61, 0xb4, 0x10, 0xff, 0x61);
  }

  lemma Text7()
    ensures Text([0xf2, 0x00, 0x15, 0xad]) == "f20015ad"
  {
    TextOfFour(0xf2, 0x00, 0x15, 0xad, 0xf2, 0x00, 0x15, 0xad);
  }

  /** And its text is the one they print. */
  lemma AbcText()
    ensures Text(Sha256(ABC)) ==
              "ba7816bf" + "8f01cfea" + "414140de" + "5dae2223" + "b00361a3" + "96177a9c" + "b410ff61" + "f20015ad"
  {
    hide Text, Sha256;
    AbcHash();
    Text0();
    Text1();
    Text2();
    Text3();
    Text4();
    Text5();
    Text6();
    Text7();
    TextOfEight([0xba, 0x78, 0x16, 0xbf], [0x8f, 0x01, 0xcf, 0xea],
                [0x41, 0x41, 0x40, 0xde], [0x5d, 0xae, 0x22, 0x23],
                [0xb0, 0x03, 0x61, 0xa3], [0x96, 0x17, 0x7a, 0x9c],
                [0xb4, 0x10, 0xff, 0x61], [0xf2, 0x00, 0x15, 0xad]);
  }
}
