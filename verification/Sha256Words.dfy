/**
 The word arithmetic of one SHA-256 round as the program writes it, and its agreement with the
 standard's functions. All bit-level reasoning is confined to this module.
 */
module Sha256Words {
  import opened Sha256Spec

  // ---------------------------------------------------------------- bit functions

  /** Shift-and-or rotation, as the program writes it. */
  function Rotr(x: bv32, n: bv32): bv32
    requires n <= 32
  {
    (x >> n) | (x << (32 - n))
  }

  function Choose(e: bv32, f: bv32, g: bv32): bv32 {
    (e & f) ^ (!e & g)
  }

  /** The or-form of the majority function. */
  function Majority(a: bv32, b: bv32, c: bv32): bv32 {
    (a & (b | c)) | (b & c)
  }

  function Sig0(x: bv32): bv32 {
    Xor3(Rotr(x, 7), Rotr(x, 18), x >> 3)
  }

  function Sig1(x: bv32): bv32 {
    Xor3(Rotr(x, 17), Rotr(x, 19), x >> 10)
  }

  function XorA(x: bv32): bv32 {
    Xor3(Rotr(x, 2), Rotr(x, 13), Rotr(x, 22))
  }

  function XorE(x: bv32): bv32 {
    Xor3(Rotr(x, 6), Rotr(x, 11), Rotr(x, 25))
  }

  /** For every amount the program rotates by, shifting and or-ing is rotation. */
  lemma RotrRotates(x: bv32)
    ensures Rotr(x, 2) == x.RotateRight(2) && Rotr(x, 13) == x.RotateRight(13)
    ensures Rotr(x, 22) == x.RotateRight(22) && Rotr(x, 6) == x.RotateRight(6)
    ensures Rotr(x, 11) == x.RotateRight(11) && Rotr(x, 25) == x.RotateRight(25)
    ensures Rotr(x, 7) == x.RotateRight(7) && Rotr(x, 18) == x.RotateRight(18)
    ensures Rotr(x, 17) == x.RotateRight(17) && Rotr(x, 19) == x.RotateRight(19)
  {
  }

  lemma ChooseAgrees(x: bv32, y: bv32, z: bv32)
    ensures Choose(x, y, z) == Ch(x, y, z)
  {
  }

  lemma MajorityIdentity(x: bv32, y: bv32, z: bv32)
    ensures (x & (y | z)) | (y & z) == (x & y) ^ (x & z) ^ (y & z)
  {
  }

  lemma MajorityAgrees(x: bv32, y: bv32, z: bv32)
    ensures Majority(x, y, z) == Maj(x, y, z)
  {
    MajorityIdentity(x, y, z);
  }

  lemma SigmasAgree(x: bv32)
    ensures Sig0(x) == SmallSigma0(x) && Sig1(x) == SmallSigma1(x)
    ensures XorA(x) == BigSigma0(x) && XorE(x) == BigSigma1(x)
  {
    hide Xor3;
    RotrRotates(x);
  }

  lemma SumIdentity(a: bv32, b: bv32, c: bv32, d: bv32, e: bv32)
    ensures a + b + c + d + e == c + e + d + b + a
  {
  }

  /** The program adds the first temporary's terms in another order than the standard. */
  lemma SumsAgree(a: bv32, b: bv32, c: bv32, d: bv32, e: bv32)
    ensures Sum5(a, b, c, d, e) == Sum5(c, e, d, b, a)
  {
    SumIdentity(a, b, c, d, e);
  }

  lemma AddCommutes(a: bv32, b: bv32)
    ensures Add(a, b) == Add(b, a)
  {
  }

  /** The two new working variables of one round, as the program computes them. */
  lemma RoundAgrees(s: State, k: bv32, w: bv32)
    ensures var sum := Sum5(w, k, s.h, Choose(s.e, s.f, s.g), XorE(s.e));
            State(Add(Add(XorA(s.a), Majority(s.a, s.b, s.c)), sum),
                  s.a, s.b, s.c, Add(s.d, sum), s.e, s.f, s.g)
            == Round(s, k, w)
  {
    hide Add, Sum5, XorA, XorE, Majority, Maj, BigSigma0, BigSigma1, Choose, Ch;
    ChooseAgrees(s.e, s.f, s.g);
    MajorityAgrees(s.a, s.b, s.c);
    SigmasAgree(s.a);
    SigmasAgree(s.e);
    SumsAgree(w, k, s.h, Ch(s.e, s.f, s.g), BigSigma1(s.e));
    AddCommutes(Add(BigSigma0(s.a), Maj(s.a, s.b, s.c)),
                Sum5(s.h, BigSigma1(s.e), Ch(s.e, s.f, s.g), k, w));
  }
}
