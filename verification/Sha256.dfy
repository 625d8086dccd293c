/**
 SHA-256 as FIPS 180-4 defines it: the functions of section 4.1.2, the constants of sections 4.2.2
 and 5.3.3, padding (5.1.1), parsing (5.2.1) and the hash computation (6.2.2), on byte messages.

 The computation is defined over a record of word operations, so that proofs about its structure
 never look inside 32-bit arithmetic; `FIPS` is the standard's record.
 */
module Sha256 {
  import opened Text

  /** A 32-bit word, as a number; bitwise operations go through bit vectors. */
  type Word = u32
  type u8 = n: nat | n < 256
  type Hex8 = t: Text | |t| == 8 && forall i | 0 <= i < 8 :: IsHex(t[i]) witness Repeat('0', 8)

  // ----- constants (sections 4.2.2 and 5.3.3) -----

  function RoundConstant(i: nat): u32
    requires i < 64
  {
    match i
    case 0 => 0x428a2f98
    case 1 => 0x71374491
    case 2 => 0xb5c0fbcf
    case 3 => 0xe9b5dba5
    case 4 => 0x3956c25b
    case 5 => 0x59f111f1
    case 6 => 0x923f82a4
    case 7 => 0xab1c5ed5
    case 8 => 0xd807aa98
    case 9 => 0x12835b01
    case 10 => 0x243185be
    case 11 => 0x550c7dc3
    case 12 => 0x72be5d74
    case 13 => 0x80deb1fe
    case 14 => 0x9bdc06a7
    case 15 => 0xc19bf174
    case 16 => 0xe49b69c1
    case 17 => 0xefbe4786
    case 18 => 0x0fc19dc6
    case 19 => 0x240ca1cc
    case 20 => 0x2de92c6f
    case 21 => 0x4a7484aa
    case 22 => 0x5cb0a9dc
    case 23 => 0x76f988da
    case 24 => 0x983e5152
    case 25 => 0xa831c66d
    case 26 => 0xb00327c8
    case 27 => 0xbf597fc7
    case 28 => 0xc6e00bf3
    case 29 => 0xd5a79147
    case 30 => 0x06ca6351
    case 31 => 0x14292967
    case 32 => 0x27b70a85
    case 33 => 0x2e1b2138
    case 34 => 0x4d2c6dfc
    case 35 => 0x53380d13
    case 36 => 0x650a7354
    case 37 => 0x766a0abb
    case 38 => 0x81c2c92e
    case 39 => 0x92722c85
    case 40 => 0xa2bfe8a1
    case 41 => 0xa81a664b
    case 42 => 0xc24b8b70
    case 43 => 0xc76c51a3
    case 44 => 0xd192e819
    case 45 => 0xd6990624
    case 46 => 0xf40e3585
    case 47 => 0x106aa070
    case 48 => 0x19a4c116
    case 49 => 0x1e376c08
    case 50 => 0x2748774c
    case 51 => 0x34b0bcb5
    case 52 => 0x391c0cb3
    case 53 => 0x4ed8aa4a
    case 54 => 0x5b9cca4f
    case 55 => 0x682e6ff3
    case 56 => 0x748f82ee
    case 57 => 0x78a5636f
    case 58 => 0x84c87814
    case 59 => 0x8cc70208
    case 60 => 0x90befffa
    case 61 => 0xa4506ceb
    case 62 => 0xbef9a3f7
    case _ => 0xc67178f2
  }

  /** The first sixty-four primes. */
  function Prime(i: nat): nat
    requires i < 64
  {
    match i
    case 0 => 2
    case 1 => 3
    case 2 => 5
    case 3 => 7
    case 4 => 11
    case 5 => 13
    case 6 => 17
    case 7 => 19
    case 8 => 23
    case 9 => 29
    case 10 => 31
    case 11 => 37
    case 12 => 41
    case 13 => 43
    case 14 => 47
    case 15 => 53
    case 16 => 59
    case 17 => 61
    case 18 => 67
    case 19 => 71
    case 20 => 73
    case 21 => 79
    case 22 => 83
    case 23 => 89
    case 24 => 97
    case 25 => 101
    case 26 => 103
    case 27 => 107
    case 28 => 109
    case 29 => 113
    case 30 => 127
    case 31 => 131
    case 32 => 137
    case 33 => 139
    case 34 => 149
    case 35 => 151
    case 36 => 157
    case 37 => 163
    case 38 => 167
    case 39 => 173
    case 40 => 179
    case 41 => 181
    case 42 => 191
    case 43 => 193
    case 44 => 197
    case 45 => 199
    case 46 => 211
    case 47 => 223
    case 48 => 227
    case 49 => 229
    case 50 => 233
    case 51 => 239
    case 52 => 241
    case 53 => 251
    case 54 => 257
    case 55 => 263
    case 56 => 269
    case 57 => 271
    case 58 => 277
    case 59 => 281
    case 60 => 283
    case 61 => 293
    case 62 => 307
    case _ => 311
  }

  predicate IsCubeRoot(p: nat, root: nat) {
    root * root * root <= p * 0x1_0000_0000_0000_0000_0000_0000 < (root + 1) * (root + 1) * (root + 1)
  }

  predicate IsSquareRoot(p: nat, root: nat) {
    root * root <= p * 0x1_0000_0000_0000_0000 < (root + 1) * (root + 1)
  }

  /** `k` is the first 32 bits of the fractional part of the cube root of `p`. */
  ghost predicate IsCubeRootFraction(p: nat, k: nat) {
    exists root: nat :: IsCubeRoot(p, root) && root % 0x1_0000_0000 == k
  }

  ghost predicate IsSquareRootFraction(p: nat, k: nat) {
    exists root: nat :: IsSquareRoot(p, root) && root % 0x1_0000_0000 == k
  }

  lemma CubeRootFraction(p: nat, whole: nat, k: nat)
    requires k < 0x1_0000_0000 && IsCubeRoot(p, whole * 0x1_0000_0000 + k)
    ensures IsCubeRootFraction(p, k)
  {
  }

  lemma SquareRootFraction(p: nat, whole: nat, k: nat)
    requires k < 0x1_0000_0000 && IsSquareRoot(p, whole * 0x1_0000_0000 + k)
    ensures IsSquareRootFraction(p, k)
  {
  }

  lemma RoundConstants0()
    ensures forall i | 0 <= i < 4 :: IsCubeRootFraction(Prime(i), RoundConstant(i))
  {
    CubeRootFraction(Prime(0), 1, RoundConstant(0));
    CubeRootFraction(Prime(1), 1, RoundConstant(1));
    CubeRootFraction(Prime(2), 1, RoundConstant(2));
    CubeRootFraction(Prime(3), 1, RoundConstant(3));
  }

  lemma RoundConstants4()
    ensures forall i | 4 <= i < 8 :: IsCubeRootFraction(Prime(i), RoundConstant(i))
  {
    CubeRootFraction(Prime(4), 2, RoundConstant(4));
    CubeRootFraction(Prime(5), 2, RoundConstant(5));
    CubeRootFraction(Prime(6), 2, RoundConstant(6));
    CubeRootFraction(Prime(7), 2, RoundConstant(7));
  }

  lemma RoundConstants8()
    ensures forall i | 8 <= i < 12 :: IsCubeRootFraction(Prime(i), RoundConstant(i))
  {
    CubeRootFraction(Prime(8), 2, RoundConstant(8));
    CubeRootFraction(Prime(9), 3, RoundConstant(9));
    CubeRootFraction(Prime(10), 3, RoundConstant(10));
    CubeRootFraction(Prime(11), 3, RoundConstant(11));
  }

  lemma RoundConstants12()
    ensures forall i | 12 <= i < 16 :: IsCubeRootFraction(Prime(i), RoundConstant(i))
  {
    CubeRootFraction(Prime(12), 3, RoundConstant(12));
    CubeRootFraction(Prime(13), 3, RoundConstant(13));
    CubeRootFraction(Prime(14), 3, RoundConstant(14));
    CubeRootFraction(Prime(15), 3, RoundConstant(15));
  }

  lemma RoundConstants16()
    ensures forall i | 16 <= i < 20 :: IsCubeRootFraction(Prime(i), RoundConstant(i))
  {
    CubeRootFraction(Prime(16), 3, RoundConstant(16));
    CubeRootFraction(Prime(17), 3, RoundConstant(17));
    CubeRootFraction(Prime(18), 4, RoundConstant(18));
    CubeRootFraction(Prime(19), 4, RoundConstant(19));
  }

  lemma RoundConstants20()
    ensures forall i | 20 <= i < 24 :: IsCubeRootFraction(Prime(i), RoundConstant(i))
  {
    CubeRootFraction(Prime(20), 4, RoundConstant(20));
    CubeRootFraction(Prime(21), 4, RoundConstant(21));
    CubeRootFraction(Prime(22), 4, RoundConstant(22));
    CubeRootFraction(Prime(23), 4, RoundConstant(23));
  }

  lemma RoundConstants24()
    ensures forall i | 24 <= i < 28 :: IsCubeRootFraction(Prime(i), RoundConstant(i))
  {
    CubeRootFraction(Prime(24), 4, RoundConstant(24));
    CubeRootFraction(Prime(25), 4, RoundConstant(25));
    CubeRootFraction(Prime(26), 4, RoundConstant(26));
    CubeRootFraction(Prime(27), 4, RoundConstant(27));
  }

  lemma RoundConstants28()
    ensures forall i | 28 <= i < 32 :: IsCubeRootFraction(Prime(i), RoundConstant(i))
  {
    CubeRootFraction(Prime(28), 4, RoundConstant(28));
    CubeRootFraction(Prime(29), 4, RoundConstant(29));
    CubeRootFraction(Prime(30), 5, RoundConstant(30));
    CubeRootFraction(Prime(31), 5, RoundConstant(31));
  }

  lemma RoundConstants32()
    ensures forall i | 32 <= i < 36 :: IsCubeRootFraction(Prime(i), RoundConstant(i))
  {
    CubeRootFraction(Prime(32), 5, RoundConstant(32));
    CubeRootFraction(Prime(33), 5, RoundConstant(33));
    CubeRootFraction(Prime(34), 5, RoundConstant(34));
    CubeRootFraction(Prime(35), 5, RoundConstant(35));
  }

  lemma RoundConstants36()
    ensures forall i | 36 <= i < 40 :: IsCubeRootFraction(Prime(i), RoundConstant(i))
  {
    CubeRootFraction(Prime(36), 5, RoundConstant(36));
    CubeRootFraction(Prime(37), 5, RoundConstant(37));
    CubeRootFraction(Prime(38), 5, RoundConstant(38));
    CubeRootFraction(Prime(39), 5, RoundConstant(39));
  }

  lemma RoundConstants40()
    ensures forall i | 40 <= i < 44 :: IsCubeRootFraction(Prime(i), RoundConstant(i))
  {
    CubeRootFraction(Prime(40), 5, RoundConstant(40));
    CubeRootFraction(Prime(41), 5, RoundConstant(41));
    CubeRootFraction(Prime(42), 5, RoundConstant(42));
    CubeRootFraction(Prime(43), 5, RoundConstant(43));
  }

  lemma RoundConstants44()
    ensures forall i | 44 <= i < 48 :: IsCubeRootFraction(Prime(i), RoundConstant(i))
  {
    CubeRootFraction(Prime(44), 5, RoundConstant(44));
    CubeRootFraction(Prime(45), 5, RoundConstant(45));
    CubeRootFraction(Prime(46), 5, RoundConstant(46));
    CubeRootFraction(Prime(47), 6, RoundConstant(47));
  }

  lemma RoundConstants48()
    ensures forall i | 48 <= i < 52 :: IsCubeRootFraction(Prime(i), RoundConstant(i))
  {
    CubeRootFraction(Prime(48), 6, RoundConstant(48));
    CubeRootFraction(Prime(49), 6, RoundConstant(49));
    CubeRootFraction(Prime(50), 6, RoundConstant(50));
    CubeRootFraction(Prime(51), 6, RoundConstant(51));
  }

  lemma RoundConstants52()
    ensures forall i | 52 <= i < 56 :: IsCubeRootFraction(Prime(i), RoundConstant(i))
  {
    CubeRootFraction(Prime(52), 6, RoundConstant(52));
    CubeRootFraction(Prime(53), 6, RoundConstant(53));
    CubeRootFraction(Prime(54), 6, RoundConstant(54));
    CubeRootFraction(Prime(55), 6, RoundConstant(55));
  }

  lemma RoundConstants56()
    ensures forall i | 56 <= i < 60 :: IsCubeRootFraction(Prime(i), RoundConstant(i))
  {
    CubeRootFraction(Prime(56), 6, RoundConstant(56));
    CubeRootFraction(Prime(57), 6, RoundConstant(57));
    CubeRootFraction(Prime(58), 6, RoundConstant(58));
    CubeRootFraction(Prime(59), 6, RoundConstant(59));
  }

  lemma RoundConstants60()
    ensures forall i | 60 <= i < 64 :: IsCubeRootFraction(Prime(i), RoundConstant(i))
  {
    CubeRootFraction(Prime(60), 6, RoundConstant(60));
    CubeRootFraction(Prime(61), 6, RoundConstant(61));
    CubeRootFraction(Prime(62), 6, RoundConstant(62));
    CubeRootFraction(Prime(63), 6, RoundConstant(63));
  }

  /** Every round constant is what section 4.2.2 defines it to be. */
  lemma RoundConstantsAreCubeRoots(i: nat)
    requires i < 64
    ensures IsCubeRootFraction(Prime(i), RoundConstant(i))
  {
    RoundConstants0();
    RoundConstants4();
    RoundConstants8();
    RoundConstants12();
    RoundConstants16();
    RoundConstants20();
    RoundConstants24();
    RoundConstants28();
    RoundConstants32();
    RoundConstants36();
    RoundConstants40();
    RoundConstants44();
    RoundConstants48();
    RoundConstants52();
    RoundConstants56();
    RoundConstants60();
  }

  datatype State = State(a: Word, b: Word, c: Word, d: Word, e: Word, f: Word, g: Word, h: Word)

  const INITIAL := State(0x6a09e667, 0xbb67ae85, 0x3c6ef372, 0xa54ff53a, 0x510e527f, 0x9b05688c, 0x1f83d9ab, 0x5be0cd19)

  /** Every initial hash word is what section 5.3.3 defines it to be. */
  lemma InitialWordsAreSquareRoots()
    ensures IsSquareRootFraction(Prime(0), INITIAL.a)
    ensures IsSquareRootFraction(Prime(1), INITIAL.b)
    ensures IsSquareRootFraction(Prime(2), INITIAL.c)
    ensures IsSquareRootFraction(Prime(3), INITIAL.d)
    ensures IsSquareRootFraction(Prime(4), INITIAL.e)
    ensures IsSquareRootFraction(Prime(5), INITIAL.f)
    ensures IsSquareRootFraction(Prime(6), INITIAL.g)
    ensures IsSquareRootFraction(Prime(7), INITIAL.h)
  {
    SquareRootFraction(Prime(0), 1, INITIAL.a);
    SquareRootFraction(Prime(1), 1, INITIAL.b);
    SquareRootFraction(Prime(2), 2, INITIAL.c);
    SquareRootFraction(Prime(3), 2, INITIAL.d);
    SquareRootFraction(Prime(4), 3, INITIAL.e);
    SquareRootFraction(Prime(5), 3, INITIAL.f);
    SquareRootFraction(Prime(6), 4, INITIAL.g);
    SquareRootFraction(Prime(7), 4, INITIAL.h);
  }

  // ----- word operations (sections 3.2 and 4.1.2) -----

  datatype Alu = Alu(
    add: (Word, Word) -> Word,
    ch: (Word, Word, Word) -> Word,
    maj: (Word, Word, Word) -> Word,
    big0: Word -> Word,
    big1: Word -> Word,
    small0: Word -> Word,
    small1: Word -> Word,
    constant: nat -> Word,
    join: (u8, u8, u8, u8) -> Word,
    hex: Word -> Hex8)

  function Bits(w: Word): bv32 {
    w as bv32
  }

  function FromBits(x: bv32): Word {
    x as nat
  }

  /** Addition modulo 2^32. */
  function Add(x: Word, y: Word): Word {
    (x + y) % 0x1_0000_0000
  }

  function Ch(x: Word, y: Word, z: Word): Word {
    FromBits((Bits(x) & Bits(y)) ^ (!Bits(x) & Bits(z)))
  }

  function Maj(x: Word, y: Word, z: Word): Word {
    FromBits((Bits(x) & Bits(y)) ^ (Bits(x) & Bits(z)) ^ (Bits(y) & Bits(z)))
  }

  function BigSigma0(w: Word): Word {
    var x := Bits(w);
    FromBits(x.RotateRight(2) ^ x.RotateRight(13) ^ x.RotateRight(22))
  }

  function BigSigma1(w: Word): Word {
    var x := Bits(w);
    FromBits(x.RotateRight(6) ^ x.RotateRight(11) ^ x.RotateRight(25))
  }

  function SmallSigma0(w: Word): Word {
    var x := Bits(w);
    FromBits(x.RotateRight(7) ^ x.RotateRight(18) ^ (x >> 3))
  }

  function SmallSigma1(w: Word): Word {
    var x := Bits(w);
    FromBits(x.RotateRight(17) ^ x.RotateRight(19) ^ (x >> 10))
  }

  function ConstantWord(i: nat): Word {
    if i < 64 then RoundConstant(i) else 0
  }

  /** Four bytes, most significant first. */
  function Join(p: u8, q: u8, r: u8, s: u8): Word {
    p * 0x100_0000 + q * 0x1_0000 + r * 0x100 + s
  }

  function HexWord(w: Word): Hex8 {
    FixedHex(w, 8)
  }

  /** The standard's operations. */
  const FIPS := Alu(Add, Ch, Maj, BigSigma0, BigSigma1, SmallSigma0, SmallSigma1, ConstantWord, Join, HexWord)

  /** A rotation to the right is two shifts, as section 3.2 has it. */
  lemma RotationsAreShifts(x: bv32)
    ensures x.RotateRight(2) == (x >> 2) | (x << 30) && x.RotateRight(6) == (x >> 6) | (x << 26)
    ensures x.RotateRight(7) == (x >> 7) | (x << 25) && x.RotateRight(11) == (x >> 11) | (x << 21)
    ensures x.RotateRight(13) == (x >> 13) | (x << 19) && x.RotateRight(17) == (x >> 17) | (x << 15)
    ensures x.RotateRight(18) == (x >> 18) | (x << 14) && x.RotateRight(19) == (x >> 19) | (x << 13)
    ensures x.RotateRight(22) == (x >> 22) | (x << 10) && x.RotateRight(25) == (x >> 25) | (x << 7)
  {
  }

  /** The bytes of a word, each widened and shifted to its place, overlap nowhere: their union is the word they spell. */
  lemma JoinIsShifts(p: bv8, q: bv8, r: bv8, s: bv8)
    ensures Join(p as nat, q as nat, r as nat, s as nat)
         == FromBits((p as bv32 << 24) | (q as bv32 << 16) | (r as bv32 << 8) | (s as bv32))
  {
    BytesSpell(p, q, r, s);
  }

  lemma BytesSpell(p: bv8, q: bv8, r: bv8, s: bv8)
    ensures ((p as bv32 << 24) | (q as bv32 << 16) | (r as bv32 << 8) | (s as bv32)) as nat
         == p as nat * 0x100_0000 + q as nat * 0x1_0000 + r as nat * 0x100 + s as nat
  {
  }

  function Sum(m: Alu, p: Word, q: Word, r: Word, s: Word): Word {
    m.add(m.add(m.add(p, q), r), s)
  }

  /** Four words may be added from either end. */
  ghost predicate AddsBothWays(m: Alu) {
    forall p: Word, q: Word, r: Word, s: Word :: Sum(m, p, q, r, s) == Sum(m, s, r, q, p)
  }

  lemma ReducedTerm(a: nat, b: nat)
    ensures (a % 0x1_0000_0000 + b) % 0x1_0000_0000 == (a + b) % 0x1_0000_0000
  {
  }

  lemma SumsReverse(p: nat, q: nat, r: nat, s: nat)
    ensures (((p + q) % 0x1_0000_0000 + r) % 0x1_0000_0000 + s) % 0x1_0000_0000
         == (((s + r) % 0x1_0000_0000 + q) % 0x1_0000_0000 + p) % 0x1_0000_0000
  {
    ReducedTerm(p + q, r);
    ReducedTerm(p + q + r, s);
    ReducedTerm(s + r, q);
    ReducedTerm(s + r + q, p);
  }

  lemma FipsSum(p: Word, q: Word, r: Word, s: Word)
    ensures Sum(FIPS, p, q, r, s) == (((p + q) % 0x1_0000_0000 + r) % 0x1_0000_0000 + s) % 0x1_0000_0000
  {
  }

  /** Addition modulo 2^32 adds both ways, so everything proved of such operations holds of the standard's. */
  lemma FipsAddsBothWays()
    ensures AddsBothWays(FIPS)
  {
    forall p: Word, q: Word, r: Word, s: Word ensures Sum(FIPS, p, q, r, s) == Sum(FIPS, s, r, q, p) {
      FipsSum(p, q, r, s);
      FipsSum(s, r, q, p);
      SumsReverse(p, q, r, s);
    }
  }

  // ----- the message schedule and the rounds (section 6.2.2) -----

  type Block = b: seq<u8> | |b| == 64 witness Zeros(64)

  function Zeros(n: nat): (z: seq<u8>)
    ensures |z| == n && forall i | 0 <= i < n :: z[i] == 0
  {
    if n == 0 then [] else [0] + Zeros(n - 1)
  }

  function Schedule(m: Alu, b: Block, t: nat): Word
    requires t < 64
  {
    if t < 16 then m.join(b[4 * t], b[4 * t + 1], b[4 * t + 2], b[4 * t + 3])
    else
      m.add(m.add(m.add(m.small1(Schedule(m, b, t - 2)), Schedule(m, b, t - 7)), m.small0(Schedule(m, b, t - 15))),
            Schedule(m, b, t - 16))
  }

  /** One round with constant `k` and schedule word `w`. */
  function Round(m: Alu, s: State, k: Word, w: Word): State {
    var t1 := m.add(m.add(m.add(m.add(s.h, m.big1(s.e)), m.ch(s.e, s.f, s.g)), k), w);
    var t2 := m.add(m.big0(s.a), m.maj(s.a, s.b, s.c));
    State(m.add(t1, t2), s.a, s.b, s.c, m.add(s.d, t1), s.e, s.f, s.g)
  }

  /** The sixty-four words of the schedule. */
  function ScheduleOf(m: Alu, b: Block): (ws: seq<Word>)
    ensures |ws| == 64 && forall t | 0 <= t < 64 :: ws[t] == Schedule(m, b, t)
  {
    seq(64, t requires 0 <= t < 64 => Schedule(m, b, t))
  }

  /** The working variables after one round per schedule word. */
  function Rounds(m: Alu, s: State, ws: seq<Word>): State {
    if ws == [] then s
    else
      var t := |ws| - 1;
      Round(m, Rounds(m, s, ws[..t]), m.constant(t), ws[t])
  }

  function Plus(m: Alu, s: State, t: State): State {
    State(m.add(s.a, t.a), m.add(s.b, t.b), m.add(s.c, t.c), m.add(s.d, t.d), m.add(s.e, t.e), m.add(s.f, t.f), m.add(s.g, t.g),
          m.add(s.h, t.h))
  }

  function Compress(m: Alu, s: State, b: Block): State {
    Plus(m, s, Rounds(m, s, ScheduleOf(m, b)))
  }

  type Compression = (State, Block) -> State

  function Compressor(m: Alu): Compression {
    (s: State, b: Block) => Compress(m, s, b)
  }

  // ----- padding, parsing and the digest -----

  /** Block `i` of a message. */
  function BlockAt(text: seq<u8>, i: nat): (b: Block)
    requires 64 * (i + 1) <= |text|
  {
    text[64 * i..64 * (i + 1)]
  }

  lemma BlockOfPrefix(text: seq<u8>, more: seq<u8>, i: nat)
    requires 64 * (i + 1) <= |text|
    ensures BlockAt(text + more, i) == BlockAt(text, i)
  {
  }

  /** The hash state after the first `n` blocks of a message. */
  function Process(compress: Compression, text: seq<u8>, n: nat): State
    requires 64 * n <= |text|
  {
    if n == 0 then INITIAL else compress(Process(compress, text, n - 1), BlockAt(text, n - 1))
  }

  /** The state after some blocks depends on those blocks alone. */
  lemma {:induction false} ProcessPrefix(compress: Compression, text: seq<u8>, more: seq<u8>, n: nat)
    requires 64 * n <= |text|
    ensures Process(compress, text + more, n) == Process(compress, text, n)
  {
    if n > 0 {
      ProcessPrefix(compress, text, more, n - 1);
      BlockOfPrefix(text, more, n - 1);
    }
  }

  /** Zero bytes between the 1 bit and the length. */
  function PadZeros(n: nat): (k: nat)
    ensures (n + 1 + k) % 64 == 56
  {
    if n % 64 < 56 then 55 - n % 64 else 119 - n % 64
  }

  /** Section 5.1.1: l + 1 + z = 448 (mod 512) in bits, with z the least such number. */
  lemma PaddingIsLeast(n: nat, z: nat)
    requires (8 * n + 1 + z) % 512 == 448
    ensures 7 + 8 * PadZeros(n) <= z && (8 * n + 1 + (7 + 8 * PadZeros(n))) % 512 == 448
  {
  }

  function Power256(k: nat): (p: nat)
    ensures p > 0
  {
    if k == 0 then 1 else 256 * Power256(k - 1)
  }

  /** Byte `k` of a number, the least significant being byte zero. */
  function NumberByte(n: nat, k: nat): u8 {
    n / Power256(k) % 256
  }

  /** The low eight bytes of a number, most significant first, from byte `k - 1` down. */
  function BytesOf(n: nat, k: nat): (r: seq<u8>)
    ensures |r| == k
  {
    if k == 0 then [] else [NumberByte(n, k - 1)] + BytesOf(n, k - 1)
  }

  function Padded(text: seq<u8>): (p: seq<u8>)
    ensures |p| == |text| + 1 + PadZeros(|text|) + 8 && |p| % 64 == 0
  {
    text + [0x80] + Zeros(PadZeros(|text|)) + BytesOf(8 * |text|, 8)
  }

  /** A number in exactly `width` lower-case hexadecimal digits. */
  function FixedHex(n: nat, width: nat): (t: Text)
    ensures |t| == width && forall i | 0 <= i < width :: IsHex(t[i])
  {
    if width == 0 then [] else FixedHex(n / 16, width - 1) + [HexDigit(n % 16)]
  }

  function Words(s: State): seq<Word> {
    [s.a, s.b, s.c, s.d, s.e, s.f, s.g, s.h]
  }

  function HexWords(m: Alu, ws: seq<Word>): (t: Text)
    ensures |t| == 8 * |ws| && forall i | 0 <= i < |t| :: IsHex(t[i])
  {
    if ws == [] then []
    else
      var last: Text := m.hex(ws[|ws| - 1]);
      HexWords(m, ws[..|ws| - 1]) + last
  }

  /** The SHA-256 digest of a message, as 64 lower-case hexadecimal characters. */
  function Digest256(m: Alu, text: seq<u8>): (d: Digest) {
    HexWords(m, Words(Process(Compressor(m), Padded(text), |Padded(text)| / 64)))
  }
}
