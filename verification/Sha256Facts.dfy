/** What the parts of SHA-256 are, in the terms of FIPS 180-4 and not of the code: bits,
    primes and roots. */
module Sha256Facts {
  import opened Common
  import opened Sha256

  // ------------------------------------------------------------------------ bit by bit

  /** Bit `i` of a word, counted from the low end. Index arithmetic is modulo 32. */
  predicate Bit(x: bv32, i: bv5) {
    (x >> i) & 1 == 1
  }

  lemma Sum0Bit(i: bv5)
    ensures Sum0(1 << i) == (1 << (i - 2)) | (1 << (i - 13)) | (1 << (i - 22))
  {
    if i == 0 {} else if i == 1 {} else if i == 2 {} else if i == 3 {} else if i == 4 {} else if i == 5 {}
    else if i == 6 {} else if i == 7 {} else if i == 8 {} else if i == 9 {} else if i == 10 {}
    else if i == 11 {} else if i == 12 {} else if i == 13 {} else if i == 14 {} else if i == 15 {}
    else if i == 16 {} else if i == 17 {} else if i == 18 {} else if i == 19 {} else if i == 20 {}
    else if i == 21 {} else if i == 22 {} else if i == 23 {} else if i == 24 {} else if i == 25 {}
    else if i == 26 {} else if i == 27 {} else if i == 28 {} else if i == 29 {} else if i == 30 {}
    else { assert i == 31; }
  }

  lemma Sum1Bit(i: bv5)
    ensures Sum1(1 << i) == (1 << (i - 6)) | (1 << (i - 11)) | (1 << (i - 25))
  {
    if i == 0 {} else if i == 1 {} else if i == 2 {} else if i == 3 {} else if i == 4 {} else if i == 5 {}
    else if i == 6 {} else if i == 7 {} else if i == 8 {} else if i == 9 {} else if i == 10 {}
    else if i == 11 {} else if i == 12 {} else if i == 13 {} else if i == 14 {} else if i == 15 {}
    else if i == 16 {} else if i == 17 {} else if i == 18 {} else if i == 19 {} else if i == 20 {}
    else if i == 21 {} else if i == 22 {} else if i == 23 {} else if i == 24 {} else if i == 25 {}
    else if i == 26 {} else if i == 27 {} else if i == 28 {} else if i == 29 {} else if i == 30 {}
    else { assert i == 31; }
  }

  lemma Sigma0Bit(i: bv5)
    ensures Sigma0(1 << i) == (1 << (i - 7)) | (1 << (i - 18)) | if i < 3 then 0 else 1 << (i - 3)
  {
    if i == 0 {} else if i == 1 {} else if i == 2 {} else if i == 3 {} else if i == 4 {} else if i == 5 {}
    else if i == 6 {} else if i == 7 {} else if i == 8 {} else if i == 9 {} else if i == 10 {}
    else if i == 11 {} else if i == 12 {} else if i == 13 {} else if i == 14 {} else if i == 15 {}
    else if i == 16 {} else if i == 17 {} else if i == 18 {} else if i == 19 {} else if i == 20 {}
    else if i == 21 {} else if i == 22 {} else if i == 23 {} else if i == 24 {} else if i == 25 {}
    else if i == 26 {} else if i == 27 {} else if i == 28 {} else if i == 29 {} else if i == 30 {}
    else { assert i == 31; }
  }

  lemma Sigma1Bit(i: bv5)
    ensures Sigma1(1 << i) == (1 << (i - 17)) | (1 << (i - 19)) | if i < 10 then 0 else 1 << (i - 10)
  {
    if i == 0 {} else if i == 1 {} else if i == 2 {} else if i == 3 {} else if i == 4 {} else if i == 5 {}
    else if i == 6 {} else if i == 7 {} else if i == 8 {} else if i == 9 {} else if i == 10 {}
    else if i == 11 {} else if i == 12 {} else if i == 13 {} else if i == 14 {} else if i == 15 {}
    else if i == 16 {} else if i == 17 {} else if i == 18 {} else if i == 19 {} else if i == 20 {}
    else if i == 21 {} else if i == 22 {} else if i == 23 {} else if i == 24 {} else if i == 25 {}
    else if i == 26 {} else if i == 27 {} else if i == 28 {} else if i == 29 {} else if i == 30 {}
    else { assert i == 31; }
  }

  lemma Chosen(e: bv32, f: bv32, g: bv32, i: bv5)
    requires Bit(e, i)
    ensures Bit(Choose(e, f, g), i) == Bit(f, i)
  {
  }

  lemma NotChosen(e: bv32, f: bv32, g: bv32, i: bv5)
    requires !Bit(e, i)
    ensures Bit(Choose(e, f, g), i) == Bit(g, i)
  {
  }

  /** Each bit of `e` selects a bit of `f` or of `g`. */
  lemma ChooseBits(e: bv32, f: bv32, g: bv32, i: bv5)
    ensures Bit(Choose(e, f, g), i) == if Bit(e, i) then Bit(f, i) else Bit(g, i)
  {
    hide Bit, Choose;
    if Bit(e, i) { Chosen(e, f, g, i); } else { NotChosen(e, f, g, i); }
  }

  lemma TwoAgree(a: bv32, b: bv32, c: bv32, i: bv5)
    ensures Bit(a, i) == Bit(b, i) ==> Bit(Majority(a, b, c), i) == Bit(a, i)
  {
    if Bit(a, i) {} else {}
  }

  lemma MajoritySymmetric(a: bv32, b: bv32, c: bv32)
    ensures Majority(a, b, c) == Majority(a, c, b) == Majority(b, c, a)
  {
  }

  function Count(b: bool): nat { if b then 1 else 0 }

  /** A bit is set when at least two of the three are. */
  lemma MajorityBits(a: bv32, b: bv32, c: bv32, i: bv5)
    ensures Bit(Majority(a, b, c), i) <==> Count(Bit(a, i)) + Count(Bit(b, i)) + Count(Bit(c, i)) >= 2
  {
    hide Bit, Majority;
    MajoritySymmetric(a, b, c);
    TwoAgree(a, b, c, i);
    TwoAgree(a, c, b, i);
    TwoAgree(b, c, a, i);
  }

  // ----------------------------------------------------------------- words and bytes

  /** Four bytes as a word, the first one highest. */
  function Joined(a: bv8, b: bv8, c: bv8, d: bv8): bv32 {
    (a as bv32 << 24) | (b as bv32 << 16) | (c as bv32 << 8) | d as bv32
  }

  lemma JoinedOut(a: bv8, b: bv8, c: bv8, d: bv8)
    ensures WordOut(Joined(a, b, c, d)) == [a, b, c, d]
  {
  }

  lemma OutJoined(w: bv32)
    ensures var b := WordOut(w); Joined(b[0], b[1], b[2], b[3]) == w
  {
  }

  lemma ByteBits(b: Byte)
    ensures b as bv32 == (b as bv8) as bv32
  {
  }

  /** Reading a word from a block and writing it out gives the bytes of the block. */
  lemma WordBytes(block: Bytes, i: nat)
    requires |block| == 64 && i < 16
    ensures WordOut(Word(block, i)) ==
            [block[4 * i] as bv8, block[4 * i + 1] as bv8, block[4 * i + 2] as bv8, block[4 * i + 3] as bv8]
  {
    hide WordOut;
    var a, b, c, d := block[4 * i], block[4 * i + 1], block[4 * i + 2], block[4 * i + 3];
    ByteBits(a);
    ByteBits(b);
    ByteBits(c);
    ByteBits(d);
    JoinedOut(a as bv8, b as bv8, c as bv8, d as bv8);
  }

  /** The registers in order. */
  function Register(v: Regs, i: nat): bv32
    requires i < 8
  {
    if i == 0 then v.a else if i == 1 then v.b else if i == 2 then v.c else if i == 3 then v.d
    else if i == 4 then v.e else if i == 5 then v.f else if i == 6 then v.g else v.h
  }

  lemma Pieces(a: seq<bv8>, b: seq<bv8>, c: seq<bv8>, d: seq<bv8>, e: seq<bv8>, f: seq<bv8>, g: seq<bv8>,
               h: seq<bv8>, j: nat)
    requires |a| == |b| == |c| == |d| == |e| == |f| == |g| == |h| == 4 && j < 4
    ensures var s := a + b + c + d + e + f + g + h;
            && s[j] == a[j] && s[4 + j] == b[j] && s[8 + j] == c[j] && s[12 + j] == d[j]
            && s[16 + j] == e[j] && s[20 + j] == f[j] && s[24 + j] == g[j] && s[28 + j] == h[j]
  {
  }

  lemma OutputWord(v: Regs, i: nat, j: nat)
    requires i < 8 && j < 4
    ensures Output(v)[4 * i + j] == WordOut(Register(v, i))[j]
  {
    hide WordOut;
    Pieces(WordOut(v.a), WordOut(v.b), WordOut(v.c), WordOut(v.d), WordOut(v.e), WordOut(v.f), WordOut(v.g),
           WordOut(v.h), j);
  }

  /** The digest read as eight words, high bytes first, is the final registers. */
  lemma DigestWords(m: Bytes, i: nat)
    requires i < 8
    ensures |Digest(m)| == 32
    ensures var d := Digest(m);
            Joined(d[4 * i], d[4 * i + 1], d[4 * i + 2], d[4 * i + 3]) == Register(Fold(H0, Pad(m)), i)
  {
    hide Fold, Pad, Joined, Output, WordOut, Register;
    var v := Fold(H0, Pad(m));
    forall j | 0 <= j < 4
      ensures Output(v)[4 * i + j] == WordOut(Register(v, i))[j]
    {
      OutputWord(v, i, j);
    }
    OutJoined(Register(v, i));
    assert Digest(m) == Output(v);
  }

  // --------------------------------------------------------------------- the constants

  predicate Divides(d: nat, n: nat)
    requires d > 0
  {
    n % d == 0
  }

  predicate Prime(n: nat) {
    n >= 2 && forall d :: 2 <= d < n ==> !Divides(d, n)
  }

  function PrimesUpTo(n: nat): nat {
    if n == 0 then 0 else PrimesUpTo(n - 1) + if Prime(n) then 1 else 0
  }

  /** `p` is the prime number `n`, the first one being 2. */
  predicate IsNthPrime(p: nat, n: nat) {
    Prime(p) && PrimesUpTo(p) == n
  }

  predicate UndividedBySmall(n: nat) {
    (n <= 2 || n % 2 != 0) && (n <= 3 || n % 3 != 0) && (n <= 5 || n % 5 != 0) && (n <= 7 || n % 7 != 0)
  }

  predicate UndividedByLarge(n: nat) {
    (n <= 11 || n % 11 != 0) && (n <= 13 || n % 13 != 0) && (n <= 17 || n % 17 != 0)
  }

  /** Trial division, enough for numbers below 361. */
  predicate Undivided(n: nat) {
    n >= 2 && UndividedBySmall(n) && UndividedByLarge(n)
  }

  lemma SmallMultiple(n: nat, k: nat)
    requires k >= 2 && (n == 2 * k || n == 3 * k || n == 5 * k || n == 7 * k)
    ensures !UndividedBySmall(n)
  {
  }

  lemma LargeMultiple(n: nat, k: nat)
    requires k >= 2 && (n == 11 * k || n == 13 * k || n == 17 * k)
    ensures !UndividedByLarge(n)
  {
    if n == 11 * k {} else if n == 13 * k {} else { assert n == 17 * k; }
  }

  lemma SmallFactor(d: nat, e: nat)
    requires 2 <= d < 19 && e >= 2
    ensures !Undivided(d * e)
  {
    hide UndividedBySmall, UndividedByLarge;
    var n := d * e;
    if d % 2 == 0 {
      SmallMultiple(n, d / 2 * e);
    } else if d % 3 == 0 {
      SmallMultiple(n, d / 3 * e);
    } else if d % 5 == 0 {
      SmallMultiple(n, d / 5 * e);
    } else if d == 7 {
      SmallMultiple(n, e);
    } else {
      LargeMultiple(n, e);
    }
  }

  lemma TrialDivision(n: nat)
    requires n < 361
    ensures Prime(n) <==> Undivided(n)
  {
    if Prime(n) {
      assert (n > 2 ==> !Divides(2, n)) && (n > 3 ==> !Divides(3, n)) && (n > 5 ==> !Divides(5, n));
      assert (n > 7 ==> !Divides(7, n)) && (n > 11 ==> !Divides(11, n)) && (n > 13 ==> !Divides(13, n));
      assert n > 17 ==> !Divides(17, n);
    } else if n >= 2 {
      var d :| 2 <= d < n && Divides(d, n);
      Cofactor(n, d);
    }
  }

  lemma Cofactor(n: nat, d: nat)
    requires 2 <= d < n < 361 && Divides(d, n)
    ensures !Undivided(n)
  {
    var e := n / d;
    assert n == d * e;
    hide Undivided, Divides;
    assert e >= 2;
    if d < 19 {
      SmallFactor(d, e);
    } else {
      assert e < 19;
      SmallFactor(e, d);
      assert d * e == e * d;
    }
  }

  predicate NoneBetween(p: nat, q: nat)
    decreases q
  {
    q <= p + 1 || (!Undivided(q - 1) && NoneBetween(p, q - 1))
  }

  lemma {:induction false} CountStays(p: nat, q: nat)
    requires p < q < 361 && NoneBetween(p, q)
    ensures PrimesUpTo(q - 1) == PrimesUpTo(p)
  {
    hide Undivided, Prime;
    if q > p + 1 {
      CountStays(p, q - 1);
      TrialDivision(q - 1);
    }
  }

  lemma NextPrime(p: nat, q: nat, n: nat)
    requires p < q < 361 && (p == n == 0 || IsNthPrime(p, n)) && Undivided(q) && NoneBetween(p, q)
    ensures IsNthPrime(q, n + 1)
  {
    hide Undivided, Prime, NoneBetween;
    CountStays(p, q);
    TrialDivision(q);
  }

  const TWO_32: nat := 0x1_0000_0000
  const TWO_96: nat := TWO_32 * TWO_64

  predicate IsCubeRoot(r: nat, p: nat) {
    r * r * r <= p * TWO_96 < (r + 1) * (r + 1) * (r + 1)
  }

  predicate IsSquareRoot(r: nat, p: nat) {
    r * r <= p * TWO_64 < (r + 1) * (r + 1)
  }

  /** The whole part of the cube root of a number from 2 to 342. */
  function CubeFloor(p: nat): nat {
    if p < 8 then 1 else if p < 27 then 2 else if p < 64 then 3 else if p < 125 then 4 else if p < 216 then 5 else 6
  }

  /** The word is the first 32 bits after the binary point of the cube root. */
  predicate CubeRootBits(x: bv32, p: nat) {
    IsCubeRoot(CubeFloor(p) * TWO_32 + x as nat, p)
  }

  lemma Primes0a()
    ensures IsNthPrime(2, 1) && IsNthPrime(3, 2) && IsNthPrime(5, 3) && IsNthPrime(7, 4)
  {
    hide IsNthPrime;
    NextPrime(0, 2, 0);
    NextPrime(2, 3, 1);
    NextPrime(3, 5, 2);
    NextPrime(5, 7, 3);
  }

  lemma Primes0b()
    ensures IsNthPrime(11, 5) && IsNthPrime(13, 6) && IsNthPrime(17, 7) && IsNthPrime(19, 8)
  {
    Primes0a();
    hide IsNthPrime;
    NextPrime(7, 11, 4);
    NextPrime(11, 13, 5);
    NextPrime(13, 17, 6);
    NextPrime(17, 19, 7);
  }

  lemma Primes1a()
    ensures IsNthPrime(23, 9) && IsNthPrime(29, 10) && IsNthPrime(31, 11) && IsNthPrime(37, 12)
  {
    Primes0b();
    hide IsNthPrime;
    NextPrime(19, 23, 8);
    NextPrime(23, 29, 9);
    NextPrime(29, 31, 10);
    NextPrime(31, 37, 11);
  }

  lemma Primes1b()
    ensures IsNthPrime(41, 13) && IsNthPrime(43, 14) && IsNthPrime(47, 15) && IsNthPrime(53, 16)
  {
    Primes1a();
    hide IsNthPrime;
    NextPrime(37, 41, 12);
    NextPrime(41, 43, 13);
    NextPrime(43, 47, 14);
    NextPrime(47, 53, 15);
  }

  lemma Primes2a()
    ensures IsNthPrime(59, 17) && IsNthPrime(61, 18) && IsNthPrime(67, 19) && IsNthPrime(71, 20)
  {
    Primes1b();
    hide IsNthPrime;
    NextPrime(53, 59, 16);
    NextPrime(59, 61, 17);
    NextPrime(61, 67, 18);
    NextPrime(67, 71, 19);
  }

  lemma Primes2b()
    ensures IsNthPrime(73, 21) && IsNthPrime(79, 22) && IsNthPrime(83, 23) && IsNthPrime(89, 24)
  {
    Primes2a();
    hide IsNthPrime;
    NextPrime(71, 73, 20);
    NextPrime(73, 79, 21);
    NextPrime(79, 83, 22);
    NextPrime(83, 89, 23);
  }

  lemma Primes3a()
    ensures IsNthPrime(97, 25) && IsNthPrime(101, 26) && IsNthPrime(103, 27) && IsNthPrime(107, 28)
  {
    Primes2b();
    hide IsNthPrime;
    NextPrime(89, 97, 24);
    NextPrime(97, 101, 25);
    NextPrime(101, 103, 26);
    NextPrime(103, 107, 27);
  }

  lemma Primes3b()
    ensures IsNthPrime(109, 29) && IsNthPrime(113, 30) && IsNthPrime(127, 31) && IsNthPrime(131, 32)
  {
    Primes3a();
    hide IsNthPrime;
    NextPrime(107, 109, 28);
    NextPrime(109, 113, 29);
    NextPrime(113, 127, 30);
    NextPrime(127, 131, 31);
  }

  lemma Primes4a()
    ensures IsNthPrime(137, 33) && IsNthPrime(139, 34) && IsNthPrime(149, 35) && IsNthPrime(151, 36)
  {
    Primes3b();
    hide IsNthPrime;
    NextPrime(131, 137, 32);
    NextPrime(137, 139, 33);
    NextPrime(139, 149, 34);
    NextPrime(149, 151, 35);
  }

  lemma Primes4b()
    ensures IsNthPrime(157, 37) && IsNthPrime(163, 38) && IsNthPrime(167, 39) && IsNthPrime(173, 40)
  {
    Primes4a();
    hide IsNthPrime;
    NextPrime(151, 157, 36);
    NextPrime(157, 163, 37);
    NextPrime(163, 167, 38);
    NextPrime(167, 173, 39);
  }

  lemma Primes5a()
    ensures IsNthPrime(179, 41) && IsNthPrime(181, 42) && IsNthPrime(191, 43) && IsNthPrime(193, 44)
  {
    Primes4b();
    hide IsNthPrime;
    NextPrime(173, 179, 40);
    NextPrime(179, 181, 41);
    NextPrime(181, 191, 42);
    NextPrime(191, 193, 43);
  }

  lemma Primes5b()
    ensures IsNthPrime(197, 45) && IsNthPrime(199, 46) && IsNthPrime(211, 47) && IsNthPrime(223, 48)
  {
    Primes5a();
    hide IsNthPrime;
    NextPrime(193, 197, 44);
    NextPrime(197, 199, 45);
    NextPrime(199, 211, 46);
    NextPrime(211, 223, 47);
  }

  lemma Primes6a()
    ensures IsNthPrime(227, 49) && IsNthPrime(229, 50) && IsNthPrime(233, 51) && IsNthPrime(239, 52)
  {
    Primes5b();
    hide IsNthPrime;
    NextPrime(223, 227, 48);
    NextPrime(227, 229, 49);
    NextPrime(229, 233, 50);
    NextPrime(233, 239, 51);
  }

  lemma Primes6b()
    ensures IsNthPrime(241, 53) && IsNthPrime(251, 54) && IsNthPrime(257, 55) && IsNthPrime(263, 56)
  {
    Primes6a();
    hide IsNthPrime;
    NextPrime(239, 241, 52);
    NextPrime(241, 251, 53);
    NextPrime(251, 257, 54);
    NextPrime(257, 263, 55);
  }

  lemma Primes7a()
    ensures IsNthPrime(269, 57) && IsNthPrime(271, 58) && IsNthPrime(277, 59) && IsNthPrime(281, 60)
  {
    Primes6b();
    hide IsNthPrime;
    NextPrime(263, 269, 56);
    NextPrime(269, 271, 57);
    NextPrime(271, 277, 58);
    NextPrime(277, 281, 59);
  }

  lemma Primes7b()
    ensures IsNthPrime(283, 61) && IsNthPrime(293, 62) && IsNthPrime(307, 63) && IsNthPrime(311, 64)
  {
    Primes7a();
    hide IsNthPrime;
    NextPrime(281, 283, 60);
    NextPrime(283, 293, 61);
    NextPrime(293, 307, 62);
    NextPrime(307, 311, 63);
  }

  lemma Row0(i: nat) returns (p: nat)
    requires 0 <= i < 8
    ensures IsNthPrime(p, i + 1) && CubeRootBits(K[i], p)
  {
    hide IsNthPrime;
    Primes0a();
    Primes0b();
    if i == 0 { p := 2; assert CubeRootBits(0x428a2f98, 2); }
    else if i == 1 { p := 3; assert CubeRootBits(0x71374491, 3); }
    else if i == 2 { p := 5; assert CubeRootBits(0xb5c0fbcf, 5); }
    else if i == 3 { p := 7; assert CubeRootBits(0xe9b5dba5, 7); }
    else if i == 4 { p := 11; assert CubeRootBits(0x3956c25b, 11); }
    else if i == 5 { p := 13; assert CubeRootBits(0x59f111f1, 13); }
    else if i == 6 { p := 17; assert CubeRootBits(0x923f82a4, 17); }
    else { assert i == 7; p := 19; assert CubeRootBits(0xab1c5ed5, 19); }
  }

  lemma Row1(i: nat) returns (p: nat)
    requires 8 <= i < 16
    ensures IsNthPrime(p, i + 1) && CubeRootBits(K[i], p)
  {
    hide IsNthPrime;
    Primes1a();
    Primes1b();
    if i == 8 { p := 23; assert CubeRootBits(0xd807aa98, 23); }
    else if i == 9 { p := 29; assert CubeRootBits(0x12835b01, 29); }
    else if i == 10 { p := 31; assert CubeRootBits(0x243185be, 31); }
    else if i == 11 { p := 37; assert CubeRootBits(0x550c7dc3, 37); }
    else if i == 12 { p := 41; assert CubeRootBits(0x72be5d74, 41); }
    else if i == 13 { p := 43; assert CubeRootBits(0x80deb1fe, 43); }
    else if i == 14 { p := 47; assert CubeRootBits(0x9bdc06a7, 47); }
    else { assert i == 15; p := 53; assert CubeRootBits(0xc19bf174, 53); }
  }

  lemma Row2(i: nat) returns (p: nat)
    requires 16 <= i < 24
    ensures IsNthPrime(p, i + 1) && CubeRootBits(K[i], p)
  {
    hide IsNthPrime;
    Primes2a();
    Primes2b();
    if i == 16 { p := 59; assert CubeRootBits(0xe49b69c1, 59); }
    else if i == 17 { p := 61; assert CubeRootBits(0xefbe4786, 61); }
    else if i == 18 { p := 67; assert CubeRootBits(0x0fc19dc6, 67); }
    else if i == 19 { p := 71; assert CubeRootBits(0x240ca1cc, 71); }
    else if i == 20 { p := 73; assert CubeRootBits(0x2de92c6f, 73); }
    else if i == 21 { p := 79; assert CubeRootBits(0x4a7484aa, 79); }
    else if i == 22 { p := 83; assert CubeRootBits(0x5cb0a9dc, 83); }
    else { assert i == 23; p := 89; assert CubeRootBits(0x76f988da, 89); }
  }

  lemma Row3(i: nat) returns (p: nat)
    requires 24 <= i < 32
    ensures IsNthPrime(p, i + 1) && CubeRootBits(K[i], p)
  {
    hide IsNthPrime;
    Primes3a();
    Primes3b();
    if i == 24 { p := 97; assert CubeRootBits(0x983e5152, 97); }
    else if i == 25 { p := 101; assert CubeRootBits(0xa831c66d, 101); }
    else if i == 26 { p := 103; assert CubeRootBits(0xb00327c8, 103); }
    else if i == 27 { p := 107; assert CubeRootBits(0xbf597fc7, 107); }
    else if i == 28 { p := 109; assert CubeRootBits(0xc6e00bf3, 109); }
    else if i == 29 { p := 113; assert CubeRootBits(0xd5a79147, 113); }
    else if i == 30 { p := 127; assert CubeRootBits(0x06ca6351, 127); }
    else { assert i == 31; p := 131; assert CubeRootBits(0x14292967, 131); }
  }

  lemma Row4(i: nat) returns (p: nat)
    requires 32 <= i < 40
    ensures IsNthPrime(p, i + 1) && CubeRootBits(K[i], p)
  {
    hide IsNthPrime;
    Primes4a();
    Primes4b();
    if i == 32 { p := 137; assert CubeRootBits(0x27b70a85, 137); }
    else if i == 33 { p := 139; assert CubeRootBits(0x2e1b2138, 139); }
    else if i == 34 { p := 149; assert CubeRootBits(0x4d2c6dfc, 149); }
    else if i == 35 { p := 151; assert CubeRootBits(0x53380d13, 151); }
    else if i == 36 { p := 157; assert CubeRootBits(0x650a7354, 157); }
    else if i == 37 { p := 163; assert CubeRootBits(0x766a0abb, 163); }
    else if i == 38 { p := 167; assert CubeRootBits(0x81c2c92e, 167); }
    else { assert i == 39; p := 173; assert CubeRootBits(0x92722c85, 173); }
  }

  lemma Row5(i: nat) returns (p: nat)
    requires 40 <= i < 48
    ensures IsNthPrime(p, i + 1) && CubeRootBits(K[i], p)
  {
    hide IsNthPrime;
    Primes5a();
    Primes5b();
    if i == 40 { p := 179; assert CubeRootBits(0xa2bfe8a1, 179); }
    else if i == 41 { p := 181; assert CubeRootBits(0xa81a664b, 181); }
    else if i == 42 { p := 191; assert CubeRootBits(0xc24b8b70, 191); }
    else if i == 43 { p := 193; assert CubeRootBits(0xc76c51a3, 193); }
    else if i == 44 { p := 197; assert CubeRootBits(0xd192e819, 197); }
    else if i == 45 { p := 199; assert CubeRootBits(0xd6990624, 199); }
    else if i == 46 { p := 211; assert CubeRootBits(0xf40e3585, 211); }
    else { assert i == 47; p := 223; assert CubeRootBits(0x106aa070, 223); }
  }

  lemma Row6(i: nat) returns (p: nat)
    requires 48 <= i < 56
    ensures IsNthPrime(p, i + 1) && CubeRootBits(K[i], p)
  {
    hide IsNthPrime;
    Primes6a();
    Primes6b();
    if i == 48 { p := 227; assert CubeRootBits(0x19a4c116, 227); }
    else if i == 49 { p := 229; assert CubeRootBits(0x1e376c08, 229); }
    else if i == 50 { p := 233; assert CubeRootBits(0x2748774c, 233); }
    else if i == 51 { p := 239; assert CubeRootBits(0x34b0bcb5, 239); }
    else if i == 52 { p := 241; assert CubeRootBits(0x391c0cb3, 241); }
    else if i == 53 { p := 251; assert CubeRootBits(0x4ed8aa4a, 251); }
    else if i == 54 { p := 257; assert CubeRootBits(0x5b9cca4f, 257); }
    else { assert i == 55; p := 263; assert CubeRootBits(0x682e6ff3, 263); }
  }

  lemma Row7(i: nat) returns (p: nat)
    requires 56 <= i < 64
    ensures IsNthPrime(p, i + 1) && CubeRootBits(K[i], p)
  {
    hide IsNthPrime;
    Primes7a();
    Primes7b();
    if i == 56 { p := 269; assert CubeRootBits(0x748f82ee, 269); }
    else if i == 57 { p := 271; assert CubeRootBits(0x78a5636f, 271); }
    else if i == 58 { p := 277; assert CubeRootBits(0x84c87814, 277); }
    else if i == 59 { p := 281; assert CubeRootBits(0x8cc70208, 281); }
    else if i == 60 { p := 283; assert CubeRootBits(0x90befffa, 283); }
    else if i == 61 { p := 293; assert CubeRootBits(0xa4506ceb, 293); }
    else if i == 62 { p := 307; assert CubeRootBits(0xbef9a3f7, 307); }
    else { assert i == 63; p := 311; assert CubeRootBits(0xc67178f2, 311); }
  }

  lemma Row(i: nat) returns (p: nat)
    requires i < 64
    ensures IsNthPrime(p, i + 1) && CubeRootBits(K[i], p)
  {
    hide *;
    if i < 8 { p := Row0(i); } else if i < 16 { p := Row1(i); } else if i < 24 { p := Row2(i); }
    else if i < 32 { p := Row3(i); } else if i < 40 { p := Row4(i); } else if i < 48 { p := Row5(i); }
    else if i < 56 { p := Row6(i); } else { p := Row7(i); }
  }

  /** Each round constant is the first 32 bits of the fraction of the cube root of a prime: constant
      number 0 of the first one, 2, and so on. */
  lemma ConstantIsCubeRoot(i: nat) returns (p: nat, r: nat)
    requires i < 64
    ensures IsNthPrime(p, i + 1) && IsCubeRoot(r, p) && K[i] as nat == r % TWO_32
  {
    assert |K| == 64;
    hide IsNthPrime, IsCubeRoot, K, CubeFloor;
    p := Row(i);
    r := CubeFloor(p) * TWO_32 + K[i] as nat;
    Fraction(CubeFloor(p), K[i] as nat);
  }

  lemma Fraction(whole: nat, x: nat)
    requires x < TWO_32
    ensures (whole * TWO_32 + x) % TWO_32 == x
  {
  }

  /** The initial registers come from the square roots of the first eight primes. */
  lemma InitialIsSquareRoot(i: nat) returns (p: nat, r: nat)
    requires i < 8
    ensures IsNthPrime(p, i + 1) && IsSquareRoot(r, p) && Register(H0, i) as nat == r % TWO_32
  {
    hide IsNthPrime;
    Primes0a();
    Primes0b();
    if i == 0 { p, r := 2, 0x1_6a09e667; } else if i == 1 { p, r := 3, 0x1_bb67ae85; }
    else if i == 2 { p, r := 5, 0x2_3c6ef372; } else if i == 3 { p, r := 7, 0x2_a54ff53a; }
    else if i == 4 { p, r := 11, 0x3_510e527f; } else if i == 5 { p, r := 13, 0x3_9b05688c; }
    else if i == 6 { p, r := 17, 0x4_1f83d9ab; } else { p, r := 19, 0x4_5be0cd19; }
  }

  // ------------------------------------------------------------------------ the padding

  lemma {:induction false} BigEndianValue(n: nat, count: nat)
    requires n < Pow256(count)
    ensures ValueOf(BigEndian(n, count)) == n
  {
    if count > 0 {
      BigEndianValue(n / 256, count - 1);
      assert BigEndian(n, count)[..count - 1] == BigEndian(n / 256, count - 1);
    }
  }

  /** A padded message is the message, a one bit, as few zeros as make whole blocks, and the
      message's length in bits, modulo 2^64. */
  lemma PadMeans(m: Bytes)
    ensures var p := Pad(m);
            && |p| % 64 == 0 && |m| + 9 <= |p| < |m| + 73
            && p[..|m|] == m && p[|m|] == 0x80 && (forall k :: |m| < k < |p| - 8 ==> p[k] == 0)
            && ValueOf(p[|p| - 8..]) == 8 * |m| % TWO_64
  {
    PadAligned(m);
    ZerosAreZero(ZeroCount(|m|));
    BytesOfTwo64();
    BigEndianValue(8 * |m| % TWO_64, 8);
    hide Zeros, ZeroCount, BigEndian, ValueOf;
    var p, z := Pad(m), Zeros(ZeroCount(|m|));
    assert p[|p| - 8..] == BigEndian(8 * |m| % TWO_64, 8);
    assert forall k :: |m| < k < |p| - 8 ==> p[k] == z[k - |m| - 1];
  }

  lemma {:induction false} ZerosAreZero(n: nat)
    ensures forall i :: 0 <= i < n ==> Zeros(n)[i] == 0
  {
    if n > 0 { ZerosAreZero(n - 1); }
  }
}
