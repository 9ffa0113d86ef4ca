/** SHA-256 as the program computes it, in a stream, against the one-shot
    definition of FIPS 180-4: pad the message, fold the compression function over
    its 64-byte blocks (sections 5.1.1 and 6.2.2). */
module Sha256 {
  import opened Common

  const K: seq<bv32> :=
    [0x428a2f98, 0x71374491, 0xb5c0fbcf, 0xe9b5dba5, 0x3956c25b, 0x59f111f1, 0x923f82a4, 0xab1c5ed5]
    + [0xd807aa98, 0x12835b01, 0x243185be, 0x550c7dc3, 0x72be5d74, 0x80deb1fe, 0x9bdc06a7, 0xc19bf174]
    + [0xe49b69c1, 0xefbe4786, 0x0fc19dc6, 0x240ca1cc, 0x2de92c6f, 0x4a7484aa, 0x5cb0a9dc, 0x76f988da]
    + [0x983e5152, 0xa831c66d, 0xb00327c8, 0xbf597fc7, 0xc6e00bf3, 0xd5a79147, 0x06ca6351, 0x14292967]
    + [0x27b70a85, 0x2e1b2138, 0x4d2c6dfc, 0x53380d13, 0x650a7354, 0x766a0abb, 0x81c2c92e, 0x92722c85]
    + [0xa2bfe8a1, 0xa81a664b, 0xc24b8b70, 0xc76c51a3, 0xd192e819, 0xd6990624, 0xf40e3585, 0x106aa070]
    + [0x19a4c116, 0x1e376c08, 0x2748774c, 0x34b0bcb5, 0x391c0cb3, 0x4ed8aa4a, 0x5b9cca4f, 0x682e6ff3]
    + [0x748f82ee, 0x78a5636f, 0x84c87814, 0x8cc70208, 0x90befffa, 0xa4506ceb, 0xbef9a3f7, 0xc67178f2]

  /** The eight working registers. */
  datatype Regs = Regs(a: bv32, b: bv32, c: bv32, d: bv32, e: bv32, f: bv32, g: bv32, h: bv32)

  const H0 := Regs(0x6a09e667, 0xbb67ae85, 0x3c6ef372, 0xa54ff53a, 0x510e527f, 0x9b05688c, 0x1f83d9ab, 0x5be0cd19)

  // ---------------------------------------------------------------- compression

  function Rotr(x: bv32, n: nat): bv32
    requires 0 < n < 32
  {
    (x >> n) | (x << (32 - n))
  }

  /** The big-endian word at `4 * i` of a block. */
  function Word(block: Bytes, i: nat): bv32
    requires |block| == 64 && i < 16
  {
    (block[4 * i] as bv32 << 24) | (block[4 * i + 1] as bv32 << 16)
    | (block[4 * i + 2] as bv32 << 8) | block[4 * i + 3] as bv32
  }

  function Sigma0(x: bv32): bv32 { Rotr(x, 7) ^ Rotr(x, 18) ^ (x >> 3) }

  function Sigma1(x: bv32): bv32 { Rotr(x, 17) ^ Rotr(x, 19) ^ (x >> 10) }

  function Mix(w16: bv32, w15: bv32, w7: bv32, w2: bv32): bv32 { w16 + Sigma0(w15) + w7 + Sigma1(w2) }

  /** Word `i` of the message schedule. */
  function Schedule(block: Bytes, i: nat): bv32
    requires |block| == 64 && i < 64
  {
    if i < 16 then Word(block, i)
    else Mix(Schedule(block, i - 16), Schedule(block, i - 15), Schedule(block, i - 7), Schedule(block, i - 2))
  }

  function Sum0(x: bv32): bv32 { Rotr(x, 2) ^ Rotr(x, 13) ^ Rotr(x, 22) }

  function Sum1(x: bv32): bv32 { Rotr(x, 6) ^ Rotr(x, 11) ^ Rotr(x, 25) }

  function Choose(e: bv32, f: bv32, g: bv32): bv32 { (e & f) ^ (!e & g) }

  function Majority(a: bv32, b: bv32, c: bv32): bv32 { (a & b) ^ (a & c) ^ (b & c) }

  function Temp1(e: bv32, f: bv32, g: bv32, h: bv32, k: bv32, w: bv32): bv32 { h + Sum1(e) + Choose(e, f, g) + k + w }

  function Temp2(a: bv32, b: bv32, c: bv32): bv32 { Sum0(a) + Majority(a, b, c) }

  /** One round. */
  function Round(v: Regs, k: bv32, w: bv32): Regs {
    var temp1, temp2 := Temp1(v.e, v.f, v.g, v.h, k, w), Temp2(v.a, v.b, v.c);
    Regs(temp1 + temp2, v.a, v.b, v.c, v.d + temp1, v.e, v.f, v.g)
  }

  function Rounds(v: Regs, block: Bytes, n: nat): Regs
    requires |block| == 64 && n <= 64
  {
    if n == 0 then v else Round(Rounds(v, block, n - 1), K[n - 1], Schedule(block, n - 1))
  }

  function Added(x: Regs, y: Regs): Regs {
    Regs(x.a + y.a, x.b + y.b, x.c + y.c, x.d + y.d, x.e + y.e, x.f + y.f, x.g + y.g, x.h + y.h)
  }

  function Compress(state: Regs, block: Bytes): Regs
    requires |block| == 64
  {
    Added(state, Rounds(state, block, 64))
  }

  /** The compression function folded over the whole blocks of a message. */
  function Fold(state: Regs, m: Bytes): Regs
    decreases |m|
  {
    if |m| < 64 then state else Fold(Compress(state, m[..64]), m[64..])
  }

  /** What is left after the whole blocks. */
  function Rest(m: Bytes): Bytes {
    if |m| < 64 then m else Rest(m[64..])
  }

  // -------------------------------------------------------------------- padding

  const TWO_64: nat := 0x1_0000_0000_0000_0000

  function Zeros(n: nat): (z: Bytes)
    ensures |z| == n
  {
    if n == 0 then [] else Zeros(n - 1) + [0]
  }

  /** `n >> (8 * i)`. */
  function ShiftBytes(n: nat, i: nat): nat {
    if i == 0 then n else ShiftBytes(n, i - 1) / 256
  }

  /** The low `count` bytes of `n`, most significant first. */
  function BigEndian(n: nat, count: nat): (b: Bytes)
    ensures |b| == count
  {
    if count == 0 then [] else BigEndian(n / 256, count - 1) + [n % 256]
  }

  function ZeroCount(length: nat): nat {
    if length % 64 < 56 then 55 - length % 64 else 119 - length % 64
  }

  /** What follows a message of the given length: a one bit, zeros, and the length in
      bits as 64 bits - which wrap for messages of 2^61 bytes and more. */
  function Padding(length: nat): Bytes {
    [0x80] + Zeros(ZeroCount(length)) + BigEndian(8 * length % TWO_64, 8)
  }

  function Pad(m: Bytes): Bytes { m + Padding(|m|) }

  /** The digest by definition. */
  function Digest(m: Bytes): seq<bv8> {
    Output(Fold(H0, Pad(m)))
  }

  function WordOut(w: bv32): (b: seq<bv8>)
    ensures |b| == 4
  {
    [(w >> 24) as bv8, ((w >> 16) & 0xff) as bv8, ((w >> 8) & 0xff) as bv8, (w & 0xff) as bv8]
  }

  function Output(v: Regs): (d: seq<bv8>)
    ensures |d| == 32
  {
    WordOut(v.a) + WordOut(v.b) + WordOut(v.c) + WordOut(v.d)
    + WordOut(v.e) + WordOut(v.f) + WordOut(v.g) + WordOut(v.h)
  }

  // ---------------------------------------------------------------- facts on folding

  /** Folding may pause anywhere: the state and the unprocessed rest say it all. */
  lemma {:induction false} FoldConcat(state: Regs, m: Bytes, more: Bytes)
    ensures Fold(state, m + more) == Fold(Fold(state, m), Rest(m) + more)
    ensures Rest(m + more) == Rest(Rest(m) + more)
    decreases |m|
  {
    if |m| >= 64 {
      assert (m + more)[..64] == m[..64] && (m + more)[64..] == m[64..] + more;
      hide Compress;
      FoldConcat(Compress(state, m[..64]), m[64..], more);
    }
  }

  lemma {:induction false} RestLength(m: Bytes)
    ensures |Rest(m)| == |m| % 64
  {
    if |m| >= 64 { RestLength(m[64..]); }
  }

  /** Padded messages are whole blocks. */
  lemma PadAligned(m: Bytes)
    ensures |Pad(m)| % 64 == 0 && |m| + 9 <= |Pad(m)| < |m| + 73
  {
    BlockMultiple(|m|);
    assert |Pad(m)| == |m| + 9 + ZeroCount(|m|);
  }

  lemma BlockMultiple(length: nat)
    ensures (length + 9 + ZeroCount(length)) % 64 == 0
  {
    var q, r := length / 64, length % 64;
    assert length == 64 * q + r;
    if r < 56 {
      assert length + 9 + ZeroCount(length) == 64 * (q + 1);
    } else {
      assert length + 9 + ZeroCount(length) == 64 * (q + 2);
    }
  }

  lemma BitsAdd(a: nat, b: nat)
    ensures (8 * a % TWO_64 + b * 8 % TWO_64) % TWO_64 == 8 * (a + b) % TWO_64
  {
    var x, y := 8 * a, b * 8;
    assert x == TWO_64 * (x / TWO_64) + x % TWO_64 && y == TWO_64 * (y / TWO_64) + y % TWO_64;
    WholeTurns(x % TWO_64 + y % TWO_64, x / TWO_64 + y / TWO_64);
  }

  lemma WholeTurns(r: nat, k: nat)
    ensures (r + TWO_64 * k) % TWO_64 == r % TWO_64
  {
  }

  lemma {:induction false} BigEndianInjective(x: nat, y: nat, count: nat)
    requires x < Pow256(count) && y < Pow256(count) && BigEndian(x, count) == BigEndian(y, count)
    ensures x == y
  {
    if count > 0 {
      var a, b := BigEndian(x / 256, count - 1), BigEndian(y / 256, count - 1);
      assert BigEndian(x, count)[..count - 1] == a && BigEndian(y, count)[..count - 1] == b;
      assert BigEndian(x, count)[count - 1] == x % 256 && BigEndian(y, count)[count - 1] == y % 256;
      BigEndianInjective(x / 256, y / 256, count - 1);
    }
  }

  function Pow256(n: nat): nat {
    if n == 0 then 1 else 256 * Pow256(n - 1)
  }

  lemma BytesOfTwo64()
    ensures Pow256(8) == TWO_64
  {
    assert Pow256(1) == 256 && Pow256(2) == 0x1_0000 && Pow256(4) == 0x1_0000_0000;
    assert Pow256(6) == 0x1_0000_0000_0000;
  }

  /** Padding never makes two messages alike, of any length: even when the length
      field wraps, the number of blocks tells the lengths apart. */
  lemma PadInjective(m: Bytes, n: Bytes)
    requires Pad(m) == Pad(n)
    ensures m == n
  {
    PadAligned(m);
    PadAligned(n);
    var p, q := Pad(m), Pad(n);
    var x, y := 8 * |m| % TWO_64, 8 * |n| % TWO_64;
    assert p[|p| - 8..] == BigEndian(x, 8);
    assert q[|q| - 8..] == BigEndian(y, 8);
    BytesOfTwo64();
    BigEndianInjective(x, y, 8);
    SameLength(|m|, |n|);
    assert m == p[..|m|] && n == q[..|n|];
  }

  lemma SameLength(a: nat, b: nat)
    requires 8 * a % TWO_64 == 8 * b % TWO_64 && a < b + 64 && b < a + 64
    ensures a == b
  {
  }

  // -------------------------------------------------------------------- the stream

  lemma ScheduleStep(block: Bytes, i: nat)
    requires |block| == 64 && i < 64
    ensures i < 16 ==> Schedule(block, i) == Word(block, i)
    ensures i >= 16 ==> Schedule(block, i) == Mix(Schedule(block, i - 16), Schedule(block, i - 15),
                                                  Schedule(block, i - 7), Schedule(block, i - 2))
  {
    hide Word, Mix;
  }

  /** The array `w`, filled front to back. */
  method BuildSchedule(chunk: Bytes) returns (w: array<bv32>)
    requires |chunk| == 64
    ensures fresh(w) && w.Length == 64 && forall j :: 0 <= j < 64 ==> w[j] == Schedule(chunk, j)
  {
    hide Word, Mix, Schedule;
    w := new bv32[64];
    for i := 0 to 16
      invariant forall j :: 0 <= j < i ==> w[j] == Schedule(chunk, j)
    {
      ScheduleStep(chunk, i);
      w[i] := Word(chunk, i);
    }
    for i := 16 to 64
      invariant forall j :: 0 <= j < i ==> w[j] == Schedule(chunk, j)
    {
      ScheduleStep(chunk, i);
      w[i] := Mix(w[i - 16], w[i - 15], w[i - 7], w[i - 2]);
    }
  }

  class Stream {
    var state: Regs
    var bitLength: nat
    var buffer: Bytes
    ghost var message: Bytes

    /** The stream stands where the one-shot computation stands after `message`. */
    ghost predicate Valid()
      reads this
    {
      && state == Fold(H0, message) && buffer == Rest(message) && |buffer| == |message| % 64
      && bitLength == 8 * |message| % TWO_64
    }

    constructor ()
      ensures Valid() && message == []
    {
      state, bitLength, buffer, message := H0, 0, [], [];
    }

    method Update(bytes: Bytes)
      requires Valid()
      modifies this
      ensures Valid() && message == old(message) + bytes
    {
      FoldConcat(H0, message, bytes);
      BitsAdd(|message|, |bytes|);
      RestLength(message + bytes);
      hide Compress, Fold, Rest, TWO_64, H0;
      message := message + bytes;
      bitLength := (bitLength + |bytes| * 8 % TWO_64) % TWO_64;
      buffer := buffer + bytes;
      Drain();
    }

    /** The processing loop of `update`. */
    method Drain()
      modifies this
      ensures state == Fold(old(state), old(buffer)) && buffer == Rest(old(buffer))
      ensures bitLength == old(bitLength) && message == old(message)
    {
      hide Compress;
      while |buffer| >= 64
        invariant Fold(state, buffer) == Fold(old(state), old(buffer)) && Rest(buffer) == Rest(old(buffer))
        invariant bitLength == old(bitLength) && message == old(message)
        decreases |buffer|
      {
        Transform(buffer[..64]);
        buffer := buffer[64..];
      }
    }

    /** The schedule array and the 64 rounds. */
    method Transform(chunk: Bytes)
      requires |chunk| == 64
      modifies this
      ensures state == Compress(old(state), chunk)
      ensures buffer == old(buffer) && bitLength == old(bitLength) && message == old(message)
    {
      hide Schedule, Round, Added;
      var w := BuildSchedule(chunk);
      var v := state;
      for i := 0 to 64
        invariant v == Rounds(state, chunk, i)
      {
        v := Round(v, K[i], w[i]);
      }
      state := Added(state, v);
    }

    /** The digest of everything fed to the stream, however it was split. */
    method Finish() returns (d: seq<bv8>)
      requires Valid()
      modifies this
      ensures d == Digest(old(message))
    {
      hide Compress, Output, Padding;
      ghost var m := message;
      PushPadding();
      FoldConcat(H0, m, Padding(|m|));
      PadAligned(m);
      RestLength(Pad(m));
      Drain();
      d := Output(state);
    }

    /** What `digest` appends to complete the last block. */
    method PushPadding()
      requires |buffer| == |message| % 64 && bitLength == 8 * |message| % TWO_64
      modifies this
      ensures buffer == old(buffer) + Padding(|old(message)|) && state == old(state)
    {
      hide TWO_64, Zeros, ZeroCount, BigEndian;
      var totalBits := bitLength;
      buffer := buffer + [0x80];
      GapIsZeroCount(|message|);
      PushZeros();
      PushLength(totalBits);
    }

    method PushZeros()
      modifies this
      ensures buffer == old(buffer) + Zeros(Gap(|old(buffer)|)) && state == old(state)
    {
      hide Gap;
      ghost var length, zeros := |buffer|, 0;
      assert buffer + Zeros(0) == buffer;
      GapEnds(length, 0);
      while |buffer| % 64 != 56
        invariant zeros <= Gap(length) && buffer == old(buffer) + Zeros(zeros) && |buffer| == length + zeros
        invariant state == old(state)
        decreases Gap(length) - zeros
      {
        GapEnds(length, zeros);
        buffer := buffer + [0];
        zeros := zeros + 1;
      }
      GapEnds(length, zeros);
    }

    /** The eight length bytes, from the top. */
    method PushLength(totalBits: nat)
      modifies this
      ensures buffer == old(buffer) + BigEndian(totalBits, 8) && state == old(state)
    {
      var i := 8;
      while i > 0
        invariant 0 <= i <= 8 && buffer == old(buffer) + BigEndian(ShiftBytes(totalBits, i), 8 - i)
        invariant state == old(state)
      {
        i := i - 1;
        buffer := buffer + [ShiftBytes(totalBits, i) % 256];
      }
    }
  }

  /** How many bytes are missing to 56 modulo 64. */
  function Gap(length: nat): nat {
    if length % 64 <= 56 then 56 - length % 64 else 120 - length % 64
  }

  lemma GapEnds(length: nat, zeros: nat)
    requires zeros <= Gap(length)
    ensures (length + zeros) % 64 == 56 <==> zeros == Gap(length)
  {
    var r := length % 64;
    assert (length + zeros) % 64 == (r + zeros) % 64;
  }

  lemma GapIsZeroCount(length: nat)
    ensures Gap(length % 64 + 1) == ZeroCount(length)
  {
  }

  // --------------------------------------------------------------------- hexadecimal

  const HEX: string := "0123456789abcdef"

  function HexByte(b: bv8): (s: string)
    ensures |s| == 2 && s[0] in HEX && s[1] in HEX
  {
    [HEX[(b >> 4) as int], HEX[(b & 0xf) as int]]
  }

  /** The digest as text: two lower-case digits per byte. */
  function Hex(d: seq<bv8>): (s: string)
    ensures |s| == 2 * |d| && forall i :: 0 <= i < |s| ==> s[i] in HEX
  {
    if d == [] then [] else HexByte(d[0]) + Hex(d[1..])
  }

  function DigitBits(c: char): bv8
    requires c in HEX
  {
    if c == '0' then 0 else if c == '1' then 1 else if c == '2' then 2 else if c == '3' then 3
    else if c == '4' then 4 else if c == '5' then 5 else if c == '6' then 6 else if c == '7' then 7
    else if c == '8' then 8 else if c == '9' then 9 else if c == 'a' then 10 else if c == 'b' then 11
    else if c == 'c' then 12 else if c == 'd' then 13 else if c == 'e' then 14 else 15
  }

  /** The bytes that a text of hexadecimal digit pairs denotes. */
  function UnHex(s: string): seq<bv8>
    requires |s| % 2 == 0 && forall i :: 0 <= i < |s| ==> s[i] in HEX
  {
    if s == [] then [] else [(DigitBits(s[0]) << 4) | DigitBits(s[1])] + UnHex(s[2..])
  }

  lemma NibbleReadsBack(n: bv8)
    requires n < 16
    ensures HEX[n as int] in HEX && DigitBits(HEX[n as int]) == n
  {
    if n == 0 {} else if n == 1 {} else if n == 2 {} else if n == 3 {} else if n == 4 {} else if n == 5 {}
    else if n == 6 {} else if n == 7 {} else if n == 8 {} else if n == 9 {} else if n == 10 {} else if n == 11 {}
    else if n == 12 {} else if n == 13 {} else if n == 14 {} else { assert n == 15; }
  }

  /** The text determines the digest. */
  lemma {:induction false} HexReadsBack(d: seq<bv8>)
    ensures UnHex(Hex(d)) == d
  {
    if d != [] {
      var b := d[0];
      NibbleReadsBack(b >> 4);
      NibbleReadsBack(b & 0xf);
      assert ((b >> 4) << 4) | (b & 0xf) == b;
      HexReadsBack(d[1..]);
      assert Hex(d)[2..] == Hex(d[1..]);
    }
  }
}
