/** The binary frame: type, two lengths, correlation id, payload. Lengths are cut to
    16 and 32 bits when written, and summed in 32 bits when read. */
module Wire {
  import opened Common

  const TWO_16: nat := 0x1_0000
  const TWO_32: nat := 0x1_0000_0000

  datatype Frame = Frame(kind: nat, correlationId: Bytes, payload: Bytes)

  /** A frame, a rejection, or a copy range that would leave the buffer. */
  datatype Decoded = Accepted(frame: Frame) | Rejected | OutOfRange

  function U16(v: nat): (b: Bytes)
    ensures |b| == 2
  {
    [v / 256 % 256, v % 256]
  }

  function U32(v: nat): (b: Bytes)
    ensures |b| == 4
  {
    [v / 0x100_0000 % 256, v / 0x1_0000 % 256, v / 256 % 256, v % 256]
  }

  function GetU16(b: Bytes, o: nat): (v: nat)
    requires o + 2 <= |b|
    ensures v < TWO_16
  {
    b[o] as int * 256 + b[o + 1] as int
  }

  function GetU32(b: Bytes, o: nat): (v: nat)
    requires o + 4 <= |b|
    ensures v < TWO_32
  {
    b[o] as int * 0x100_0000 + b[o + 1] as int * 0x1_0000 + b[o + 2] as int * 256 + b[o + 3] as int
  }

  function Encode(f: Frame): (b: Bytes)
    ensures |b| == 8 + |f.correlationId| + |f.payload|
  {
    U16(f.kind) + U16(|f.correlationId| % TWO_16) + U32(|f.payload| % TWO_32) + f.correlationId + f.payload
  }

  /** The length test: the sum of the declared lengths wraps at 2^32. */
  function DeclaredSize(b: Bytes): nat
    requires |b| >= 8
  {
    (8 + GetU16(b, 2) + GetU32(b, 4)) % TWO_32
  }

  function Decode(b: Bytes): Decoded {
    if |b| < 8 || |b| != DeclaredSize(b) then Rejected
    else
      var n := GetU16(b, 2);
      if 8 + n > |b| then OutOfRange
      else Accepted(Frame(GetU16(b, 0), b[8..8 + n], b[8 + n..]))
  }

  method EncodeFrame(f: Frame) returns (out: Bytes)
    ensures out == Encode(f)
  {
    out := [];
    out := PutU16(out, f.kind);
    out := PutU16(out, |f.correlationId| % TWO_16);
    out := PutU32(out, |f.payload| % TWO_32);
    out := out + f.correlationId;
    out := out + f.payload;
  }

  method PutU16(out: Bytes, v: nat) returns (r: Bytes)
    ensures r == out + U16(v)
  {
    r := out + [v / 256 % 256];
    r := r + [v % 256];
  }

  method PutU32(out: Bytes, v: nat) returns (r: Bytes)
    ensures r == out + U32(v)
  {
    r := out + [v / 0x100_0000 % 256];
    r := r + [v / 0x1_0000 % 256];
    r := r + [v / 256 % 256];
    r := r + [v % 256];
  }

  // ----------------------------------------------------------------------- the laws

  lemma U16RoundTrip(v: nat)
    requires v < TWO_16
    ensures GetU16(U16(v), 0) == v
  {
  }

  lemma U32RoundTrip(v: nat)
    requires v < TWO_32
    ensures GetU32(U32(v), 0) == v
  {
    var a, b, c := v / 256, v / 0x1_0000, v / 0x100_0000;
    assert b == a / 256 && c == b / 256;
    assert v == 256 * a + v % 256 && a == 256 * b + a % 256 && b == 256 * c + b % 256;
  }

  /** What decoding finds in an encoded frame's header. */
  lemma HeaderOf(f: Frame)
    requires f.kind < TWO_16
    ensures var b := Encode(f);
            && GetU16(b, 0) == f.kind
            && GetU16(b, 2) == |f.correlationId| % TWO_16
            && GetU32(b, 4) == |f.payload| % TWO_32
  {
    var b := Encode(f);
    U16RoundTrip(f.kind);
    U16RoundTrip(|f.correlationId| % TWO_16);
    U32RoundTrip(|f.payload| % TWO_32);
    assert b[0..2] == U16(f.kind) && b[2..4] == U16(|f.correlationId| % TWO_16) && b[4..8] == U32(|f.payload| % TWO_32);
    assert b[0] == b[0..2][0] && b[1] == b[0..2][1] && b[2] == b[2..4][0] && b[3] == b[2..4][1];
    assert b[4] == b[4..8][0] && b[5] == b[4..8][1] && b[6] == b[4..8][2] && b[7] == b[4..8][3];
  }

  lemma ValueOfMore(b: Bytes, x: Byte)
    ensures ValueOf(b + [x]) == 256 * ValueOf(b) + x
  {
    assert (b + [x])[..|b|] == b;
  }

  lemma ValueOfTwo(b: Bytes, o: nat)
    requires o + 2 <= |b|
    ensures ValueOf(b[o..o + 2]) == GetU16(b, o)
  {
    var s := b[o..o + 2];
    assert s[..1] == [b[o]] && s[1] == b[o + 1];
    assert ValueOf([b[o]]) == 256 * ValueOf([b[o]][..0]) + b[o];
  }

  lemma ValueOfFour(b: Bytes, o: nat)
    requires o + 4 <= |b|
    ensures ValueOf(b[o..o + 4]) == GetU32(b, o)
  {
    ValueOfTwo(b, o);
    ValueOfMore(b[o..o + 2], b[o + 2]);
    ValueOfMore(b[o..o + 3], b[o + 3]);
    hide ValueOf;
    assert b[o..o + 2] + [b[o + 2]] == b[o..o + 3] && b[o..o + 3] + [b[o + 3]] == b[o..o + 4];
  }

  /** Where everything is: kind, id length and payload length with their high bytes first, then the id,
      then the payload. */
  lemma FrameLayout(f: Frame)
    requires f.kind < TWO_16
    ensures var b := Encode(f);
            && ValueOf(b[0..2]) == f.kind && ValueOf(b[2..4]) == |f.correlationId| % TWO_16
            && ValueOf(b[4..8]) == |f.payload| % TWO_32
            && b[8..8 + |f.correlationId|] == f.correlationId && b[8 + |f.correlationId|..] == f.payload
  {
    HeaderOf(f);
    var b := Encode(f);
    ValueOfTwo(b, 0);
    ValueOfTwo(b, 2);
    ValueOfFour(b, 4);
    hide U16, U32, ValueOf, GetU16, GetU32;
  }

  /** Round trip: a frame comes back exactly when its id has fewer than 2^16 bytes
      and the whole frame fewer than 2^32; otherwise the reader rejects it. */
  lemma RoundTrip(f: Frame)
    requires f.kind < TWO_16
    ensures var fits := |f.correlationId| < TWO_16 && 8 + |f.correlationId| + |f.payload| < TWO_32;
            Decode(Encode(f)) == if fits then Accepted(f) else Rejected
  {
    var b := Encode(f);
    HeaderOf(f);
    var i, p := |f.correlationId|, |f.payload|;
    SmallerUnless(i, p);
    hide U16, U32;
    assert b[8..] == f.correlationId + f.payload;
    if i < TWO_16 && 8 + i + p < TWO_32 {
      assert b[8..8 + i] == b[8..][..i] && b[8 + i..] == b[8..][i..];
    }
  }

  /** Cutting the lengths loses bytes exactly when a bound is exceeded. */
  lemma SmallerUnless(i: nat, p: nat)
    ensures (8 + i % TWO_16 + p % TWO_32) % TWO_32 == 8 + i + p <==> i < TWO_16 && 8 + i + p < TWO_32
  {
  }

  lemma AcceptedParts(b: Bytes)
    requires Decode(b).Accepted?
    ensures var n := GetU16(b, 2);
            && 8 + n <= |b| && |b| - 8 - n == GetU32(b, 4)
            && Decode(b).frame == Frame(GetU16(b, 0), b[8..8 + n], b[8 + n..])
  {
    hide GetU16, GetU32;
  }

  /** Every accepted byte string is the encoding of the frame it was read as. */
  lemma AcceptedReencodes(b: Bytes)
    requires Decode(b).Accepted?
    ensures Encode(Decode(b).frame) == b
  {
    hide U16, U32, GetU16, GetU32, Decode;
    AcceptedParts(b);
    SplitU16(b, 0);
    SplitU16(b, 2);
    SplitU32(b, 4);
    var n := GetU16(b, 2);
    Pieces(b, n);
  }

  lemma Pieces(b: Bytes, n: nat)
    requires 8 + n <= |b|
    ensures b == b[0..2] + b[2..4] + b[4..8] + b[8..8 + n] + b[8 + n..]
  {
  }

  lemma SplitU16(b: Bytes, o: nat)
    requires o + 2 <= |b|
    ensures U16(GetU16(b, o)) == b[o..o + 2]
  {
  }

  lemma LowByte(hi: nat, lo: nat)
    requires lo < 256
    ensures (hi * 256 + lo) / 256 == hi && (hi * 256 + lo) % 256 == lo
  {
  }

  lemma DivideTwice(v: nat)
    ensures v / 0x1_0000 == v / 256 / 256 && v / 0x100_0000 == v / 0x1_0000 / 256
  {
  }

  lemma SplitU32(b: Bytes, o: nat)
    requires o + 4 <= |b|
    ensures U32(GetU32(b, o)) == b[o..o + 4]
  {
    var x1 := b[o] as int;
    var x2 := x1 * 256 + b[o + 1] as int;
    var x3 := x2 * 256 + b[o + 2] as int;
    var v := x3 * 256 + b[o + 3] as int;
    assert v == GetU32(b, o);
    LowByte(x3, b[o + 3]);
    LowByte(x2, b[o + 2]);
    LowByte(x1, b[o + 1]);
    DivideTwice(v);
    hide GetU32;
    assert U32(v) == [x1 % 256, x2 % 256, x3 % 256, v % 256];
  }

  /** The copy range leaves the buffer exactly when the declared lengths wrap and the
      wrapped sum happens to equal the size. */
  lemma OutOfRangeExactly(b: Bytes)
    ensures Decode(b).OutOfRange? <==>
            |b| >= 8 && 8 + GetU16(b, 2) + GetU32(b, 4) >= TWO_32 && |b| == DeclaredSize(b)
  {
  }

  /** Twelve bytes whose declared lengths add up to 2^32 + 12. */
  lemma OutOfRangeHappens()
    ensures Decode([0, 0, 0xff, 0xff, 0xff, 0xff, 0x00, 0x05, 1, 2, 3, 4]).OutOfRange?
  {
  }
}
