/** The digest of "abc", computed from the definition: the known vector of FIPS 180-4. */
module Sha256Vector {
  import opened Common
  import opened Sha256
  import opened Sha256Facts

  const ABC: Bytes := [0x61, 0x62, 0x63]

  // ------------------------------------------------------------------------ the block

  /** The one block that "abc" is padded to. */
  predicate AbcBlock(b: Bytes) {
    && |b| == 64 && b[0] == 0x61 && b[1] == 0x62 && b[2] == 0x63 && b[3] == 0x80 && b[63] == 24
    && forall i :: 4 <= i < 63 ==> b[i] == 0
  }

  lemma LengthField()
    ensures BigEndian(24, 8) == [0, 0, 0, 0, 0, 0, 0, 24]
  {
    assert BigEndian(0, 2) == [0, 0] && BigEndian(0, 4) == [0, 0, 0, 0];
    assert BigEndian(0, 6) == [0, 0, 0, 0, 0, 0] && BigEndian(0, 7) == [0, 0, 0, 0, 0, 0, 0];
  }

  lemma AbcLayout(zeros: Bytes, length: Bytes)
    requires |zeros| == 52 && |length| == 8 && length[7] == 24
    requires (forall i :: 0 <= i < 52 ==> zeros[i] == 0) && (forall i :: 0 <= i < 7 ==> length[i] == 0)
    ensures AbcBlock(ABC + ([0x80] + zeros + length))
  {
    var b := ABC + ([0x80] + zeros + length);
    assert forall i :: 4 <= i < 56 ==> b[i] == zeros[i - 4];
    assert forall i :: 56 <= i < 64 ==> b[i] == length[i - 56];
  }

  lemma AbcPadded()
    ensures AbcBlock(Pad(ABC))
  {
    ZerosAreZero(52);
    LengthField();
    hide Zeros, BigEndian, AbcBlock;
    AbcLayout(Zeros(52), BigEndian(24, 8));
  }

  // --------------------------------------------------------------------- the schedule

  function Packed(a: Byte, b: Byte, c: Byte, d: Byte): bv32 {
    (a as bv32 << 24) | (b as bv32 << 16) | (c as bv32 << 8) | d as bv32
  }

  lemma PackedWord(block: Bytes, i: nat)
    requires |block| == 64 && i < 16
    ensures Word(block, i) == Packed(block[4 * i], block[4 * i + 1], block[4 * i + 2], block[4 * i + 3])
  {
  }

  lemma PackedValues()
    ensures Packed(0x61, 0x62, 0x63, 0x80) == 0x61626380 && Packed(0, 0, 0, 0) == 0 && Packed(0, 0, 0, 24) == 24
  {
  }

  lemma Words(b: Bytes, i: nat)
    requires AbcBlock(b) && i < 16
    ensures Schedule(b, i) == if i == 0 then 0x61626380 else if i == 15 then 24 else 0
  {
    hide Word, Packed;
    PackedWord(b, i);
    PackedValues();
  }

  lemma Mixes1()
    ensures Mix(0x61626380, 0x00000000, 0x00000000, 0x00000000) == 0x61626380
    ensures Mix(0x00000000, 0x00000000, 0x00000000, 0x00000018) == 0x000f0000
    ensures Mix(0x00000000, 0x00000000, 0x00000000, 0x61626380) == 0x7da86405
    ensures Mix(0x00000000, 0x00000000, 0x00000000, 0x000f0000) == 0x600003c6
    ensures Mix(0x00000000, 0x00000000, 0x00000000, 0x7da86405) == 0x3e9d7b78
    ensures Mix(0x00000000, 0x00000000, 0x00000000, 0x600003c6) == 0x0183fc00
    ensures Mix(0x00000000, 0x00000000, 0x00000018, 0x3e9d7b78) == 0x12dcbfdb
    ensures Mix(0x00000000, 0x00000000, 0x61626380, 0x0183fc00) == 0xe2e2c38e
    ensures Mix(0x00000000, 0x00000000, 0x000f0000, 0x12dcbfdb) == 0xc8215c1a
    ensures Mix(0x00000000, 0x00000000, 0x7da86405, 0xe2e2c38e) == 0xb73679a2
    ensures Mix(0x00000000, 0x00000000, 0x600003c6, 0xc8215c1a) == 0xe5bc3909
    ensures Mix(0x00000000, 0x00000000, 0x3e9d7b78, 0xb73679a2) == 0x32663c5b
    ensures Mix(0x00000000, 0x00000000, 0x0183fc00, 0xe5bc3909) == 0x9d209d67
    ensures Mix(0x00000000, 0x00000000, 0x12dcbfdb, 0x32663c5b) == 0xec8726cb
    ensures Mix(0x00000000, 0x00000018, 0xe2e2c38e, 0x9d209d67) == 0x702138a4
    ensures Mix(0x00000018, 0x61626380, 0xc8215c1a, 0xec8726cb) == 0xd3b7973b
  {
  }

  lemma Words1(b: Bytes)
    requires AbcBlock(b)
    ensures Schedule(b, 16) == 0x61626380 && Schedule(b, 17) == 0x000f0000 && Schedule(b, 18) == 0x7da86405
    ensures Schedule(b, 19) == 0x600003c6 && Schedule(b, 20) == 0x3e9d7b78 && Schedule(b, 21) == 0x0183fc00
    ensures Schedule(b, 22) == 0x12dcbfdb && Schedule(b, 23) == 0xe2e2c38e && Schedule(b, 24) == 0xc8215c1a
    ensures Schedule(b, 25) == 0xb73679a2 && Schedule(b, 26) == 0xe5bc3909 && Schedule(b, 27) == 0x32663c5b
    ensures Schedule(b, 28) == 0x9d209d67 && Schedule(b, 29) == 0xec8726cb && Schedule(b, 30) == 0x702138a4
    ensures Schedule(b, 31) == 0xd3b7973b
  {
    hide Schedule, Mix;
    Words(b, 0); Words(b, 1); Words(b, 2); Words(b, 3);
    Words(b, 4); Words(b, 5); Words(b, 6); Words(b, 7);
    Words(b, 8); Words(b, 9); Words(b, 10); Words(b, 11);
    Words(b, 12); Words(b, 13); Words(b, 14); Words(b, 15);
    Mixes1();
    ScheduleStep(b, 16); ScheduleStep(b, 17); ScheduleStep(b, 18); ScheduleStep(b, 19);
    ScheduleStep(b, 20); ScheduleStep(b, 21); ScheduleStep(b, 22); ScheduleStep(b, 23);
    ScheduleStep(b, 24); ScheduleStep(b, 25); ScheduleStep(b, 26); ScheduleStep(b, 27);
    ScheduleStep(b, 28); ScheduleStep(b, 29); ScheduleStep(b, 30); ScheduleStep(b, 31);
  }

  lemma Mixes2()
    ensures Mix(0x61626380, 0x000f0000, 0xb73679a2, 0x702138a4) == 0x93f5997f
    ensures Mix(0x000f0000, 0x7da86405, 0xe5bc3909, 0xd3b7973b) == 0x3b68ba73
    ensures Mix(0x7da86405, 0x600003c6, 0x32663c5b, 0x93f5997f) == 0xaff4ffc1
    ensures Mix(0x600003c6, 0x3e9d7b78, 0x9d209d67, 0x3b68ba73) == 0xf10a5c62
    ensures Mix(0x3e9d7b78, 0x0183fc00, 0xec8726cb, 0xaff4ffc1) == 0x0a8b3996
    ensures Mix(0x0183fc00, 0x12dcbfdb, 0x702138a4, 0xf10a5c62) == 0x72af830a
    ensures Mix(0x12dcbfdb, 0xe2e2c38e, 0xd3b7973b, 0x0a8b3996) == 0x9409e33e
    ensures Mix(0xe2e2c38e, 0xc8215c1a, 0x93f5997f, 0x72af830a) == 0x24641522
    ensures Mix(0xc8215c1a, 0xb73679a2, 0x3b68ba73, 0x9409e33e) == 0x9f47bf94
    ensures Mix(0xb73679a2, 0xe5bc3909, 0xaff4ffc1, 0x24641522) == 0xf0a64f5a
    ensures Mix(0xe5bc3909, 0x32663c5b, 0xf10a5c62, 0x9f47bf94) == 0x3e246a79
    ensures Mix(0x32663c5b, 0x9d209d67, 0x0a8b3996, 0xf0a64f5a) == 0x27333ba3
    ensures Mix(0x9d209d67, 0xec8726cb, 0x72af830a, 0x3e246a79) == 0x0c4763f2
    ensures Mix(0xec8726cb, 0x702138a4, 0x9409e33e, 0x27333ba3) == 0x840abf27
    ensures Mix(0x702138a4, 0xd3b7973b, 0x24641522, 0x0c4763f2) == 0x7a290d5d
    ensures Mix(0xd3b7973b, 0x93f5997f, 0x9f47bf94, 0x840abf27) == 0x065c43da
  {
  }

  lemma Words2(b: Bytes)
    requires AbcBlock(b)
    ensures Schedule(b, 32) == 0x93f5997f && Schedule(b, 33) == 0x3b68ba73 && Schedule(b, 34) == 0xaff4ffc1
    ensures Schedule(b, 35) == 0xf10a5c62 && Schedule(b, 36) == 0x0a8b3996 && Schedule(b, 37) == 0x72af830a
    ensures Schedule(b, 38) == 0x9409e33e && Schedule(b, 39) == 0x24641522 && Schedule(b, 40) == 0x9f47bf94
    ensures Schedule(b, 41) == 0xf0a64f5a && Schedule(b, 42) == 0x3e246a79 && Schedule(b, 43) == 0x27333ba3
    ensures Schedule(b, 44) == 0x0c4763f2 && Schedule(b, 45) == 0x840abf27 && Schedule(b, 46) == 0x7a290d5d
    ensures Schedule(b, 47) == 0x065c43da
  {
    hide Schedule, Mix;
    Words1(b);
    Mixes2();
    ScheduleStep(b, 32); ScheduleStep(b, 33); ScheduleStep(b, 34); ScheduleStep(b, 35);
    ScheduleStep(b, 36); ScheduleStep(b, 37); ScheduleStep(b, 38); ScheduleStep(b, 39);
    ScheduleStep(b, 40); ScheduleStep(b, 41); ScheduleStep(b, 42); ScheduleStep(b, 43);
    ScheduleStep(b, 44); ScheduleStep(b, 45); ScheduleStep(b, 46); ScheduleStep(b, 47);
  }

  lemma Mixes3()
    ensures Mix(0x93f5997f, 0x3b68ba73, 0xf0a64f5a, 0x7a290d5d) == 0xfb3e89cb
    ensures Mix(0x3b68ba73, 0xaff4ffc1, 0x3e246a79, 0x065c43da) == 0xcc7617db
    ensures Mix(0xaff4ffc1, 0xf10a5c62, 0x27333ba3, 0xfb3e89cb) == 0xb9e66c34
    ensures Mix(0xf10a5c62, 0x0a8b3996, 0x0c4763f2, 0xcc7617db) == 0xa9993667
    ensures Mix(0x0a8b3996, 0x72af830a, 0x840abf27, 0xb9e66c34) == 0x84badedd
    ensures Mix(0x72af830a, 0x9409e33e, 0x7a290d5d, 0xa9993667) == 0xc21462bc
    ensures Mix(0x9409e33e, 0x24641522, 0x065c43da, 0x84badedd) == 0x1487472c
    ensures Mix(0x24641522, 0x9f47bf94, 0xfb3e89cb, 0xc21462bc) == 0xb20f7a99
    ensures Mix(0x9f47bf94, 0xf0a64f5a, 0xcc7617db, 0x1487472c) == 0xef57b9cd
    ensures Mix(0xf0a64f5a, 0x3e246a79, 0xb9e66c34, 0xb20f7a99) == 0xebe6b238
    ensures Mix(0x3e246a79, 0x27333ba3, 0xa9993667, 0xef57b9cd) == 0x9fe3095e
    ensures Mix(0x27333ba3, 0x0c4763f2, 0x84badedd, 0xebe6b238) == 0x78bc8d4b
    ensures Mix(0x0c4763f2, 0x840abf27, 0xc21462bc, 0x9fe3095e) == 0xa43fcf15
    ensures Mix(0x840abf27, 0x7a290d5d, 0x1487472c, 0x78bc8d4b) == 0x668b2ff8
    ensures Mix(0x7a290d5d, 0x065c43da, 0xb20f7a99, 0xa43fcf15) == 0xeeaba2cc
    ensures Mix(0x065c43da, 0xfb3e89cb, 0xef57b9cd, 0x668b2ff8) == 0x12b1edeb
  {
  }

  lemma Words3(b: Bytes)
    requires AbcBlock(b)
    ensures Schedule(b, 48) == 0xfb3e89cb && Schedule(b, 49) == 0xcc7617db && Schedule(b, 50) == 0xb9e66c34
    ensures Schedule(b, 51) == 0xa9993667 && Schedule(b, 52) == 0x84badedd && Schedule(b, 53) == 0xc21462bc
    ensures Schedule(b, 54) == 0x1487472c && Schedule(b, 55) == 0xb20f7a99 && Schedule(b, 56) == 0xef57b9cd
    ensures Schedule(b, 57) == 0xebe6b238 && Schedule(b, 58) == 0x9fe3095e && Schedule(b, 59) == 0x78bc8d4b
    ensures Schedule(b, 60) == 0xa43fcf15 && Schedule(b, 61) == 0x668b2ff8 && Schedule(b, 62) == 0xeeaba2cc
    ensures Schedule(b, 63) == 0x12b1edeb
  {
    hide Schedule, Mix;
    Words2(b);
    Mixes3();
    ScheduleStep(b, 48); ScheduleStep(b, 49); ScheduleStep(b, 50); ScheduleStep(b, 51);
    ScheduleStep(b, 52); ScheduleStep(b, 53); ScheduleStep(b, 54); ScheduleStep(b, 55);
    ScheduleStep(b, 56); ScheduleStep(b, 57); ScheduleStep(b, 58); ScheduleStep(b, 59);
    ScheduleStep(b, 60); ScheduleStep(b, 61); ScheduleStep(b, 62); ScheduleStep(b, 63);
  }

  // ----------------------------------------------------------------------- the rounds

  lemma RoundStep(b: Bytes, n: nat)
    requires |b| == 64 && n < 64
    ensures Rounds(H0, b, n + 1) == Round(Rounds(H0, b, n), K[n], Schedule(b, n))
  {
    hide Round, Schedule, K, H0;
  }

  lemma Constants0()
    ensures K[0] == 0x428a2f98 && K[1] == 0x71374491 && K[2] == 0xb5c0fbcf && K[3] == 0xe9b5dba5
    ensures K[4] == 0x3956c25b && K[5] == 0x59f111f1 && K[6] == 0x923f82a4 && K[7] == 0xab1c5ed5
    ensures K[8] == 0xd807aa98 && K[9] == 0x12835b01 && K[10] == 0x243185be && K[11] == 0x550c7dc3
    ensures K[12] == 0x72be5d74 && K[13] == 0x80deb1fe && K[14] == 0x9bdc06a7 && K[15] == 0xc19bf174
  {
  }

  lemma Sums0()
    ensures Temp1(0x510e527f, 0x9b05688c, 0x1f83d9ab, 0x5be0cd19, 0x428a2f98, 0x61626380) == 0x54da50e8
    ensures Temp1(0xfa2a4622, 0x510e527f, 0x9b05688c, 0x1f83d9ab, 0x71374491, 0x00000000) == 0x3c5f8617
    ensures Temp1(0x78ce7989, 0xfa2a4622, 0x510e527f, 0x9b05688c, 0xb5c0fbcf, 0x00000000) == 0x3dc18b66
    ensures Temp1(0xf92939eb, 0x78ce7989, 0xfa2a4622, 0x510e527f, 0xe9b5dba5, 0x00000000) == 0xbad621e9
    ensures Temp1(0x24e00850, 0xf92939eb, 0x78ce7989, 0xfa2a4622, 0x3956c25b, 0x00000000) == 0xe642b678
    ensures Temp1(0x43ada245, 0x24e00850, 0xf92939eb, 0x78ce7989, 0x59f111f1, 0x00000000) == 0x16d78700
    ensures Temp1(0x714260ad, 0x43ada245, 0x24e00850, 0xf92939eb, 0x923f82a4, 0x00000000) == 0xd2645c5a
    ensures Temp1(0x9b27a401, 0x714260ad, 0x43ada245, 0x24e00850, 0xab1c5ed5, 0x00000000) == 0x37148413
    ensures Temp1(0x0c657a79, 0x9b27a401, 0x714260ad, 0x43ada245, 0xd807aa98, 0x00000000) == 0x2e899322
    ensures Temp1(0x32ca2d8c, 0x0c657a79, 0x9b27a401, 0x714260ad, 0x12835b01, 0x00000000) == 0xf1871ba1
    ensures Temp1(0x1cc92596, 0x32ca2d8c, 0x0c657a79, 0x9b27a401, 0x243185be, 0x00000000) == 0x5e682068
    ensures Temp1(0x436b23e8, 0x1cc92596, 0x32ca2d8c, 0x0c657a79, 0x550c7dc3, 0x00000000) == 0xfbcf5b8a
    ensures Temp1(0x816fd6e9, 0x436b23e8, 0x1cc92596, 0x32ca2d8c, 0x72be5d74, 0x00000000) == 0x9052955f
    ensures Temp1(0x1e578218, 0x816fd6e9, 0x436b23e8, 0x1cc92596, 0x80deb1fe, 0x00000000) == 0xe7d31473
    ensures Temp1(0x745a48de, 0x1e578218, 0x816fd6e9, 0x436b23e8, 0x9bdc06a7, 0x00000000) == 0xc3fa4e18
    ensures Temp1(0x0b92f20c, 0x745a48de, 0x1e578218, 0x816fd6e9, 0xc19bf174, 0x00000018) == 0x10394824
    ensures Temp2(0x6a09e667, 0xbb67ae85, 0x3c6ef372) == 0x08909ae5
    ensures Temp2(0x5d6aebcd, 0x6a09e667, 0xbb67ae85) == 0x1e0b5396
    ensures Temp2(0x5a6ad9ad, 0x5d6aebcd, 0x6a09e667) == 0x8b01bc41
    ensures Temp2(0xc8c347a7, 0x5a6ad9ad, 0x5d6aebcd) == 0x1a7ad47d
    ensures Temp2(0xd550f666, 0xc8c347a7, 0x5a6ad9ad) == 0x1dfde3f2
    ensures Temp2(0x04409a6a, 0xd550f666, 0xc8c347a7) == 0x146a82f5
    ensures Temp2(0x2b4209f5, 0x04409a6a, 0xd550f666) == 0x129ea726
    ensures Temp2(0xe5030380, 0x2b4209f5, 0x04409a6a) == 0x4e8bf74c
    ensures Temp2(0x85a07b5f, 0xe5030380, 0x2b4209f5) == 0x5f7b5997
    ensures Temp2(0x8e04ecb9, 0x85a07b5f, 0xe5030380) == 0x9b0018ca
    ensures Temp2(0x8c87346b, 0x8e04ecb9, 0x85a07b5f) == 0xe930838c
    ensures Temp2(0x4798a3f4, 0x8c87346b, 0x8e04ecb9) == 0xfb506a1f
    ensures Temp2(0xf71fc5a9, 0x4798a3f4, 0x8c87346b) == 0xf73e9431
    ensures Temp2(0x87912990, 0xf71fc5a9, 0x4798a3f4) == 0xf15fd6a3
    ensures Temp2(0xd932eb16, 0x87912990, 0xf71fc5a9) == 0xfc6a11c6
    ensures Temp2(0xc0645fde, 0xd932eb16, 0x87912990) == 0xa0c0db6a
  {
  }

  lemma States0()
    ensures Round(Round(Round(Round(Round(Round(Round(Round(Round(Round(Round(Round(Round(Round(Round(Round(
              Regs(0x6a09e667, 0xbb67ae85, 0x3c6ef372, 0xa54ff53a, 0x510e527f, 0x9b05688c, 0x1f83d9ab, 0x5be0cd19),
              0x428a2f98, 0x61626380), 0x71374491, 0x00000000), 0xb5c0fbcf, 0x00000000), 0xe9b5dba5, 0x00000000),
              0x3956c25b, 0x00000000), 0x59f111f1, 0x00000000), 0x923f82a4, 0x00000000), 0xab1c5ed5, 0x00000000),
              0xd807aa98, 0x00000000), 0x12835b01, 0x00000000), 0x243185be, 0x00000000), 0x550c7dc3, 0x00000000),
              0x72be5d74, 0x00000000), 0x80deb1fe, 0x00000000), 0x9bdc06a7, 0x00000000), 0xc19bf174, 0x00000018)
            == Regs(0xb0fa238e, 0xc0645fde, 0xd932eb16, 0x87912990, 0x07590dcd, 0x0b92f20c, 0x745a48de, 0x1e578218)
  {
    Sums0();
    hide Temp1, Temp2;
  }

  lemma Rounds0(b: Bytes)
    requires AbcBlock(b)
    ensures Rounds(H0, b, 16) == Regs(0xb0fa238e, 0xc0645fde, 0xd932eb16, 0x87912990,
                                      0x07590dcd, 0x0b92f20c, 0x745a48de, 0x1e578218)
  {
    assert Rounds(H0, b, 0) == Regs(0x6a09e667, 0xbb67ae85, 0x3c6ef372, 0xa54ff53a,
                                     0x510e527f, 0x9b05688c, 0x1f83d9ab, 0x5be0cd19);
    Words(b, 0); Words(b, 1); Words(b, 2); Words(b, 3);
    Words(b, 4); Words(b, 5); Words(b, 6); Words(b, 7);
    Words(b, 8); Words(b, 9); Words(b, 10); Words(b, 11);
    Words(b, 12); Words(b, 13); Words(b, 14); Words(b, 15);
    Constants0();
    States0();
    hide AbcBlock, Schedule, Round, K, Rounds, H0;
    RoundStep(b, 0); RoundStep(b, 1); RoundStep(b, 2); RoundStep(b, 3);
    RoundStep(b, 4); RoundStep(b, 5); RoundStep(b, 6); RoundStep(b, 7);
    RoundStep(b, 8); RoundStep(b, 9); RoundStep(b, 10); RoundStep(b, 11);
    RoundStep(b, 12); RoundStep(b, 13); RoundStep(b, 14); RoundStep(b, 15);
  }

  lemma Constants1()
    ensures K[16] == 0xe49b69c1 && K[17] == 0xefbe4786 && K[18] == 0x0fc19dc6 && K[19] == 0x240ca1cc
    ensures K[20] == 0x2de92c6f && K[21] == 0x4a7484aa && K[22] == 0x5cb0a9dc && K[23] == 0x76f988da
    ensures K[24] == 0x983e5152 && K[25] == 0xa831c66d && K[26] == 0xb00327c8 && K[27] == 0xbf597fc7
    ensures K[28] == 0xc6e00bf3 && K[29] == 0xd5a79147 && K[30] == 0x06ca6351 && K[31] == 0x14292967
  {
  }

  lemma Sums1()
    ensures Temp1(0x07590dcd, 0x0b92f20c, 0x745a48de, 0x1e578218, 0xe49b69c1, 0x61626380) == 0xf8a2f90c
    ensures Temp1(0x8034229c, 0x07590dcd, 0x0b92f20c, 0x745a48de, 0xefbe4786, 0x000f0000) == 0xab3bf93e
    ensures Temp1(0x846ee454, 0x8034229c, 0x07590dcd, 0x0b92f20c, 0x0fc19dc6, 0x7da86405) == 0x0c253983
    ensures Temp1(0xcc899961, 0x846ee454, 0x8034229c, 0x07590dcd, 0x240ca1cc, 0x600003c6) == 0xff695deb
    ensures Temp1(0xb0638179, 0xcc899961, 0x846ee454, 0x8034229c, 0x2de92c6f, 0x3e9d7b78) == 0x68ffee95
    ensures Temp1(0x8ada8930, 0xb0638179, 0xcc899961, 0x846ee454, 0x4a7484aa, 0x0183fc00) == 0x1e299f9f
    ensures Temp1(0xe1257970, 0x8ada8930, 0xb0638179, 0xcc899961, 0x5cb0a9dc, 0x12dcbfdb) == 0x4b7d958b
    ensures Temp1(0x49f5114a, 0xe1257970, 0x8ada8930, 0xb0638179, 0x76f988da, 0xe2e2c38e) == 0xc855b714
    ensures Temp1(0xaa47c347, 0x49f5114a, 0xe1257970, 0x8ada8930, 0x983e5152, 0xc8215c1a) == 0x8a5d642e
    ensures Temp1(0x2823ef91, 0xaa47c347, 0x49f5114a, 0xe1257970, 0xa831c66d, 0xb73679a2) == 0x51d7d021
    ensures Temp1(0x14383d8e, 0x2823ef91, 0xaa47c347, 0x49f5114a, 0xb00327c8, 0xe5bc3909) == 0x1fa902d7
    ensures Temp1(0xc74c6516, 0x14383d8e, 0x2823ef91, 0xaa47c347, 0xbf597fc7, 0x32663c5b) == 0x282a826b
    ensures Temp1(0xedffbff8, 0xc74c6516, 0x14383d8e, 0x2823ef91, 0xc6e00bf3, 0x9d209d67) == 0x44e67b7f
    ensures Temp1(0x6112a3b7, 0xedffbff8, 0xc74c6516, 0x14383d8e, 0xd5a79147, 0xec8726cb) == 0xdfff90ba
    ensures Temp1(0xade79437, 0x6112a3b7, 0xedffbff8, 0xc74c6516, 0x06ca6351, 0x702138a4) == 0x4adae67e
    ensures Temp1(0x0109ab3a, 0xade79437, 0x6112a3b7, 0xedffbff8, 0x14292967, 0xd3b7973b) == 0x42859bea
    ensures Temp2(0xb0fa238e, 0xc0645fde, 0xd932eb16) == 0x2937a18f
    ensures Temp2(0x21da9a9b, 0xb0fa238e, 0xc0645fde) == 0x17bfe093
    ensures Temp2(0xc2fbd9d1, 0x21da9a9b, 0xb0fa238e) == 0xf252423c
    ensures Temp2(0xfe777bbf, 0xc2fbd9d1, 0x21da9a9b) == 0xe288ae48
    ensures Temp2(0xe1f20c33, 0xfe777bbf, 0xc2fbd9d1) == 0x34c69cce
    ensures Temp2(0x9dc68b63, 0xe1f20c33, 0xfe777bbf) == 0xa436cdce
    ensures Temp2(0xc2606d6d, 0x9dc68b63, 0xe1f20c33) == 0x5c25ccb4
    ensures Temp2(0xa7a3623f, 0xc2606d6d, 0x9dc68b63) == 0xfd7f8679
    ensures Temp2(0xc5d53d8d, 0xa7a3623f, 0xc2606d6d) == 0x91cec40a
    ensures Temp2(0x1c2c2838, 0xc5d53d8d, 0xa7a3623f) == 0x7c10335c
    ensures Temp2(0xcde8037d, 0x1c2c2838, 0xc5d53d8d) == 0x9685c1e5
    ensures Temp2(0xb62ec4bc, 0xcde8037d, 0x1c2c2838) == 0x4fa8f2bd
    ensures Temp2(0x77d37528, 0xb62ec4bc, 0xcde8037d) == 0xf14e074a
    ensures Temp2(0x363482c9, 0x77d37528, 0xb62ec4bc) == 0xc0067a76
    ensures Temp2(0xa0060b30, 0x363482c9, 0x77d37528) == 0x9fbe43a4
    ensures Temp2(0xea992a22, 0xa0060b30, 0x363482c9) == 0x312da00b
  {
  }

  lemma States1()
    ensures Round(Round(Round(Round(Round(Round(Round(Round(Round(Round(Round(Round(Round(Round(Round(Round(
              Regs(0xb0fa238e, 0xc0645fde, 0xd932eb16, 0x87912990, 0x07590dcd, 0x0b92f20c, 0x745a48de, 0x1e578218),
              0xe49b69c1, 0x61626380), 0xefbe4786, 0x000f0000), 0x0fc19dc6, 0x7da86405), 0x240ca1cc, 0x600003c6),
              0x2de92c6f, 0x3e9d7b78), 0x4a7484aa, 0x0183fc00), 0x5cb0a9dc, 0x12dcbfdb), 0x76f988da, 0xe2e2c38e),
              0x983e5152, 0xc8215c1a), 0xa831c66d, 0xb73679a2), 0xb00327c8, 0xe5bc3909), 0xbf597fc7, 0x32663c5b),
              0xc6e00bf3, 0x9d209d67), 0xd5a79147, 0xec8726cb), 0x06ca6351, 0x702138a4), 0x14292967, 0xd3b7973b)
            == Regs(0x73b33bf5, 0xea992a22, 0xa0060b30, 0x363482c9, 0xba591112, 0x0109ab3a, 0xade79437, 0x6112a3b7)
  {
    Sums1();
    hide Temp1, Temp2;
  }

  lemma Rounds1(b: Bytes)
    requires AbcBlock(b)
    ensures Rounds(H0, b, 32) == Regs(0x73b33bf5, 0xea992a22, 0xa0060b30, 0x363482c9,
                                      0xba591112, 0x0109ab3a, 0xade79437, 0x6112a3b7)
  {
    Rounds0(b);
    Words1(b);
    Constants1();
    States1();
    hide AbcBlock, Schedule, Round, K, Rounds, H0;
    RoundStep(b, 16); RoundStep(b, 17); RoundStep(b, 18); RoundStep(b, 19);
    RoundStep(b, 20); RoundStep(b, 21); RoundStep(b, 22); RoundStep(b, 23);
    RoundStep(b, 24); RoundStep(b, 25); RoundStep(b, 26); RoundStep(b, 27);
    RoundStep(b, 28); RoundStep(b, 29); RoundStep(b, 30); RoundStep(b, 31);
  }

  lemma Constants2()
    ensures K[32] == 0x27b70a85 && K[33] == 0x2e1b2138 && K[34] == 0x4d2c6dfc && K[35] == 0x53380d13
    ensures K[36] == 0x650a7354 && K[37] == 0x766a0abb && K[38] == 0x81c2c92e && K[39] == 0x92722c85
    ensures K[40] == 0xa2bfe8a1 && K[41] == 0xa81a664b && K[42] == 0xc24b8b70 && K[43] == 0xc76c51a3
    ensures K[44] == 0xd192e819 && K[45] == 0xd6990624 && K[46] == 0xf40e3585 && K[47] == 0x106aa070
  {
  }

  lemma Sums2()
    ensures Temp1(0xba591112, 0x0109ab3a, 0xade79437, 0x6112a3b7, 0x27b70a85, 0x93f5997f) == 0x66a5732d
    ensures Temp1(0x9cd9f5f6, 0xba591112, 0x0109ab3a, 0xade79437, 0x2e1b2138, 0x3b68ba73) == 0xb91e92a3
    ensures Temp1(0x59249dd3, 0x9cd9f5f6, 0xba591112, 0x0109ab3a, 0x4d2c6dfc, 0xaff4ffc1) == 0x1dc60e11
    ensures Temp1(0x085f3833, 0x59249dd3, 0x9cd9f5f6, 0xba591112, 0x53380d13, 0xf10a5c62) == 0x80fcc6e1
    ensures Temp1(0xf4b002d6, 0x085f3833, 0x59249dd3, 0x9cd9f5f6, 0x650a7354, 0x0a8b3996) == 0x6e917d64
    ensures Temp1(0x0772a26b, 0xf4b002d6, 0x085f3833, 0x59249dd3, 0x766a0abb, 0x72af830a) == 0xa6a75748
    ensures Temp1(0xa507a53d, 0x0772a26b, 0xf4b002d6, 0x085f3833, 0x81c2c92e, 0x9409e33e) == 0x46d0a83c
    ensures Temp1(0xf0781bc8, 0xa507a53d, 0x0772a26b, 0xf4b002d6, 0x92722c85, 0x24641522) == 0xb95af0bc
    ensures Temp1(0x1efbc0a0, 0xf0781bc8, 0xa507a53d, 0x0772a26b, 0xa2bfe8a1, 0x9f47bf94) == 0xe48ed0b2
    ensures Temp1(0x26352d63, 0x1efbc0a0, 0xf0781bc8, 0xa507a53d, 0xa81a664b, 0xf0a64f5a) == 0x4eac110d
    ensures Temp1(0x838b2711, 0x26352d63, 0x1efbc0a0, 0xf0781bc8, 0xc24b8b70, 0x3e246a79) == 0x7107cc8b
    ensures Temp1(0xdecd4715, 0x838b2711, 0x26352d63, 0x1efbc0a0, 0xc76c51a3, 0x27333ba3) == 0x83b7e3b4
    ensures Temp1(0xfda24c2e, 0xdecd4715, 0x838b2711, 0x26352d63, 0xd192e819, 0x0c4763f2) == 0xd1a80a8a
    ensures Temp1(0xa80f11f0, 0xfda24c2e, 0xdecd4715, 0x838b2711, 0xd6990624, 0x840abf27) == 0xd82ef872
    ensures Temp1(0xb7755da1, 0xa80f11f0, 0xfda24c2e, 0xdecd4715, 0xf40e3585, 0x7a290d5d) == 0xbdd186ab
    ensures Temp1(0xd57b94a9, 0xb7755da1, 0xa80f11f0, 0xfda24c2e, 0x106aa070, 0x065c43da) == 0x61835c33
    ensures Temp2(0x73b33bf5, 0xea992a22, 0xa0060b30) == 0x323bb1da
    ensures Temp2(0x98e12507, 0x73b33bf5, 0xea992a22) == 0x4541bb52
    ensures Temp2(0xfe604df5, 0x98e12507, 0x73b33bf5) == 0x8be1657b
    ensures Temp2(0xa9a7738c, 0xfe604df5, 0x98e12507) == 0xe4a40903
    ensures Temp2(0x65a0cfe4, 0xa9a7738c, 0xfe604df5) == 0xd314df4d
    ensures Temp2(0x41a65cb1, 0x65a0cfe4, 0xa9a7738c) == 0x8e37bebc
    ensures Temp2(0x34df1604, 0x41a65cb1, 0x65a0cfe4) == 0x26f4d24e
    ensures Temp2(0x6dc57a8a, 0x34df1604, 0x41a65cb1) == 0xc08f77be
    ensures Temp2(0x79ea687a, 0x6dc57a8a, 0x34df1604) == 0xf1d836b4
    ensures Temp2(0xd6670766, 0x79ea687a, 0x6dc57a8a) == 0x909a5422
    ensures Temp2(0xdf46652f, 0xd6670766, 0x79ea687a) == 0xa6a24173
    ensures Temp2(0x17aa0dfe, 0xdf46652f, 0xd6670766) == 0x1993cbdf
    ensures Temp2(0x9d4baf93, 0x17aa0dfe, 0xdf46652f) == 0x54ba7d8b
    ensures Temp2(0x26628815, 0x9d4baf93, 0x17aa0dfe) == 0x9a7c531f
    ensures Temp2(0x72ab4b91, 0x26628815, 0x9d4baf93) == 0xe37a8e05
    ensures Temp2(0xa14c14b0, 0x72ab4b91, 0x26628815) == 0xdfeed65a
  {
  }

  lemma States2()
    ensures Round(Round(Round(Round(Round(Round(Round(Round(Round(Round(Round(Round(Round(Round(Round(Round(
              Regs(0x73b33bf5, 0xea992a22, 0xa0060b30, 0x363482c9, 0xba591112, 0x0109ab3a, 0xade79437, 0x6112a3b7),
              0x27b70a85, 0x93f5997f), 0x2e1b2138, 0x3b68ba73), 0x4d2c6dfc, 0xaff4ffc1), 0x53380d13, 0xf10a5c62),
              0x650a7354, 0x0a8b3996), 0x766a0abb, 0x72af830a), 0x81c2c92e, 0x9409e33e), 0x92722c85, 0x24641522),
              0xa2bfe8a1, 0x9f47bf94), 0xa81a664b, 0xf0a64f5a), 0xc24b8b70, 0x3e246a79), 0xc76c51a3, 0x27333ba3),
              0xd192e819, 0x0c4763f2), 0xd6990624, 0x840abf27), 0xf40e3585, 0x7a290d5d), 0x106aa070, 0x065c43da)
            == Regs(0x4172328d, 0xa14c14b0, 0x72ab4b91, 0x26628815, 0xfecf0bc6, 0xd57b94a9, 0xb7755da1, 0xa80f11f0)
  {
    Sums2();
    hide Temp1, Temp2;
  }

  lemma Rounds2(b: Bytes)
    requires AbcBlock(b)
    ensures Rounds(H0, b, 48) == Regs(0x4172328d, 0xa14c14b0, 0x72ab4b91, 0x26628815,
                                      0xfecf0bc6, 0xd57b94a9, 0xb7755da1, 0xa80f11f0)
  {
    Rounds1(b);
    Words2(b);
    Constants2();
    States2();
    hide AbcBlock, Schedule, Round, K, Rounds, H0;
    RoundStep(b, 32); RoundStep(b, 33); RoundStep(b, 34); RoundStep(b, 35);
    RoundStep(b, 36); RoundStep(b, 37); RoundStep(b, 38); RoundStep(b, 39);
    RoundStep(b, 40); RoundStep(b, 41); RoundStep(b, 42); RoundStep(b, 43);
    RoundStep(b, 44); RoundStep(b, 45); RoundStep(b, 46); RoundStep(b, 47);
  }

  lemma Constants3()
    ensures K[48] == 0x19a4c116 && K[49] == 0x1e376c08 && K[50] == 0x2748774c && K[51] == 0x34b0bcb5
    ensures K[52] == 0x391c0cb3 && K[53] == 0x4ed8aa4a && K[54] == 0x5b9cca4f && K[55] == 0x682e6ff3
    ensures K[56] == 0x748f82ee && K[57] == 0x78a5636f && K[58] == 0x84c87814 && K[59] == 0x8cc70208
    ensures K[60] == 0x90befffa && K[61] == 0xa4506ceb && K[62] == 0xbef9a3f7 && K[63] == 0xc67178f2
  {
  }

  lemma Sums3()
    ensures Temp1(0xfecf0bc6, 0xd57b94a9, 0xb7755da1, 0xa80f11f0, 0x19a4c116, 0xfb3e89cb) == 0x970eb823
    ensures Temp1(0xbd714038, 0xfecf0bc6, 0xd57b94a9, 0xb7755da1, 0x1e376c08, 0xcc7617db) == 0xfbb0ed7b
    ensures Temp1(0x6e5c390c, 0xbd714038, 0xfecf0bc6, 0xd57b94a9, 0x2748774c, 0xb9e66c34) == 0xb1a5b847
    ensures Temp1(0x52f1ccf7, 0x6e5c390c, 0xbd714038, 0xfecf0bc6, 0x34b0bcb5, 0xa9993667) == 0x07b0e991
    ensures Temp1(0x49231c1e, 0x52f1ccf7, 0x6e5c390c, 0xbd714038, 0x391c0cb3, 0x84badedd) == 0x4d290015
    ensures Temp1(0x529e7d00, 0x49231c1e, 0x52f1ccf7, 0x6e5c390c, 0x4ed8aa4a, 0xc21462bc) == 0xae2b8d1b
    ensures Temp1(0x9f4787c3, 0x529e7d00, 0x49231c1e, 0x52f1ccf7, 0x5b9cca4f, 0x1487472c) == 0x6b0912ae
    ensures Temp1(0xe50e1b4f, 0x9f4787c3, 0x529e7d00, 0x49231c1e, 0x682e6ff3, 0xb20f7a99) == 0xcc5cac49
    ensures Temp1(0x54cb266b, 0xe50e1b4f, 0x9f4787c3, 0x529e7d00, 0x748f82ee, 0xef57b9cd) == 0x8b3ebddd
    ensures Temp1(0x9b5e906c, 0x54cb266b, 0xe50e1b4f, 0x9f4787c3, 0x78a5636f, 0xebe6b238) == 0x88d3d0b3
    ensures Temp1(0x7e44008e, 0x9b5e906c, 0x54cb266b, 0xe50e1b4f, 0x84c87814, 0x9fe3095e) == 0x2ebf62eb
    ensures Temp1(0x6d83bfc6, 0x7e44008e, 0x9b5e906c, 0x54cb266b, 0x8cc70208, 0x78bc8d4b) == 0x794f142a
    ensures Temp1(0xb21bad3d, 0x6d83bfc6, 0x7e44008e, 0x9b5e906c, 0x90befffa, 0xa43fcf15) == 0x994dc019
    ensures Temp1(0x961f4894, 0xb21bad3d, 0x6d83bfc6, 0x7e44008e, 0xa4506ceb, 0x668b2ff8) == 0xd42a5147
    ensures Temp1(0x948d25b6, 0x961f4894, 0xb21bad3d, 0x6d83bfc6, 0xbef9a3f7, 0xeeaba2cc) == 0xfb5b0d9e
    ensures Temp1(0xfb121210, 0x948d25b6, 0x961f4894, 0xb21bad3d, 0xc67178f2, 0x12b1edeb) == 0xa8467f25
    ensures Temp2(0x4172328d, 0xa14c14b0, 0x72ab4b91) == 0x6e66c4c8
    ensures Temp2(0x05757ceb, 0x4172328d, 0xa14c14b0) == 0xf56b0d2d
    ensures Temp2(0xf11bfaa8, 0x05757ceb, 0x4172328d) == 0xc85f505a
    ensures Temp2(0x7a0508a1, 0xf11bfaa8, 0x05757ceb) == 0x80bd9091
    ensures Temp2(0x886e7a22, 0x7a0508a1, 0xf11bfaa8) == 0xc2f6d27a
    ensures Temp2(0x101fd28f, 0x886e7a22, 0x7a0508a1) == 0x4744a2c0
    ensures Temp2(0xf5702fdb, 0x101fd28f, 0x886e7a22) == 0xd3bb4a2d
    ensures Temp2(0x3ec45cdb, 0xf5702fdb, 0x101fd28f) == 0x6c6fecca
    ensures Temp2(0x38cc9913, 0x3ec45cdb, 0xf5702fdb) == 0x7192ca9e
    ensures Temp2(0xfcd1887b, 0x38cc9913, 0x3ec45cdb) == 0x378f03bc
    ensures Temp2(0xc062d46f, 0xfcd1887b, 0x38cc9913) == 0xd0f7a187
    ensures Temp2(0xffb70472, 0xc062d46f, 0xfcd1887b) == 0x3d5f7bd5
    ensures Temp2(0xb6ae8fff, 0xffb70472, 0xc062d46f) == 0x1f106cd0
    ensures Temp2(0xb85e2ce9, 0xb6ae8fff, 0xffb70472) == 0x30a7fc25
    ensures Temp2(0x04d24d6c, 0xb85e2ce9, 0xb6ae8fff) == 0xd83f13c7
    ensures Temp2(0xd39a2165, 0x04d24d6c, 0xb85e2ce9) == 0xa827b133
  {
  }

  lemma States3()
    ensures Round(Round(Round(Round(Round(Round(Round(Round(Round(Round(Round(Round(Round(Round(Round(Round(
              Regs(0x4172328d, 0xa14c14b0, 0x72ab4b91, 0x26628815, 0xfecf0bc6, 0xd57b94a9, 0xb7755da1, 0xa80f11f0),
              0x19a4c116, 0xfb3e89cb), 0x1e376c08, 0xcc7617db), 0x2748774c, 0xb9e66c34), 0x34b0bcb5, 0xa9993667),
              0x391c0cb3, 0x84badedd), 0x4ed8aa4a, 0xc21462bc), 0x5b9cca4f, 0x1487472c), 0x682e6ff3, 0xb20f7a99),
              0x748f82ee, 0xef57b9cd), 0x78a5636f, 0xebe6b238), 0x84c87814, 0x9fe3095e), 0x8cc70208, 0x78bc8d4b),
              0x90befffa, 0xa43fcf15), 0xa4506ceb, 0x668b2ff8), 0xbef9a3f7, 0xeeaba2cc), 0xc67178f2, 0x12b1edeb)
            == Regs(0x506e3058, 0xd39a2165, 0x04d24d6c, 0xb85e2ce9, 0x5ef50f24, 0xfb121210, 0x948d25b6, 0x961f4894)
  {
    Sums3();
    hide Temp1, Temp2;
  }

  lemma Rounds3(b: Bytes)
    requires AbcBlock(b)
    ensures Rounds(H0, b, 64) == Regs(0x506e3058, 0xd39a2165, 0x04d24d6c, 0xb85e2ce9,
                                      0x5ef50f24, 0xfb121210, 0x948d25b6, 0x961f4894)
  {
    Rounds2(b);
    Words3(b);
    Constants3();
    States3();
    hide AbcBlock, Schedule, Round, K, Rounds, H0;
    RoundStep(b, 48); RoundStep(b, 49); RoundStep(b, 50); RoundStep(b, 51);
    RoundStep(b, 52); RoundStep(b, 53); RoundStep(b, 54); RoundStep(b, 55);
    RoundStep(b, 56); RoundStep(b, 57); RoundStep(b, 58); RoundStep(b, 59);
    RoundStep(b, 60); RoundStep(b, 61); RoundStep(b, 62); RoundStep(b, 63);
  }

  // ------------------------------------------------------------------------ the digest

  const FINAL := Regs(0xba7816bf, 0x8f01cfea, 0x414140de, 0x5dae2223,
                      0xb00361a3, 0x96177a9c, 0xb410ff61, 0xf20015ad)

  lemma AbcSum()
    ensures Added(H0, Regs(0x506e3058, 0xd39a2165, 0x04d24d6c, 0xb85e2ce9,
                                   0x5ef50f24, 0xfb121210, 0x948d25b6, 0x961f4894)) == FINAL
  {
  }

  lemma OneBlock(state: Regs, b: Bytes)
    requires |b| == 64
    ensures Fold(state, b) == Added(state, Rounds(state, b, 64))
  {
    hide Rounds, Added;
    assert b[..64] == b && b[64..] == [];
  }

  lemma AbcState()
    ensures Fold(H0, Pad(ABC)) == FINAL
  {
    AbcPadded();
    AbcSum();
    var b := Pad(ABC);
    hide Pad, Rounds, Added, Fold, H0, FINAL;
    Rounds3(b);
    OneBlock(H0, b);
  }

  lemma {:induction false} HexConcat(x: seq<bv8>, y: seq<bv8>)
    ensures Hex(x + y) == Hex(x) + Hex(y)
  {
    if x == [] {
      assert x + y == y;
    } else {
      assert (x + y)[1..] == x[1..] + y;
      HexConcat(x[1..], y);
    }
  }

  lemma HexCons(b: bv8, d: seq<bv8>)
    ensures Hex([b] + d) == HexByte(b) + Hex(d)
  {
  }

  lemma HexFour(a: bv8, b: bv8, c: bv8, d: bv8)
    ensures Hex([a, b, c, d]) == HexByte(a) + (HexByte(b) + (HexByte(c) + HexByte(d)))
  {
    hide HexByte;
    HexCons(a, [b, c, d]);
    HexCons(b, [c, d]);
    HexCons(c, [d]);
    assert [a] + [b, c, d] == [a, b, c, d] && [b] + [c, d] == [b, c, d] && [c] + [d] == [c, d];
    assert Hex([d]) == HexByte(d) + [];
  }

  lemma HexDigits()
    ensures |HEX| == 16
    ensures HEX[0] == '0' && HEX[1] == '1' && HEX[2] == '2' && HEX[3] == '3' && HEX[4] == '4' && HEX[5] == '5'
    ensures HEX[6] == '6' && HEX[7] == '7' && HEX[8] == '8' && HEX[9] == '9' && HEX[10] == 'a' && HEX[11] == 'b'
    ensures HEX[12] == 'c' && HEX[13] == 'd' && HEX[14] == 'e' && HEX[15] == 'f'
  {
  }

  lemma FinalBytes()
    ensures WordOut(0xba7816bf) == [0xba, 0x78, 0x16, 0xbf]
    ensures WordOut(0x8f01cfea) == [0x8f, 0x01, 0xcf, 0xea]
    ensures WordOut(0x414140de) == [0x41, 0x41, 0x40, 0xde]
    ensures WordOut(0x5dae2223) == [0x5d, 0xae, 0x22, 0x23]
    ensures WordOut(0xb00361a3) == [0xb0, 0x03, 0x61, 0xa3]
    ensures WordOut(0x96177a9c) == [0x96, 0x17, 0x7a, 0x9c]
    ensures WordOut(0xb410ff61) == [0xb4, 0x10, 0xff, 0x61]
    ensures WordOut(0xf20015ad) == [0xf2, 0x00, 0x15, 0xad]
  {
  }

  lemma Digits0()
    ensures Hex(WordOut(0xba7816bf)) == "ba7816bf"
  {
    FinalBytes();
    HexDigits();
    hide Hex, WordOut, HEX;
    HexFour(0xba, 0x78, 0x16, 0xbf);
    assert HexByte(0xba) == "ba" && HexByte(0x78) == "78" && HexByte(0x16) == "16" && HexByte(0xbf) == "bf";
  }

  lemma Digits1()
    ensures Hex(WordOut(0x8f01cfea)) == "8f01cfea"
  {
    FinalBytes();
    HexDigits();
    hide Hex, WordOut, HEX;
    HexFour(0x8f, 0x01, 0xcf, 0xea);
    assert HexByte(0x8f) == "8f" && HexByte(0x01) == "01" && HexByte(0xcf) == "cf" && HexByte(0xea) == "ea";
  }

  lemma Digits2()
    ensures Hex(WordOut(0x414140de)) == "414140de"
  {
    FinalBytes();
    HexDigits();
    hide Hex, WordOut, HEX;
    HexFour(0x41, 0x41, 0x40, 0xde);
    assert HexByte(0x41) == "41" && HexByte(0x41) == "41" && HexByte(0x40) == "40" && HexByte(0xde) == "de";
  }

  lemma Digits3()
    ensures Hex(WordOut(0x5dae2223)) == "5dae2223"
  {
    FinalBytes();
    HexDigits();
    hide Hex, WordOut, HEX;
    HexFour(0x5d, 0xae, 0x22, 0x23);
    assert HexByte(0x5d) == "5d" && HexByte(0xae) == "ae" && HexByte(0x22) == "22" && HexByte(0x23) == "23";
  }

  lemma Digits4()
    ensures Hex(WordOut(0xb00361a3)) == "b00361a3"
  {
    FinalBytes();
    HexDigits();
    hide Hex, WordOut, HEX;
    HexFour(0xb0, 0x03, 0x61, 0xa3);
    assert HexByte(0xb0) == "b0" && HexByte(0x03) == "03" && HexByte(0x61) == "61" && HexByte(0xa3) == "a3";
  }

  lemma Digits5()
    ensures Hex(WordOut(0x96177a9c)) == "96177a9c"
  {
    FinalBytes();
    HexDigits();
    hide Hex, WordOut, HEX;
    HexFour(0x96, 0x17, 0x7a, 0x9c);
    assert HexByte(0x96) == "96" && HexByte(0x17) == "17" && HexByte(0x7a) == "7a" && HexByte(0x9c) == "9c";
  }

  lemma Digits6()
    ensures Hex(WordOut(0xb410ff61)) == "b410ff61"
  {
    FinalBytes();
    HexDigits();
    hide Hex, WordOut, HEX;
    HexFour(0xb4, 0x10, 0xff, 0x61);
    assert HexByte(0xb4) == "b4" && HexByte(0x10) == "10" && HexByte(0xff) == "ff" && HexByte(0x61) == "61";
  }

  lemma Digits7()
    ensures Hex(WordOut(0xf20015ad)) == "f20015ad"
  {
    FinalBytes();
    HexDigits();
    hide Hex, WordOut, HEX;
    HexFour(0xf2, 0x00, 0x15, 0xad);
    assert HexByte(0xf2) == "f2" && HexByte(0x00) == "00" && HexByte(0x15) == "15" && HexByte(0xad) == "ad";
  }

  lemma HexOutput(v: Regs)
    ensures Hex(Output(v)) == Hex(WordOut(v.a)) + Hex(WordOut(v.b)) + Hex(WordOut(v.c)) + Hex(WordOut(v.d))
                            + Hex(WordOut(v.e)) + Hex(WordOut(v.f)) + Hex(WordOut(v.g)) + Hex(WordOut(v.h))
  {
    hide Hex, WordOut;
    var ab := WordOut(v.a) + WordOut(v.b);
    var abcd := ab + WordOut(v.c) + WordOut(v.d);
    var abcdef := abcd + WordOut(v.e) + WordOut(v.f);
    HexConcat(WordOut(v.a), WordOut(v.b));
    HexConcat(ab, WordOut(v.c));
    HexConcat(ab + WordOut(v.c), WordOut(v.d));
    HexConcat(abcd, WordOut(v.e));
    HexConcat(abcd + WordOut(v.e), WordOut(v.f));
    HexConcat(abcdef, WordOut(v.g));
    HexConcat(abcdef + WordOut(v.g), WordOut(v.h));
  }

  /** The hexadecimal digest of "abc". */
  lemma KnownVector()
    ensures Hex(Digest(ABC)) == "ba7816bf" + "8f01cfea" + "414140de" + "5dae2223"
                             + "b00361a3" + "96177a9c" + "b410ff61" + "f20015ad"
  {
    hide Hex, WordOut, Fold, Pad;
    AbcState();
    HexOutput(FINAL);
    Digits0(); Digits1(); Digits2(); Digits3(); Digits4(); Digits5(); Digits6(); Digits7();
  }
}
