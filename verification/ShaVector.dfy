/** The example of FIPS 180-4 for a message of one block: the digest of "abc", word by word.
    Words t to t + 7 of the two tables below are the working variables before round t. */
module ShaVector {
  import opened Sha256

  const ABC: seq<Byte> := [97, 98, 99]

  /** d, c, b and a before round 0, then a after each round. */
  function StateA(t: nat): Word
    requires t < 68
  {
    if t < 8 then match t
      case 0 => 0xa54ff53a case 1 => 0x3c6ef372 case 2 => 0xbb67ae85 case 3 => 0x6a09e667
      case 4 => 0x5d6aebcd case 5 => 0x5a6ad9ad case 6 => 0xc8c347a7 case 7 => 0xd550f666
    else if t < 16 then match t
      case 8 => 0x04409a6a case 9 => 0x2b4209f5 case 10 => 0xe5030380 case 11 => 0x85a07b5f
      case 12 => 0x8e04ecb9 case 13 => 0x8c87346b case 14 => 0x4798a3f4 case 15 => 0xf71fc5a9
    else if t < 24 then match t
      case 16 => 0x87912990 case 17 => 0xd932eb16 case 18 => 0xc0645fde case 19 => 0xb0fa238e
      case 20 => 0x21da9a9b case 21 => 0xc2fbd9d1 case 22 => 0xfe777bbf case 23 => 0xe1f20c33
    else if t < 32 then match t
      case 24 => 0x9dc68b63 case 25 => 0xc2606d6d case 26 => 0xa7a3623f case 27 => 0xc5d53d8d
      case 28 => 0x1c2c2838 case 29 => 0xcde8037d case 30 => 0xb62ec4bc case 31 => 0x77d37528
    else if t < 40 then match t
      case 32 => 0x363482c9 case 33 => 0xa0060b30 case 34 => 0xea992a22 case 35 => 0x73b33bf5
      case 36 => 0x98e12507 case 37 => 0xfe604df5 case 38 => 0xa9a7738c case 39 => 0x65a0cfe4
    else if t < 48 then match t
      case 40 => 0x41a65cb1 case 41 => 0x34df1604 case 42 => 0x6dc57a8a case 43 => 0x79ea687a
      case 44 => 0xd6670766 case 45 => 0xdf46652f case 46 => 0x17aa0dfe case 47 => 0x9d4baf93
    else if t < 56 then match t
      case 48 => 0x26628815 case 49 => 0x72ab4b91 case 50 => 0xa14c14b0 case 51 => 0x4172328d
      case 52 => 0x05757ceb case 53 => 0xf11bfaa8 case 54 => 0x7a0508a1 case 55 => 0x886e7a22
    else if t < 64 then match t
      case 56 => 0x101fd28f case 57 => 0xf5702fdb case 58 => 0x3ec45cdb case 59 => 0x38cc9913
      case 60 => 0xfcd1887b case 61 => 0xc062d46f case 62 => 0xffb70472 case 63 => 0xb6ae8fff
    else match t
      case 64 => 0xb85e2ce9 case 65 => 0x04d24d6c case 66 => 0xd39a2165 case 67 => 0x506e3058
  }

  /** h, g, f and e before round 0, then e after each round. */
  function StateE(t: nat): Word
    requires t < 68
  {
    if t < 8 then match t
      case 0 => 0x5be0cd19 case 1 => 0x1f83d9ab case 2 => 0x9b05688c case 3 => 0x510e527f
      case 4 => 0xfa2a4622 case 5 => 0x78ce7989 case 6 => 0xf92939eb case 7 => 0x24e00850
    else if t < 16 then match t
      case 8 => 0x43ada245 case 9 => 0x714260ad case 10 => 0x9b27a401 case 11 => 0x0c657a79
      case 12 => 0x32ca2d8c case 13 => 0x1cc92596 case 14 => 0x436b23e8 case 15 => 0x816fd6e9
    else if t < 24 then match t
      case 16 => 0x1e578218 case 17 => 0x745a48de case 18 => 0x0b92f20c case 19 => 0x07590dcd
      case 20 => 0x8034229c case 21 => 0x846ee454 case 22 => 0xcc899961 case 23 => 0xb0638179
    else if t < 32 then match t
      case 24 => 0x8ada8930 case 25 => 0xe1257970 case 26 => 0x49f5114a case 27 => 0xaa47c347
      case 28 => 0x2823ef91 case 29 => 0x14383d8e case 30 => 0xc74c6516 case 31 => 0xedffbff8
    else if t < 40 then match t
      case 32 => 0x6112a3b7 case 33 => 0xade79437 case 34 => 0x0109ab3a case 35 => 0xba591112
      case 36 => 0x9cd9f5f6 case 37 => 0x59249dd3 case 38 => 0x085f3833 case 39 => 0xf4b002d6
    else if t < 48 then match t
      case 40 => 0x0772a26b case 41 => 0xa507a53d case 42 => 0xf0781bc8 case 43 => 0x1efbc0a0
      case 44 => 0x26352d63 case 45 => 0x838b2711 case 46 => 0xdecd4715 case 47 => 0xfda24c2e
    else if t < 56 then match t
      case 48 => 0xa80f11f0 case 49 => 0xb7755da1 case 50 => 0xd57b94a9 case 51 => 0xfecf0bc6
      case 52 => 0xbd714038 case 53 => 0x6e5c390c case 54 => 0x52f1ccf7 case 55 => 0x49231c1e
    else if t < 64 then match t
      case 56 => 0x529e7d00 case 57 => 0x9f4787c3 case 58 => 0xe50e1b4f case 59 => 0x54cb266b
      case 60 => 0x9b5e906c case 61 => 0x7e44008e case 62 => 0x6d83bfc6 case 63 => 0xb21bad3d
    else match t
      case 64 => 0x961f4894 case 65 => 0x948d25b6 case 66 => 0xfb121210 case 67 => 0x5ef50f24
  }

  /** The message schedule. */
  function Word32(t: nat): Word
    requires t < 64
  {
    if t < 8 then match t
      case 0 => 0x61626380 case 1 => 0x00000000 case 2 => 0x00000000 case 3 => 0x00000000
      case 4 => 0x00000000 case 5 => 0x00000000 case 6 => 0x00000000 case 7 => 0x00000000
    else if t < 16 then match t
      case 8 => 0x00000000 case 9 => 0x00000000 case 10 => 0x00000000 case 11 => 0x00000000
      case 12 => 0x00000000 case 13 => 0x00000000 case 14 => 0x00000000 case 15 => 0x00000018
    else if t < 24 then match t
      case 16 => 0x61626380 case 17 => 0x000f0000 case 18 => 0x7da86405 case 19 => 0x600003c6
      case 20 => 0x3e9d7b78 case 21 => 0x0183fc00 case 22 => 0x12dcbfdb case 23 => 0xe2e2c38e
    else if t < 32 then match t
      case 24 => 0xc8215c1a case 25 => 0xb73679a2 case 26 => 0xe5bc3909 case 27 => 0x32663c5b
      case 28 => 0x9d209d67 case 29 => 0xec8726cb case 30 => 0x702138a4 case 31 => 0xd3b7973b
    else if t < 40 then match t
      case 32 => 0x93f5997f case 33 => 0x3b68ba73 case 34 => 0xaff4ffc1 case 35 => 0xf10a5c62
      case 36 => 0x0a8b3996 case 37 => 0x72af830a case 38 => 0x9409e33e case 39 => 0x24641522
    else if t < 48 then match t
      case 40 => 0x9f47bf94 case 41 => 0xf0a64f5a case 42 => 0x3e246a79 case 43 => 0x27333ba3
      case 44 => 0x0c4763f2 case 45 => 0x840abf27 case 46 => 0x7a290d5d case 47 => 0x065c43da
    else if t < 56 then match t
      case 48 => 0xfb3e89cb case 49 => 0xcc7617db case 50 => 0xb9e66c34 case 51 => 0xa9993667
      case 52 => 0x84badedd case 53 => 0xc21462bc case 54 => 0x1487472c case 55 => 0xb20f7a99
    else match t
      case 56 => 0xef57b9cd case 57 => 0xebe6b238 case 58 => 0x9fe3095e case 59 => 0x78bc8d4b
      case 60 => 0xa43fcf15 case 61 => 0x668b2ff8 case 62 => 0xeeaba2cc case 63 => 0x12b1edeb
  }

  function VarsAt(t: nat): Vars
    requires t <= 64
  {
    Vars(StateA(t + 3), StateA(t + 2), StateA(t + 1), StateA(t), StateE(t + 3), StateE(t + 2), StateE(t + 1), StateE(t))
  }

  function AbcBlock(): Block {
    ParseBlock(Pad(ABC))
  }

  // ---------------------------------------------------------------------------------
  // The values of the word functions that occur, eight words and eight rounds at a time
  // ---------------------------------------------------------------------------------

  lemma Words16()
    ensures SmallSigma1(0x00000000) == 0x00000000 && SmallSigma0(0x00000000) == 0x00000000
    ensures SmallSigma1(0x00000018) == 0x000f0000 && SmallSigma0(0x00000000) == 0x00000000
    ensures SmallSigma1(0x61626380) == 0x7da86405 && SmallSigma0(0x00000000) == 0x00000000
    ensures SmallSigma1(0x000f0000) == 0x600003c6 && SmallSigma0(0x00000000) == 0x00000000
    ensures SmallSigma1(0x7da86405) == 0x3e9d7b78 && SmallSigma0(0x00000000) == 0x00000000
    ensures SmallSigma1(0x600003c6) == 0x0183fc00 && SmallSigma0(0x00000000) == 0x00000000
    ensures SmallSigma1(0x3e9d7b78) == 0x12dcbfc3 && SmallSigma0(0x00000000) == 0x00000000
    ensures SmallSigma1(0x0183fc00) == 0x8180600e && SmallSigma0(0x00000000) == 0x00000000
  {
  }

  lemma WordSums16()
    ensures Add(Add(Add(0x00000000, 0x00000000), 0x00000000), 0x61626380) == 0x61626380
    ensures Add(Add(Add(0x000f0000, 0x00000000), 0x00000000), 0x00000000) == 0x000f0000
    ensures Add(Add(Add(0x7da86405, 0x00000000), 0x00000000), 0x00000000) == 0x7da86405
    ensures Add(Add(Add(0x600003c6, 0x00000000), 0x00000000), 0x00000000) == 0x600003c6
    ensures Add(Add(Add(0x3e9d7b78, 0x00000000), 0x00000000), 0x00000000) == 0x3e9d7b78
    ensures Add(Add(Add(0x0183fc00, 0x00000000), 0x00000000), 0x00000000) == 0x0183fc00
    ensures Add(Add(Add(0x12dcbfc3, 0x00000018), 0x00000000), 0x00000000) == 0x12dcbfdb
    ensures Add(Add(Add(0x8180600e, 0x61626380), 0x00000000), 0x00000000) == 0xe2e2c38e
  {
  }

  lemma Words24()
    ensures SmallSigma1(0x12dcbfdb) == 0xc8125c1a && SmallSigma0(0x00000000) == 0x00000000
    ensures SmallSigma1(0xe2e2c38e) == 0x398e159d && SmallSigma0(0x00000000) == 0x00000000
    ensures SmallSigma1(0xc8215c1a) == 0x85bc3543 && SmallSigma0(0x00000000) == 0x00000000
    ensures SmallSigma1(0xb73679a2) == 0xf3c8c0e3 && SmallSigma0(0x00000000) == 0x00000000
    ensures SmallSigma1(0xe5bc3909) == 0x9b9ca167 && SmallSigma0(0x00000000) == 0x00000000
    ensures SmallSigma1(0x32663c5b) == 0xd9aa66f0 && SmallSigma0(0x00000000) == 0x00000000
    ensures SmallSigma1(0x9d209d67) == 0x5d387513 && SmallSigma0(0x00000018) == 0x30060003
    ensures SmallSigma1(0xec8726cb) == 0x7787aa1a && SmallSigma0(0x61626380) == 0x940e90ef
  {
  }

  lemma WordSums24()
    ensures Add(Add(Add(0xc8125c1a, 0x000f0000), 0x00000000), 0x00000000) == 0xc8215c1a
    ensures Add(Add(Add(0x398e159d, 0x7da86405), 0x00000000), 0x00000000) == 0xb73679a2
    ensures Add(Add(Add(0x85bc3543, 0x600003c6), 0x00000000), 0x00000000) == 0xe5bc3909
    ensures Add(Add(Add(0xf3c8c0e3, 0x3e9d7b78), 0x00000000), 0x00000000) == 0x32663c5b
    ensures Add(Add(Add(0x9b9ca167, 0x0183fc00), 0x00000000), 0x00000000) == 0x9d209d67
    ensures Add(Add(Add(0xd9aa66f0, 0x12dcbfdb), 0x00000000), 0x00000000) == 0xec8726cb
    ensures Add(Add(Add(0x5d387513, 0xe2e2c38e), 0x30060003), 0x00000000) == 0x702138a4
    ensures Add(Add(Add(0x7787aa1a, 0xc8215c1a), 0x940e90ef), 0x00000018) == 0xd3b7973b
  {
  }

  lemma Words32()
    ensures SmallSigma1(0x702138a4) == 0xbb5abe5a && SmallSigma0(0x000f0000) == 0xc001fe03
    ensures SmallSigma1(0xd3b7973b) == 0x394e7e48 && SmallSigma0(0x7da86405) == 0x1c4f0322
    ensures SmallSigma1(0x93f5997f) == 0x7fb4c6e2 && SmallSigma0(0x600003c6) == 0x8031987f
    ensures SmallSigma1(0x3b68ba73) == 0x4a7920f7 && SmallSigma0(0x3e9d7b78) == 0xa9709a3e
    ensures SmallSigma1(0xaff4ffc1) == 0xe0331f3b && SmallSigma0(0x0183fc00) == 0xff337818
    ensures SmallSigma1(0xf10a5c62) == 0x65816433 && SmallSigma0(0x12dcbfdb) == 0x9b88ea33
    ensures SmallSigma1(0x0a8b3996) == 0xfbfb66da && SmallSigma0(0xe2e2c38e) == 0xb17a254e
    ensures SmallSigma1(0x72af830a) == 0x31f8dce2 && SmallSigma0(0xc8215c1a) == 0x7b92db33
  {
  }

  lemma WordSums32()
    ensures Add(Add(Add(0xbb5abe5a, 0xb73679a2), 0xc001fe03), 0x61626380) == 0x93f5997f
    ensures Add(Add(Add(0x394e7e48, 0xe5bc3909), 0x1c4f0322), 0x000f0000) == 0x3b68ba73
    ensures Add(Add(Add(0x7fb4c6e2, 0x32663c5b), 0x8031987f), 0x7da86405) == 0xaff4ffc1
    ensures Add(Add(Add(0x4a7920f7, 0x9d209d67), 0xa9709a3e), 0x600003c6) == 0xf10a5c62
    ensures Add(Add(Add(0xe0331f3b, 0xec8726cb), 0xff337818), 0x3e9d7b78) == 0x0a8b3996
    ensures Add(Add(Add(0x65816433, 0x702138a4), 0x9b88ea33), 0x0183fc00) == 0x72af830a
    ensures Add(Add(Add(0xfbfb66da, 0xd3b7973b), 0xb17a254e), 0x12dcbfdb) == 0x9409e33e
    ensures Add(Add(Add(0x31f8dce2, 0x93f5997f), 0x7b92db33), 0xe2e2c38e) == 0x24641522
  {
  }

  lemma Words40()
    ensures SmallSigma1(0x9409e33e) == 0xcddd9afd && SmallSigma0(0xb73679a2) == 0xcde00e0a
    ensures SmallSigma1(0x24641522) == 0x883c4fbb && SmallSigma0(0xe5bc3909) == 0x013e863c
    ensures SmallSigma1(0x9f47bf94) == 0x281f0da4 && SmallSigma0(0x32663c5b) == 0x3f3ec76a
    ensures SmallSigma1(0xf0a64f5a) == 0xee7a0fd4 && SmallSigma0(0x9d209d67) == 0xfbc7b5de
    ensures SmallSigma1(0x3e246a79) == 0xb87c31cc && SmallSigma0(0xec8726cb) == 0x43fb11b5
    ensures SmallSigma1(0x27333ba3) == 0xfaac3bb1 && SmallSigma0(0x702138a4) == 0x08cd796d
    ensures SmallSigma1(0x0c4763f2) == 0x5d845673 && SmallSigma0(0xd3b7973b) == 0x881f6924
    ensures SmallSigma1(0x840abf27) == 0x0856302b && SmallSigma0(0x93f5997f) == 0x8b06bce0
  {
  }

  lemma WordSums40()
    ensures Add(Add(Add(0xcddd9afd, 0x3b68ba73), 0xcde00e0a), 0xc8215c1a) == 0x9f47bf94
    ensures Add(Add(Add(0x883c4fbb, 0xaff4ffc1), 0x013e863c), 0xb73679a2) == 0xf0a64f5a
    ensures Add(Add(Add(0x281f0da4, 0xf10a5c62), 0x3f3ec76a), 0xe5bc3909) == 0x3e246a79
    ensures Add(Add(Add(0xee7a0fd4, 0x0a8b3996), 0xfbc7b5de), 0x32663c5b) == 0x27333ba3
    ensures Add(Add(Add(0xb87c31cc, 0x72af830a), 0x43fb11b5), 0x9d209d67) == 0x0c4763f2
    ensures Add(Add(Add(0xfaac3bb1, 0x9409e33e), 0x08cd796d), 0xec8726cb) == 0x840abf27
    ensures Add(Add(Add(0x5d845673, 0x24641522), 0x881f6924), 0x702138a4) == 0x7a290d5d
    ensures Add(Add(Add(0x0856302b, 0x9f47bf94), 0x8b06bce0), 0xd3b7973b) == 0x065c43da
  {
  }

  lemma Words48()
    ensures SmallSigma1(0x7a290d5d) == 0xa71b9812 && SmallSigma0(0x3b68ba73) == 0xcf8708e0
    ensures SmallSigma1(0x065c43da) == 0xa997d4f5 && SmallSigma0(0xaff4ffc1) == 0xa9511dfa
    ensures SmallSigma1(0xfb3e89cb) == 0x95e24d5a && SmallSigma0(0xf10a5c62) == 0x4cdbe376
    ensures SmallSigma1(0xcc7617db) == 0xc9258230 && SmallSigma0(0x0a8b3996) == 0xe321f3e3
    ensures SmallSigma1(0xb9e66c34) == 0xfbb2b254 && SmallSigma0(0x72af830a) == 0xfa7233cc
    ensures SmallSigma1(0xa9993667) == 0xbdd547b2 && SmallSigma0(0x9409e33e) == 0x17668aa3
    ensures SmallSigma1(0x84badedd) == 0x34945c7d && SmallSigma0(0x24641522) == 0x458cc397
    ensures SmallSigma1(0xc21462bc) == 0xbd397c50 && SmallSigma0(0x9f47bf94) == 0xd5335f5c
  {
  }

  lemma WordSums48()
    ensures Add(Add(Add(0xa71b9812, 0xf0a64f5a), 0xcf8708e0), 0x93f5997f) == 0xfb3e89cb
    ensures Add(Add(Add(0xa997d4f5, 0x3e246a79), 0xa9511dfa), 0x3b68ba73) == 0xcc7617db
    ensures Add(Add(Add(0x95e24d5a, 0x27333ba3), 0x4cdbe376), 0xaff4ffc1) == 0xb9e66c34
    ensures Add(Add(Add(0xc9258230, 0x0c4763f2), 0xe321f3e3), 0xf10a5c62) == 0xa9993667
    ensures Add(Add(Add(0xfbb2b254, 0x840abf27), 0xfa7233cc), 0x0a8b3996) == 0x84badedd
    ensures Add(Add(Add(0xbdd547b2, 0x7a290d5d), 0x17668aa3), 0x72af830a) == 0xc21462bc
    ensures Add(Add(Add(0x34945c7d, 0x065c43da), 0x458cc397), 0x9409e33e) == 0x1487472c
    ensures Add(Add(Add(0xbd397c50, 0xfb3e89cb), 0xd5335f5c), 0x24641522) == 0xb20f7a99
  {
  }

  lemma Words56()
    ensures SmallSigma1(0x1487472c) == 0x4b76a902 && SmallSigma0(0xf0a64f5a) == 0x3823395c
    ensures SmallSigma1(0xb20f7a99) == 0x52336c98 && SmallSigma0(0x3e246a79) == 0xef268a12
    ensures SmallSigma1(0xef57b9cd) == 0x2be49faf && SmallSigma0(0x27333ba3) == 0x8c40c8cf
    ensures SmallSigma1(0xebe6b238) == 0x8f619123 && SmallSigma0(0x0c4763f2) == 0x3d6ce1a8
    ensures SmallSigma1(0x9fe3095e) == 0xe5a364cf && SmallSigma0(0x840abf27) == 0xf040a398
    ensures SmallSigma1(0x78bc8d4b) == 0xd712fc6a && SmallSigma0(0x7a290d5d) == 0xf6e62d3b
    ensures SmallSigma1(0xa43fcf15) == 0x1e41696b && SmallSigma0(0x065c43da) == 0xa431b16b
    ensures SmallSigma1(0x668b2ff8) == 0xf21a9d5f && SmallSigma0(0xfb3e89cb) == 0x2ae352e5
  {
  }

  lemma WordSums56()
    ensures Add(Add(Add(0x4b76a902, 0xcc7617db), 0x3823395c), 0x9f47bf94) == 0xef57b9cd
    ensures Add(Add(Add(0x52336c98, 0xb9e66c34), 0xef268a12), 0xf0a64f5a) == 0xebe6b238
    ensures Add(Add(Add(0x2be49faf, 0xa9993667), 0x8c40c8cf), 0x3e246a79) == 0x9fe3095e
    ensures Add(Add(Add(0x8f619123, 0x84badedd), 0x3d6ce1a8), 0x27333ba3) == 0x78bc8d4b
    ensures Add(Add(Add(0xe5a364cf, 0xc21462bc), 0xf040a398), 0x0c4763f2) == 0xa43fcf15
    ensures Add(Add(Add(0xd712fc6a, 0x1487472c), 0xf6e62d3b), 0x840abf27) == 0x668b2ff8
    ensures Add(Add(Add(0x1e41696b, 0xb20f7a99), 0xa431b16b), 0x7a290d5d) == 0xeeaba2cc
    ensures Add(Add(Add(0xf21a9d5f, 0xef57b9cd), 0x2ae352e5), 0x065c43da) == 0x12b1edeb
  {
  }

  lemma Functions0()
    ensures BigSigma0(0x6a09e667) == 0xce20b47e && Maj(0x6a09e667, 0xbb67ae85, 0x3c6ef372) == 0x3a6fe667
    ensures BigSigma1(0x510e527f) == 0x3587272b && Ch(0x510e527f, 0x9b05688c, 0x1f83d9ab) == 0x1f85c98c
    ensures BigSigma0(0x5d6aebcd) == 0xa29f64d1 && Maj(0x5d6aebcd, 0x6a09e667, 0xbb67ae85) == 0x7b6beec5
    ensures BigSigma1(0xfa2a4622) == 0x5a94fd2d && Ch(0xfa2a4622, 0x510e527f, 0x9b05688c) == 0x510f6aae
    ensures BigSigma0(0x5a6ad9ad) == 0x3096d054 && Maj(0x5a6ad9ad, 0x5d6aebcd, 0x6a09e667) == 0x5a6aebed
    ensures BigSigma1(0x78ce7989) == 0x73f0e495 && Ch(0x78ce7989, 0xfa2a4622, 0x510e527f) == 0x790a4276
    ensures BigSigma0(0xc8c347a7) == 0xc21008d0 && Maj(0xc8c347a7, 0x5a6ad9ad, 0x5d6aebcd) == 0x586acbad
    ensures BigSigma1(0xf92939eb) == 0x0607743c && Ch(0xf92939eb, 0x78ce7989, 0xfa2a4622) == 0x7a0a7f89
    ensures BigSigma0(0xd550f666) == 0x45bb0c4b && Maj(0xd550f666, 0xc8c347a7, 0x5a6ad9ad) == 0xd842d7a7
    ensures BigSigma1(0x24e00850) == 0x3a933432 && Ch(0x24e00850, 0xf92939eb, 0x78ce7989) == 0x782e79c9
    ensures BigSigma0(0x04409a6a) == 0x5029ac8f && Maj(0x04409a6a, 0xd550f666, 0xc8c347a7) == 0xc440d666
    ensures BigSigma1(0x43ada245) == 0x8b77e19c && Ch(0x43ada245, 0x24e00850, 0xf92939eb) == 0xb8a019ea
    ensures BigSigma0(0x2b4209f5) == 0x0d5e0cc0 && Maj(0x2b4209f5, 0x04409a6a, 0xd550f666) == 0x05409a66
    ensures BigSigma1(0x714260ad) == 0x015b7776 && Ch(0x714260ad, 0x43ada245, 0x24e00850) == 0x45a02855
    ensures BigSigma0(0xe5030380) == 0x2949eb6c && Maj(0xe5030380, 0x2b4209f5, 0x04409a6a) == 0x25420be0
    ensures BigSigma1(0x9b27a401) == 0x158dfaa9 && Ch(0x9b27a401, 0x714260ad, 0x43ada245) == 0x518a2245
  {
  }

  lemma Rounds0()
    ensures NextRound(0) && NextRound(1) && NextRound(2) && NextRound(3)
  {
    hide BigSigma0, BigSigma1, Ch, Maj;
    Functions0();
  }

  lemma Rounds4()
    ensures NextRound(4) && NextRound(5) && NextRound(6) && NextRound(7)
  {
    hide BigSigma0, BigSigma1, Ch, Maj;
    Functions0();
  }

  lemma Functions8()
    ensures BigSigma0(0x85a07b5f) == 0xba794dc2 && Maj(0x85a07b5f, 0xe5030380, 0x2b4209f5) == 0xa5020bd5
    ensures BigSigma1(0x0c657a79) == 0x99ad25c0 && Ch(0x0c657a79, 0x9b27a401, 0x714260ad) == 0x79272085
    ensures BigSigma0(0x8e04ecb9) == 0x15ffad31 && Maj(0x8e04ecb9, 0x85a07b5f, 0xe5030380) == 0x85006b99
    ensures BigSigma1(0x32ca2d8c) == 0xe45bb7ea && Ch(0x32ca2d8c, 0x0c657a79, 0x9b27a401) == 0x8965a809
    ensures BigSigma0(0x8c87346b) == 0x5cac0711 && Maj(0x8c87346b, 0x8e04ecb9, 0x85a07b5f) == 0x8c847c7b
    ensures BigSigma1(0x1cc92596) == 0x8e2276bc && Ch(0x1cc92596, 0x32ca2d8c, 0x0c657a79) == 0x10ec7fed
    ensures BigSigma0(0x4798a3f4) == 0x6ccbc526 && Maj(0x4798a3f4, 0x8c87346b, 0x8e04ecb9) == 0x8e84a4f9
    ensures BigSigma1(0x436b23e8) == 0x699435ca && Ch(0x436b23e8, 0x1cc92596, 0x32ca2d8c) == 0x30c92d84
    ensures BigSigma0(0xf71fc5a9) == 0x2f9eee48 && Maj(0xf71fc5a9, 0x4798a3f4, 0x8c87346b) == 0xc79fa5e9
    ensures BigSigma1(0x816fd6e9) == 0xccdee661 && Ch(0x816fd6e9, 0x436b23e8, 0x1cc92596) == 0x1deb23fe
    ensures BigSigma0(0x87912990) == 0x29c634f3 && Maj(0x87912990, 0xf71fc5a9, 0x4798a3f4) == 0xc799a1b0
    ensures BigSigma1(0x1e578218) == 0x08bb98f7 && Ch(0x1e578218, 0x816fd6e9, 0x436b23e8) == 0x416fa3e8
    ensures BigSigma0(0xd932eb16) == 0x25562836 && Maj(0xd932eb16, 0x87912990, 0xf71fc5a9) == 0xd713e990
    ensures BigSigma1(0x745a48de) == 0x4f3b8d50 && Ch(0x745a48de, 0x1e578218, 0x816fd6e9) == 0x95779639
    ensures BigSigma0(0xc0645fde) == 0xdf906fd4 && Maj(0xc0645fde, 0xd932eb16, 0x87912990) == 0xc1306b96
    ensures BigSigma1(0x0b92f20c) == 0xb8d63f93 && Ch(0x0b92f20c, 0x745a48de, 0x1e578218) == 0x1457401c
  {
  }

  lemma Rounds8()
    ensures NextRound(8) && NextRound(9) && NextRound(10) && NextRound(11)
  {
    hide BigSigma0, BigSigma1, Ch, Maj;
    Functions8();
  }

  lemma Rounds12()
    ensures NextRound(12) && NextRound(13) && NextRound(14) && NextRound(15)
  {
    hide BigSigma0, BigSigma1, Ch, Maj;
    Functions8();
  }

  lemma Functions16()
    ensures BigSigma0(0xb0fa238e) == 0x58c535f1 && Maj(0xb0fa238e, 0xc0645fde, 0xd932eb16) == 0xd0726b9e
    ensures BigSigma1(0x07590dcd) == 0x213b6995 && Ch(0x07590dcd, 0x0b92f20c, 0x745a48de) == 0x7312401e
    ensures BigSigma0(0x21da9a9b) == 0x76c5c4f5 && Maj(0x21da9a9b, 0xb0fa238e, 0xc0645fde) == 0xa0fa1b9e
    ensures BigSigma1(0x8034229c) == 0x3b81984e && Ch(0x8034229c, 0x07590dcd, 0x0b92f20c) == 0x0b92d08c
    ensures BigSigma0(0xc2fbd9d1) == 0x5157a6a1 && Maj(0xc2fbd9d1, 0x21da9a9b, 0xb0fa238e) == 0xa0fa9b9b
    ensures BigSigma1(0x846ee454) == 0xeff31c0f && Ch(0x846ee454, 0x8034229c, 0x07590dcd) == 0x8335299d
    ensures BigSigma0(0xfe777bbf) == 0xff8cd2ad && Maj(0xfe777bbf, 0xc2fbd9d1, 0x21da9a9b) == 0xe2fbdb9b
    ensures BigSigma1(0xcc899961) == 0xefc707b0 && Ch(0xcc899961, 0x846ee454, 0x8034229c) == 0x843ca2dc
    ensures BigSigma0(0xe1f20c33) == 0x51d3431b && Maj(0xe1f20c33, 0xfe777bbf, 0xc2fbd9d1) == 0xe2f359b3
    ensures BigSigma1(0xb0638179) == 0xf8373ead && Ch(0xb0638179, 0xcc899961, 0x846ee454) == 0x840de565
    ensures BigSigma0(0x9dc68b63) == 0xa640c29b && Maj(0x9dc68b63, 0xe1f20c33, 0xfe777bbf) == 0xfdf60b33
    ensures BigSigma1(0x8ada8930) == 0x897ea930 && Ch(0x8ada8930, 0xb0638179, 0xcc899961) == 0xc4439171
    ensures BigSigma0(0xc2606d6d) == 0x9a43bf51 && Maj(0xc2606d6d, 0x9dc68b63, 0xe1f20c33) == 0xc1e20d63
    ensures BigSigma1(0xe1257970) == 0x7f24093a && Ch(0xe1257970, 0x8ada8930, 0xb0638179) == 0x90428939
    ensures BigSigma0(0xa7a3623f) == 0x759d1b0a && Maj(0xa7a3623f, 0xc2606d6d, 0x9dc68b63) == 0x87e26b6f
    ensures BigSigma1(0x49f5114a) == 0xfae64fc3 && Ch(0x49f5114a, 0xe1257970, 0x8ada8930) == 0xc32f9970
  {
  }

  lemma Rounds16()
    ensures NextRound(16) && NextRound(17) && NextRound(18) && NextRound(19)
  {
    hide BigSigma0, BigSigma1, Ch, Maj;
    Functions16();
  }

  lemma Rounds20()
    ensures NextRound(20) && NextRound(21) && NextRound(22) && NextRound(23)
  {
    hide BigSigma0, BigSigma1, Ch, Maj;
    Functions16();
  }

  lemma Functions24()
    ensures BigSigma0(0xc5d53d8d) == 0xc9ed56dd && Maj(0xc5d53d8d, 0xa7a3623f, 0xc2606d6d) == 0xc7e16d2d
    ensures BigSigma1(0xaa47c347) == 0x55bdf420 && Ch(0xaa47c347, 0x49f5114a, 0xe1257970) == 0x49653972
    ensures BigSigma0(0x1c2c2838) == 0xf66b0b1f && Maj(0x1c2c2838, 0xc5d53d8d, 0xa7a3623f) == 0x85a5283d
    ensures BigSigma1(0x2823ef91) == 0xa7724357 && Ch(0x2823ef91, 0xaa47c347, 0x49f5114a) == 0x69d7d34b
    ensures BigSigma0(0xcde8037d) == 0xc89998a8 && Maj(0xcde8037d, 0x1c2c2838, 0xc5d53d8d) == 0xcdec293d
    ensures BigSigma1(0x14383d8e) == 0x958ca0fb && Ch(0x14383d8e, 0x2823ef91, 0xaa47c347) == 0xaa67efc1
    ensures BigSigma0(0xb62ec4bc) == 0xb37cf281 && Maj(0xb62ec4bc, 0xcde8037d, 0x1c2c2838) == 0x9c2c003c
    ensures BigSigma1(0xc74c6516) == 0x5ff7537b && Ch(0xc74c6516, 0x14383d8e, 0x2823ef91) == 0x2c2baf87
    ensures BigSigma0(0x77d37528) == 0xf963c20e && Maj(0x77d37528, 0xb62ec4bc, 0xcde8037d) == 0xf7ea453c
    ensures BigSigma1(0xedffbff8) == 0xe375bd7e && Ch(0xedffbff8, 0xc74c6516, 0x14383d8e) == 0xd54c2516
    ensures BigSigma0(0x363482c9) == 0x89cfb5ce && Maj(0x363482c9, 0x77d37528, 0xb62ec4bc) == 0x3636c4a8
    ensures BigSigma1(0x6112a3b7) == 0x2239b36a && Ch(0x6112a3b7, 0xedffbff8, 0xc74c6516) == 0xe75ee7b0
    ensures BigSigma0(0xa0060b30) == 0x69a8407c && Maj(0xa0060b30, 0x363482c9, 0x77d37528) == 0x36160328
    ensures BigSigma1(0xade79437) == 0xab883974 && Ch(0xade79437, 0x6112a3b7, 0xedffbff8) == 0x611aabff
    ensures BigSigma0(0xea992a22) == 0x8f1995eb && Maj(0xea992a22, 0xa0060b30, 0x363482c9) == 0xa2140a20
    ensures BigSigma1(0x0109ab3a) == 0x0b919a99 && Ch(0x0109ab3a, 0xade79437, 0x6112a3b7) == 0x611380b7
  {
  }

  lemma Rounds24()
    ensures NextRound(24) && NextRound(25) && NextRound(26) && NextRound(27)
  {
    hide BigSigma0, BigSigma1, Ch, Maj;
    Functions24();
  }

  lemma Rounds28()
    ensures NextRound(28) && NextRound(29) && NextRound(30) && NextRound(31)
  {
    hide BigSigma0, BigSigma1, Ch, Maj;
    Functions24();
  }

  lemma Functions32()
    ensures BigSigma0(0x73b33bf5) == 0x4fa886aa && Maj(0x73b33bf5, 0xea992a22, 0xa0060b30) == 0xe2932b30
    ensures BigSigma1(0xba591112) == 0x4436a63b && Ch(0xba591112, 0x0109ab3a, 0xade79437) == 0x05af8537
    ensures BigSigma0(0x98e12507) == 0x4a90902b && Maj(0x98e12507, 0x73b33bf5, 0xea992a22) == 0xfab12b27
    ensures BigSigma1(0x9cd9f5f6) == 0x085a07a7 && Ch(0x9cd9f5f6, 0xba591112, 0x0109ab3a) == 0x99591b1a
    ensures BigSigma0(0xfe604df5) == 0x91003786 && Maj(0xfe604df5, 0x98e12507, 0x73b33bf5) == 0xfae12df5
    ensures BigSigma1(0x59249dd3) == 0x65415f48 && Ch(0x59249dd3, 0x9cd9f5f6, 0xba591112) == 0xba5995d2
    ensures BigSigma0(0xa9a7738c) == 0x2bc2a37e && Maj(0xa9a7738c, 0xfe604df5, 0x98e12507) == 0xb8e16585
    ensures BigSigma1(0x085f3833) == 0xe5dc6e83 && Ch(0x085f3833, 0x59249dd3, 0x9cd9f5f6) == 0x9c84ddd7
    ensures BigSigma0(0x65a0cfe4) == 0xe5748f69 && Maj(0x65a0cfe4, 0xa9a7738c, 0xfe604df5) == 0xeda04fe4
    ensures BigSigma1(0xf4b002d6) == 0x590d3d71 && Ch(0xf4b002d6, 0x085f3833, 0x59249dd3) == 0x09149d13
    ensures BigSigma0(0x41a65cb1) == 0x2c915f18 && Maj(0x41a65cb1, 0x65a0cfe4, 0xa9a7738c) == 0x61a65fa4
    ensures BigSigma1(0x0772a26b) == 0x582c115e && Ch(0x0772a26b, 0xf4b002d6, 0x085f3833) == 0x0c3d1a52
    ensures BigSigma0(0x34df1604) == 0xc14e73aa && Maj(0x34df1604, 0x41a65cb1, 0x65a0cfe4) == 0x65a65ea4
    ensures BigSigma1(0xa507a53d) == 0xd2f220b2 && Ch(0xa507a53d, 0x0772a26b, 0xf4b002d6) == 0x55b2a2eb
    ensures BigSigma0(0x6dc57a8a) == 0x5ac8193e && Maj(0x6dc57a8a, 0x34df1604, 0x41a65cb1) == 0x65c75e80
    ensures BigSigma1(0xf0781bc8) == 0x66d20b14 && Ch(0xf0781bc8, 0xa507a53d, 0x0772a26b) == 0xa702a12b
  {
  }

  lemma Rounds32()
    ensures NextRound(32) && NextRound(33) && NextRound(34) && NextRound(35)
  {
    hide BigSigma0, BigSigma1, Ch, Maj;
    Functions32();
  }

  lemma Rounds36()
    ensures NextRound(36) && NextRound(37) && NextRound(38) && NextRound(39)
  {
    hide BigSigma0, BigSigma1, Ch, Maj;
    Functions32();
  }

  lemma Functions40()
    ensures BigSigma0(0x79ea687a) == 0x7408bcaa && Maj(0x79ea687a, 0x6dc57a8a, 0x34df1604) == 0x7dcf7a0a
    ensures BigSigma1(0x1efbc0a0) == 0xe9986075 && Ch(0x1efbc0a0, 0xf0781bc8, 0xa507a53d) == 0xb17c259d
    ensures BigSigma0(0xd6670766) == 0x12b2e9b8 && Maj(0xd6670766, 0x79ea687a, 0x6dc57a8a) == 0x7de76a6a
    ensures BigSigma1(0x26352d63) == 0x3a6aa383 && Ch(0x26352d63, 0x1efbc0a0, 0xf0781bc8) == 0xd67912a8
    ensures BigSigma0(0xdf46652f) == 0xc73bdc05 && Maj(0xdf46652f, 0xd6670766, 0x79ea687a) == 0xdf66656e
    ensures BigSigma1(0x838b2711) == 0x61add539 && Ch(0x838b2711, 0x26352d63, 0x1efbc0a0) == 0x1e71e5a1
    ensures BigSigma0(0x17aa0dfe) == 0x422dc671 && Maj(0x17aa0dfe, 0xdf46652f, 0xd6670766) == 0xd766056e
    ensures BigSigma1(0xdecd4715) == 0xd363665b && Ch(0xdecd4715, 0x838b2711, 0x26352d63) == 0xa2b92f73
    ensures BigSigma0(0x9d4baf93) == 0xb5704fcc && Maj(0x9d4baf93, 0x17aa0dfe, 0xdf46652f) == 0x9f4a2dbf
    ensures BigSigma1(0xfda24c2e) == 0xef0f2a07 && Ch(0xfda24c2e, 0xdecd4715, 0x838b2711) == 0xde896715
    ensures BigSigma0(0x26628815) == 0x8311c588 && Maj(0x26628815, 0x9d4baf93, 0x17aa0dfe) == 0x176a8d97
    ensures BigSigma1(0xa80f11f0) == 0xfb3dc5f1 && Ch(0xa80f11f0, 0xfda24c2e, 0xdecd4715) == 0xfec24625
    ensures BigSigma0(0x72ab4b91) == 0xad0f0274 && Maj(0x72ab4b91, 0x26628815, 0x9d4baf93) == 0x366b8b91
    ensures BigSigma1(0xb7755da1) == 0x8845eb06 && Ch(0xb7755da1, 0xa80f11f0, 0xfda24c2e) == 0xe88711ae
    ensures BigSigma0(0xa14c14b0) == 0xbd84cdc9 && Maj(0xa14c14b0, 0x72ab4b91, 0x26628815) == 0x226a0891
    ensures BigSigma1(0xd57b94a9) == 0x8fa515ca && Ch(0xd57b94a9, 0xb7755da1, 0xa80f11f0) == 0xbd7515f1
  {
  }

  lemma Rounds40()
    ensures NextRound(40) && NextRound(41) && NextRound(42) && NextRound(43)
  {
    hide BigSigma0, BigSigma1, Ch, Maj;
    Functions40();
  }

  lemma Rounds44()
    ensures NextRound(44) && NextRound(45) && NextRound(46) && NextRound(47)
  {
    hide BigSigma0, BigSigma1, Ch, Maj;
    Functions40();
  }

  lemma Functions48()
    ensures BigSigma0(0x4172328d) == 0x0cfcb237 && Maj(0x4172328d, 0xa14c14b0, 0x72ab4b91) == 0x616a1291
    ensures BigSigma1(0xfecf0bc6) == 0x04a106b1 && Ch(0xfecf0bc6, 0xd57b94a9, 0xb7755da1) == 0xd57b54a1
    ensures BigSigma0(0x05757ceb) == 0xf3f6d884 && Maj(0x05757ceb, 0x4172328d, 0xa14c14b0) == 0x017434a9
    ensures BigSigma1(0xbd714038) == 0x5d427776 && Ch(0xbd714038, 0xfecf0bc6, 0xd57b94a9) == 0xfc4b9481
    ensures BigSigma0(0xf11bfaa8) == 0x86ebd5b1 && Maj(0xf11bfaa8, 0x05757ceb, 0x4172328d) == 0x41737aa9
    ensures BigSigma1(0x6e5c390c) == 0x3e283d54 && Ch(0x6e5c390c, 0xbd714038, 0xfecf0bc6) == 0xbcd302ca
    ensures BigSigma0(0x7a0508a1) == 0x0fa817e8 && Maj(0x7a0508a1, 0xf11bfaa8, 0x05757ceb) == 0x711578a9
    ensures BigSigma1(0x52f1ccf7) == 0x3b47e2a3 && Ch(0x52f1ccf7, 0x6e5c390c, 0xbd714038) == 0xef50080c
    ensures BigSigma0(0x886e7a22) == 0xcae757da && Maj(0x886e7a22, 0x7a0508a1, 0xf11bfaa8) == 0xf80f7aa0
    ensures BigSigma1(0x49231c1e) == 0x6b63a737 && Ch(0x49231c1e, 0x52f1ccf7, 0x6e5c390c) == 0x667d2d16
    ensures BigSigma0(0x101fd28f) == 0x2f35481d && Maj(0x101fd28f, 0x886e7a22, 0x7a0508a1) == 0x180f5aa3
    ensures BigSigma1(0x529e7d00) == 0xee7eaa12 && Ch(0x529e7d00, 0x49231c1e, 0x52f1ccf7) == 0x40639cf7
    ensures BigSigma0(0xf5702fdb) == 0x433ccfa2 && Maj(0xf5702fdb, 0x101fd28f, 0x886e7a22) == 0x907e7a8b
    ensures BigSigma1(0x9f4787c3) == 0x55cd1720 && Ch(0x9f4787c3, 0x529e7d00, 0x49231c1e) == 0x52261d1c
    ensures BigSigma0(0x3ec45cdb) == 0x381b8def && Maj(0x3ec45cdb, 0xf5702fdb, 0x101fd28f) == 0x34545edb
    ensures BigSigma1(0xe50e1b4f) == 0xd1653e5c && Ch(0xe50e1b4f, 0x9f4787c3, 0x529e7d00) == 0x97966743
  {
  }

  lemma Rounds48()
    ensures NextRound(48) && NextRound(49) && NextRound(50) && NextRound(51)
  {
    hide BigSigma0, BigSigma1, Ch, Maj;
    Functions48();
  }

  lemma Rounds52()
    ensures NextRound(52) && NextRound(53) && NextRound(54) && NextRound(55)
  {
    hide BigSigma0, BigSigma1, Ch, Maj;
    Functions48();
  }

  lemma Functions56()
    ensures BigSigma0(0x38cc9913) == 0x34ceacc3 && Maj(0x38cc9913, 0x3ec45cdb, 0xf5702fdb) == 0x3cc41ddb
    ensures BigSigma1(0x54cb266b) == 0x05aa8057 && Ch(0x54cb266b, 0xe50e1b4f, 0x9f4787c3) == 0xcf0e83cb
    ensures BigSigma0(0xfcd1887b) == 0xfaca6b61 && Maj(0xfcd1887b, 0x38cc9913, 0x3ec45cdb) == 0x3cc4985b
    ensures BigSigma1(0x9b5e906c) == 0x10b627de && Ch(0x9b5e906c, 0x54cb266b, 0xe50e1b4f) == 0x744a0b6b
    ensures BigSigma0(0xc062d46f) == 0xd837090c && Maj(0xc062d46f, 0xfcd1887b, 0x38cc9913) == 0xf8c0987b
    ensures BigSigma1(0x7e44008e) == 0x0a369fbd && Ch(0x7e44008e, 0x9b5e906c, 0x54cb266b) == 0x1acf266d
    ensures BigSigma0(0xffb70472) == 0x406bf75a && Maj(0xffb70472, 0xc062d46f, 0xfcd1887b) == 0xfcf3847b
    ensures BigSigma1(0x6d83bfc6) == 0x20a45dbe && Ch(0x6d83bfc6, 0x7e44008e, 0x9b5e906c) == 0xfe5c00ae
    ensures BigSigma0(0xb6ae8fff) == 0x2869e851 && Maj(0xb6ae8fff, 0xffb70472, 0xc062d46f) == 0xf6a6847f
    ensures BigSigma1(0xb21bad3d) == 0x5ca8b318 && Ch(0xb21bad3d, 0x6d83bfc6, 0x7e44008e) == 0x6c47ad86
    ensures BigSigma0(0xb85e2ce9) == 0x71e9ef2a && Maj(0xb85e2ce9, 0xb6ae8fff, 0xffb70472) == 0xbebe0cfb
    ensures BigSigma1(0x961f4894) == 0x4f6ef480 && Ch(0x961f4894, 0xb21bad3d, 0x6d83bfc6) == 0xfb9bbf56
    ensures BigSigma0(0x04d24d6c) == 0x236105da && Maj(0x04d24d6c, 0xb85e2ce9, 0xb6ae8fff) == 0xb4de0ded
    ensures BigSigma1(0x948d25b6) == 0x2a127e78 && Ch(0x948d25b6, 0x961f4894, 0xb21bad3d) == 0xb61f889d
    ensures BigSigma0(0xd39a2165) == 0x174d83c6 && Maj(0xd39a2165, 0x04d24d6c, 0xb85e2ce9) == 0x90da2d6d
    ensures BigSigma1(0xfb121210) == 0x88fa2277 && Ch(0xfb121210, 0x948d25b6, 0x961f4894) == 0x940d4894
  {
  }

  lemma Rounds56()
    ensures NextRound(56) && NextRound(57) && NextRound(58) && NextRound(59)
  {
    hide BigSigma0, BigSigma1, Ch, Maj;
    Functions56();
  }

  lemma Rounds60()
    ensures NextRound(60) && NextRound(61) && NextRound(62) && NextRound(63)
  {
    hide BigSigma0, BigSigma1, Ch, Maj;
    Functions56();
  }

  // ---------------------------------------------------------------------------------
  // Schedule and rounds
  // ---------------------------------------------------------------------------------

  predicate NextWord(t: nat)
    requires 16 <= t < 64
  {
    Word32(t) == Add(Add(Add(SmallSigma1(Word32(t - 2)), Word32(t - 7)), SmallSigma0(Word32(t - 15))), Word32(t - 16))
  }

  predicate NextRound(t: nat)
    requires t < 64
  {
    var (a, e) := (StateA(t + 3), StateE(t + 3));
    var t1 := StateE(t) + BigSigma1(e) + Ch(e, StateE(t + 2), StateE(t + 1)) + K(t) + Word32(t);
    && StateA(t + 4) == Low(t1 + BigSigma0(a) + Maj(a, StateA(t + 2), StateA(t + 1)))
    && StateE(t + 4) == Low(t1 + StateA(t))
  }

  lemma EveryWord(t: nat)
    requires 16 <= t < 64
    ensures NextWord(t)
  {
    hide Add, SmallSigma0, SmallSigma1;
    if t < 24 {
      Words16();
      WordSums16();
    } else if t < 32 {
      Words24();
      WordSums24();
    } else if t < 40 {
      Words32();
      WordSums32();
    } else if t < 48 {
      Words40();
      WordSums40();
    } else if t < 56 {
      Words48();
      WordSums48();
    } else {
      Words56();
      WordSums56();
    }
  }

  lemma EveryRound(t: nat)
    requires t < 64
    ensures NextRound(t)
  {
    hide NextRound;
    if t < 4 {
      Rounds0();
    } else if t < 8 {
      Rounds4();
    } else if t < 12 {
      Rounds8();
    } else if t < 16 {
      Rounds12();
    } else if t < 20 {
      Rounds16();
    } else if t < 24 {
      Rounds20();
    } else if t < 28 {
      Rounds24();
    } else if t < 32 {
      Rounds28();
    } else if t < 36 {
      Rounds32();
    } else if t < 40 {
      Rounds36();
    } else if t < 44 {
      Rounds40();
    } else if t < 48 {
      Rounds44();
    } else if t < 52 {
      Rounds48();
    } else if t < 56 {
      Rounds52();
    } else if t < 60 {
      Rounds56();
    } else {
      Rounds60();
    }
  }

  lemma AbcPad()
    ensures Pad(ABC) == ABC + [0x80] + seq(52, _ => 0) + [0, 0, 0, 0, 0, 0, 0, 24]
  {
    LengthBytes();
    hide BigEndian;
    assert Zeros(|ABC|) == 52;
  }

  lemma LengthBytes()
    ensures BigEndian(24, 8) == [0, 0, 0, 0, 0, 0, 0, 24]
  {
    LeadingZeros(7);
    assert BigEndian(24, 8) == BigEndian(0, 7) + [24];
  }

  lemma FirstWords(t: nat)
    requires t < 16
    ensures AbcBlock()[t] == Word32(t)
  {
    hide Pad, BigEndian;
    AbcPad();
    var p := Pad(ABC);
    assert p[0] == 97 && p[1] == 98 && p[2] == 99 && p[3] == 0x80 && p[63] == 24;
    assert forall i | 4 <= i < 63 :: p[i] == 0;
    if 0 < t < 15 {
      hide Word32;
      ZeroWord(t);
    }
  }

  lemma ZeroWord(t: nat)
    requires 0 < t < 15
    ensures Word32(t) == 0
  {
  }

  lemma {:induction false} Schedule(t: nat)
    requires t < 64
    ensures Sched(AbcBlock(), t) == Word32(t)
  {
    hide Add, SmallSigma0, SmallSigma1, Word32, AbcBlock;
    if t < 16 {
      FirstWords(t);
    } else {
      EveryWord(t);
      Schedule(t - 2);
      Schedule(t - 7);
      Schedule(t - 15);
      Schedule(t - 16);
    }
  }

  lemma StartState()
    ensures VarsAt(0) == IV
  {
  }

  /** The low 32 bits. */
  function Low(n: nat): Word {
    n % 0x1_0000_0000
  }

  lemma AddLow(n: nat, w: Word)
    ensures Low(w) == w && Add(Low(n), w) == Low(n + w) == Add(w, Low(n))
  {
    var q := n / 0x1_0000_0000;
    assert n == 0x1_0000_0000 * q + Low(n);
  }

  lemma Flatten(v: Vars, k: Word, w: Word)
    ensures var t1 := v.h + BigSigma1(v.e) + Ch(v.e, v.f, v.g) + k + w;
      && Round(v, k, w).a == Low(t1 + BigSigma0(v.a) + Maj(v.a, v.b, v.c))
      && Round(v, k, w).e == Low(t1 + v.d)
  {
    hide BigSigma0, BigSigma1, Ch, Maj, Add, Low;
    var (x, y) := (BigSigma1(v.e), Ch(v.e, v.f, v.g));
    AddLow(x, v.h);
    AddLow(v.h, x);
    AddLow(v.h + x, y);
    AddLow(v.h + x + y, k);
    AddLow(v.h + x + y + k, w);
    var t1 := v.h + x + y + k + w;
    AddLow(t1, v.d);
    AddLow(t1, BigSigma0(v.a));
    AddLow(t1 + BigSigma0(v.a), Maj(v.a, v.b, v.c));
    AddAssoc(T1(v, k, w), BigSigma0(v.a), Maj(v.a, v.b, v.c));
  }

  lemma {:induction false} AllRounds(t: nat)
    requires t <= 64
    ensures Rounds(IV, AbcBlock(), t) == VarsAt(t)
  {
    hide Sched, Word32, AbcBlock, StateA, StateE, K, T1, T2, BigSigma0, BigSigma1, Ch, Maj, Add;
    if t == 0 {
      StartState();
    } else {
      AllRounds(t - 1);
      Flatten(VarsAt(t - 1), K(t - 1), Word32(t - 1));
      Schedule(t - 1);
      EveryRound(t - 1);
    }
  }

  lemma OneBlock()
    ensures HashBlocks(IV, Pad(ABC)) == Compress(IV, AbcBlock())
  {
    AbcPad();
    hide Compress, ParseBlock, Pad, BigEndian;
    var p := Pad(ABC);
    assert |p| == 64 && p[..64] == p && p[64..] == [];
    assert HashBlocks(Compress(IV, ParseBlock(p)), []) == Compress(IV, ParseBlock(p));
  }

  lemma FinalSums()
    ensures Add(0x6a09e667, 0x506e3058) == 0xba7816bf
    ensures Add(0xbb67ae85, 0xd39a2165) == 0x8f01cfea
    ensures Add(0x3c6ef372, 0x04d24d6c) == 0x414140de
    ensures Add(0xa54ff53a, 0xb85e2ce9) == 0x5dae2223
    ensures Add(0x510e527f, 0x5ef50f24) == 0xb00361a3
    ensures Add(0x9b05688c, 0xfb121210) == 0x96177a9c
    ensures Add(0x1f83d9ab, 0x948d25b6) == 0xb410ff61
    ensures Add(0x5be0cd19, 0x961f4894) == 0xf20015ad
  {
  }

  lemma FinalState()
    ensures VarsAt(64) == Vars(0x506e3058, 0xd39a2165, 0x04d24d6c, 0xb85e2ce9, 0x5ef50f24, 0xfb121210, 0x948d25b6, 0x961f4894)
  {
  }

  /** The digest the standard gives for "abc". */
  lemma AbcDigest()
    ensures Hash(ABC) == Bytes(0xba7816bf) + Bytes(0x8f01cfea) + Bytes(0x414140de) + Bytes(0x5dae2223)
                       + Bytes(0xb00361a3) + Bytes(0x96177a9c) + Bytes(0xb410ff61) + Bytes(0xf20015ad)
  {
    hide Rounds, Bytes, AbcBlock, Add, Pad, HashBlocks, StateA, StateE;
    FinalSums();
    FinalState();
    OneBlock();
    AllRounds(64);
  }
}
