/** The precomputed table of the padding block: its 64 literal words are the message
    schedule of the constant second block with the round constants added. */
module PadTable {
  import opened Sha256
  import opened Gen2Lane

  /** The schedule words of the padding block. */
  function PadW(t: nat): Word
    requires t < 64
  {
    match t
    case 0 => 0x80000000 case 1 => 0x00000000 case 2 => 0x00000000 case 3 => 0x00000000
    case 4 => 0x00000000 case 5 => 0x00000000 case 6 => 0x00000000 case 7 => 0x00000000
    case 8 => 0x00000000 case 9 => 0x00000000 case 10 => 0x00000000 case 11 => 0x00000000
    case 12 => 0x00000000 case 13 => 0x00000000 case 14 => 0x00000000 case 15 => 0x00000200
    case 16 => 0x80000000 case 17 => 0x01400000 case 18 => 0x00205000 case 19 => 0x00005088
    case 20 => 0x22000800 case 21 => 0x22550014 case 22 => 0x05089742 case 23 => 0xa0000020
    case 24 => 0x5a880000 case 25 => 0x005c9400 case 26 => 0x0016d49d case 27 => 0xfa801f00
    case 28 => 0xd33225d0 case 29 => 0x11675959 case 30 => 0xf6e6bfda case 31 => 0xb30c1549
    case 32 => 0x08b2b050 case 33 => 0x9d7c4c27 case 34 => 0x0ce2a393 case 35 => 0x88e6e1ea
    case 36 => 0xa52b4335 case 37 => 0x67a16f49 case 38 => 0xd732016f case 39 => 0x4eeb2e91
    case 40 => 0x5dbf55e5 case 41 => 0x8eee2335 case 42 => 0xe2bc5ec2 case 43 => 0xa83f4394
    case 44 => 0x45ad78f7 case 45 => 0x36f3d0cd case 46 => 0xd99c05e8 case 47 => 0xb0511dc7
    case 48 => 0x69bc7ac4 case 49 => 0xbd11375b case 50 => 0xe3ba71e5 case 51 => 0x3b209ff2
    case 52 => 0x18feee17 case 53 => 0xe25ad9e7 case 54 => 0x13375046 case 55 => 0x0515089d
    case 56 => 0x4f0d0f04 case 57 => 0x2627484e case 58 => 0x310128d2 case 59 => 0xc668b434
    case 60 => 0x420841cc case 61 => 0x62d311b8 case 62 => 0xe59ba771 case 63 => 0x85a7a484
  }

  // Ground instances of the schedule recurrence, eight words at a time: the sigma values,
  // then the two sums that use them.

  lemma Table0()
    ensures Add(0x80000000, 0x428a2f98) == 0xc28a2f98
    ensures Add(0x00000000, 0x71374491) == 0x71374491
    ensures Add(0x00000000, 0xb5c0fbcf) == 0xb5c0fbcf
    ensures Add(0x00000000, 0xe9b5dba5) == 0xe9b5dba5
    ensures Add(0x00000000, 0x3956c25b) == 0x3956c25b
    ensures Add(0x00000000, 0x59f111f1) == 0x59f111f1
    ensures Add(0x00000000, 0x923f82a4) == 0x923f82a4
    ensures Add(0x00000000, 0xab1c5ed5) == 0xab1c5ed5
  {
  }

  lemma Table8()
    ensures Add(0x00000000, 0xd807aa98) == 0xd807aa98
    ensures Add(0x00000000, 0x12835b01) == 0x12835b01
    ensures Add(0x00000000, 0x243185be) == 0x243185be
    ensures Add(0x00000000, 0x550c7dc3) == 0x550c7dc3
    ensures Add(0x00000000, 0x72be5d74) == 0x72be5d74
    ensures Add(0x00000000, 0x80deb1fe) == 0x80deb1fe
    ensures Add(0x00000000, 0x9bdc06a7) == 0x9bdc06a7
    ensures Add(0x00000200, 0xc19bf174) == 0xc19bf374
  {
  }

  lemma Sigmas16()
    ensures SmallSigma1(0x00000000) == 0x00000000 && SmallSigma0(0x00000000) == 0x00000000
    ensures SmallSigma1(0x00000200) == 0x01400000 && SmallSigma0(0x00000000) == 0x00000000
    ensures SmallSigma1(0x80000000) == 0x00205000 && SmallSigma0(0x00000000) == 0x00000000
    ensures SmallSigma1(0x01400000) == 0x00005088 && SmallSigma0(0x00000000) == 0x00000000
    ensures SmallSigma1(0x00205000) == 0x22000800 && SmallSigma0(0x00000000) == 0x00000000
    ensures SmallSigma1(0x00005088) == 0x22550014 && SmallSigma0(0x00000000) == 0x00000000
    ensures SmallSigma1(0x22000800) == 0x05089542 && SmallSigma0(0x00000000) == 0x00000000
    ensures SmallSigma1(0x22550014) == 0x20000020 && SmallSigma0(0x00000000) == 0x00000000
  {
  }

  lemma Sums16()
    ensures Add(Add(Add(0x00000000, 0x00000000), 0x00000000), 0x80000000) == 0x80000000
    ensures Add(Add(Add(0x01400000, 0x00000000), 0x00000000), 0x00000000) == 0x01400000
    ensures Add(Add(Add(0x00205000, 0x00000000), 0x00000000), 0x00000000) == 0x00205000
    ensures Add(Add(Add(0x00005088, 0x00000000), 0x00000000), 0x00000000) == 0x00005088
    ensures Add(Add(Add(0x22000800, 0x00000000), 0x00000000), 0x00000000) == 0x22000800
    ensures Add(Add(Add(0x22550014, 0x00000000), 0x00000000), 0x00000000) == 0x22550014
    ensures Add(Add(Add(0x05089542, 0x00000200), 0x00000000), 0x00000000) == 0x05089742
    ensures Add(Add(Add(0x20000020, 0x80000000), 0x00000000), 0x00000000) == 0xa0000020
  {
  }

  lemma Table16()
    ensures Add(0x80000000, 0xe49b69c1) == 0x649b69c1
    ensures Add(0x01400000, 0xefbe4786) == 0xf0fe4786
    ensures Add(0x00205000, 0x0fc19dc6) == 0x0fe1edc6
    ensures Add(0x00005088, 0x240ca1cc) == 0x240cf254
    ensures Add(0x22000800, 0x2de92c6f) == 0x4fe9346f
    ensures Add(0x22550014, 0x4a7484aa) == 0x6cc984be
    ensures Add(0x05089742, 0x5cb0a9dc) == 0x61b9411e
    ensures Add(0xa0000020, 0x76f988da) == 0x16f988fa
  {
  }

  lemma Sigmas24()
    ensures SmallSigma1(0x05089742) == 0x59480000 && SmallSigma0(0x00000000) == 0x00000000
    ensures SmallSigma1(0xa0000020) == 0x003c4400 && SmallSigma0(0x00000000) == 0x00000000
    ensures SmallSigma1(0x5a880000) == 0x00168415 && SmallSigma0(0x00000000) == 0x00000000
    ensures SmallSigma1(0x005c9400) == 0xd8801700 && SmallSigma0(0x00000000) == 0x00000000
    ensures SmallSigma1(0x0016d49d) == 0xb0dd25bc && SmallSigma0(0x00000000) == 0x00000000
    ensures SmallSigma1(0xfa801f00) == 0x0c5ec217 && SmallSigma0(0x00000000) == 0x00000000
    ensures SmallSigma1(0xd33225d0) == 0x5666bf76 && SmallSigma0(0x00000200) == 0x00800044
    ensures SmallSigma1(0x11675959) == 0x4783f349 && SmallSigma0(0x80000000) == 0x11002000
  {
  }

  lemma Sums24()
    ensures Add(Add(Add(0x59480000, 0x01400000), 0x00000000), 0x00000000) == 0x5a880000
    ensures Add(Add(Add(0x003c4400, 0x00205000), 0x00000000), 0x00000000) == 0x005c9400
    ensures Add(Add(Add(0x00168415, 0x00005088), 0x00000000), 0x00000000) == 0x0016d49d
    ensures Add(Add(Add(0xd8801700, 0x22000800), 0x00000000), 0x00000000) == 0xfa801f00
    ensures Add(Add(Add(0xb0dd25bc, 0x22550014), 0x00000000), 0x00000000) == 0xd33225d0
    ensures Add(Add(Add(0x0c5ec217, 0x05089742), 0x00000000), 0x00000000) == 0x11675959
    ensures Add(Add(Add(0x5666bf76, 0xa0000020), 0x00800044), 0x00000000) == 0xf6e6bfda
    ensures Add(Add(Add(0x4783f349, 0x5a880000), 0x11002000), 0x00000200) == 0xb30c1549
  {
  }

  lemma Table24()
    ensures Add(0x5a880000, 0x983e5152) == 0xf2c65152
    ensures Add(0x005c9400, 0xa831c66d) == 0xa88e5a6d
    ensures Add(0x0016d49d, 0xb00327c8) == 0xb019fc65
    ensures Add(0xfa801f00, 0xbf597fc7) == 0xb9d99ec7
    ensures Add(0xd33225d0, 0xc6e00bf3) == 0x9a1231c3
    ensures Add(0x11675959, 0xd5a79147) == 0xe70eeaa0
    ensures Add(0xf6e6bfda, 0x06ca6351) == 0xfdb1232b
    ensures Add(0xb30c1549, 0x14292967) == 0xc7353eb0
  {
  }

  lemma Sigmas32()
    ensures SmallSigma1(0xf6e6bfda) == 0x882b9c00 && SmallSigma0(0x01400000) == 0x002a8050
    ensures SmallSigma1(0xb30c1549) == 0x88212ce2 && SmallSigma0(0x00205000) == 0x14044aa8
    ensures SmallSigma1(0x08b2b050) == 0x0e2029e3 && SmallSigma0(0x00005088) == 0x04220ab0
    ensures SmallSigma1(0x9d7c4c27) == 0xafb06202 && SmallSigma0(0x22000800) == 0x06040990
    ensures SmallSigma1(0x0ce2a393) == 0x05b8df45 && SmallSigma0(0x22550014) == 0x6c0b0297
    ensures SmallSigma1(0x88e6e1ea) == 0xacea2cd7 && SmallSigma0(0x05089742) == 0xa17b8284
    ensures SmallSigma1(0xa52b4335) == 0xc9d52ce0 && SmallSigma0(0xa0000020) == 0x55482804
    ensures SmallSigma1(0x67a16f49) == 0x9a54777f && SmallSigma0(0x5a880000) == 0x0be406a2
  {
  }

  lemma Sums32()
    ensures Add(Add(Add(0x882b9c00, 0x005c9400), 0x002a8050), 0x80000000) == 0x08b2b050
    ensures Add(Add(Add(0x88212ce2, 0x0016d49d), 0x14044aa8), 0x01400000) == 0x9d7c4c27
    ensures Add(Add(Add(0x0e2029e3, 0xfa801f00), 0x04220ab0), 0x00205000) == 0x0ce2a393
    ensures Add(Add(Add(0xafb06202, 0xd33225d0), 0x06040990), 0x00005088) == 0x88e6e1ea
    ensures Add(Add(Add(0x05b8df45, 0x11675959), 0x6c0b0297), 0x22000800) == 0xa52b4335
    ensures Add(Add(Add(0xacea2cd7, 0xf6e6bfda), 0xa17b8284), 0x22550014) == 0x67a16f49
    ensures Add(Add(Add(0xc9d52ce0, 0xb30c1549), 0x55482804), 0x05089742) == 0xd732016f
    ensures Add(Add(Add(0x9a54777f, 0x08b2b050), 0x0be406a2), 0xa0000020) == 0x4eeb2e91
  {
  }

  lemma Table32()
    ensures Add(0x08b2b050, 0x27b70a85) == 0x3069bad5
    ensures Add(0x9d7c4c27, 0x2e1b2138) == 0xcb976d5f
    ensures Add(0x0ce2a393, 0x4d2c6dfc) == 0x5a0f118f
    ensures Add(0x88e6e1ea, 0x53380d13) == 0xdc1eeefd
    ensures Add(0xa52b4335, 0x650a7354) == 0x0a35b689
    ensures Add(0x67a16f49, 0x766a0abb) == 0xde0b7a04
    ensures Add(0xd732016f, 0x81c2c92e) == 0x58f4ca9d
    ensures Add(0x4eeb2e91, 0x92722c85) == 0xe15d5b16
  {
  }

  lemma Sigmas40()
    ensures SmallSigma1(0xd732016f) == 0x40afddff && SmallSigma0(0x005c9400) == 0x250b2bbf
    ensures SmallSigma1(0x4eeb2e91) == 0xf2893463 && SmallSigma0(0x0016d49d) == 0x8f25b73f
    ensures SmallSigma1(0x5dbf55e5) == 0x40596abd && SmallSigma0(0xfa801f00) == 0x19653d7e
    ensures SmallSigma1(0x8eee2335) == 0xd5dfcd22 && SmallSigma0(0xd33225d0) == 0x32b4143d
    ensures SmallSigma1(0xe2bc5ec2) == 0xa481821e && SmallSigma0(0x11675959) == 0x665861c0
    ensures SmallSigma1(0xa83f4394) == 0x4992cec8 && SmallSigma0(0xf6e6bfda) == 0x04c7a73d
    ensures SmallSigma1(0x45ad78f7) == 0x1374213d && SmallSigma0(0xb30c1549) == 0x8055f640
    ensures SmallSigma1(0x36f3d0cd) == 0x92728153 && SmallSigma0(0x08b2b050) == 0x0d133146
  {
  }

  lemma Sums40()
    ensures Add(Add(Add(0x40afddff, 0x9d7c4c27), 0x250b2bbf), 0x5a880000) == 0x5dbf55e5
    ensures Add(Add(Add(0xf2893463, 0x0ce2a393), 0x8f25b73f), 0x005c9400) == 0x8eee2335
    ensures Add(Add(Add(0x40596abd, 0x88e6e1ea), 0x19653d7e), 0x0016d49d) == 0xe2bc5ec2
    ensures Add(Add(Add(0xd5dfcd22, 0xa52b4335), 0x32b4143d), 0xfa801f00) == 0xa83f4394
    ensures Add(Add(Add(0xa481821e, 0x67a16f49), 0x665861c0), 0xd33225d0) == 0x45ad78f7
    ensures Add(Add(Add(0x4992cec8, 0xd732016f), 0x04c7a73d), 0x11675959) == 0x36f3d0cd
    ensures Add(Add(Add(0x1374213d, 0x4eeb2e91), 0x8055f640), 0xf6e6bfda) == 0xd99c05e8
    ensures Add(Add(Add(0x92728153, 0x5dbf55e5), 0x0d133146), 0xb30c1549) == 0xb0511dc7
  {
  }

  lemma Table40()
    ensures Add(0x5dbf55e5, 0xa2bfe8a1) == 0x007f3e86
    ensures Add(0x8eee2335, 0xa81a664b) == 0x37088980
    ensures Add(0xe2bc5ec2, 0xc24b8b70) == 0xa507ea32
    ensures Add(0xa83f4394, 0xc76c51a3) == 0x6fab9537
    ensures Add(0x45ad78f7, 0xd192e819) == 0x17406110
    ensures Add(0x36f3d0cd, 0xd6990624) == 0x0d8cd6f1
    ensures Add(0xd99c05e8, 0xf40e3585) == 0xcdaa3b6d
    ensures Add(0xb0511dc7, 0x106aa070) == 0xc0bbbe37
  {
  }

  lemma Sigmas48()
    ensures SmallSigma1(0xd99c05e8) == 0x827f10fc && SmallSigma0(0x9d7c4c27) == 0x4f9c9643
    ensures SmallSigma1(0xb0511dc7) == 0xad773a65 && SmallSigma0(0x0ce2a393) == 0x8f61520d
    ensures SmallSigma1(0x69bc7ac4) == 0xb220d6f7 && SmallSigma0(0x88e6e1ea) == 0x7c77b3c7
    ensures SmallSigma1(0xbd11375b) == 0xbd69ed67 && SmallSigma0(0xa52b4335) == 0xaf2257aa
    ensures SmallSigma1(0xe3ba71e5) == 0x76f6a336 && SmallSigma0(0x67a16f49) == 0xc5e936df
    ensures SmallSigma1(0x3b209ff2) == 0x5c0992d3 && SmallSigma0(0xd732016f) == 0x4513d1e3
    ensures SmallSigma1(0x18feee17) == 0xaacf50db && SmallSigma0(0x4eeb2e91) == 0xe0e4e035
    ensures SmallSigma1(0xe25ad9e7) == 0x37f79bd0 && SmallSigma0(0x5dbf55e5) == 0x1475c378
  {
  }

  lemma Sums48()
    ensures Add(Add(Add(0x827f10fc, 0x8eee2335), 0x4f9c9643), 0x08b2b050) == 0x69bc7ac4
    ensures Add(Add(Add(0xad773a65, 0xe2bc5ec2), 0x8f61520d), 0x9d7c4c27) == 0xbd11375b
    ensures Add(Add(Add(0xb220d6f7, 0xa83f4394), 0x7c77b3c7), 0x0ce2a393) == 0xe3ba71e5
    ensures Add(Add(Add(0xbd69ed67, 0x45ad78f7), 0xaf2257aa), 0x88e6e1ea) == 0x3b209ff2
    ensures Add(Add(Add(0x76f6a336, 0x36f3d0cd), 0xc5e936df), 0xa52b4335) == 0x18feee17
    ensures Add(Add(Add(0x5c0992d3, 0xd99c05e8), 0x4513d1e3), 0x67a16f49) == 0xe25ad9e7
    ensures Add(Add(Add(0xaacf50db, 0xb0511dc7), 0xe0e4e035), 0xd732016f) == 0x13375046
    ensures Add(Add(Add(0x37f79bd0, 0x69bc7ac4), 0x1475c378), 0x4eeb2e91) == 0x0515089d
  {
  }

  lemma Table48()
    ensures Add(0x69bc7ac4, 0x19a4c116) == 0x83613bda
    ensures Add(0xbd11375b, 0x1e376c08) == 0xdb48a363
    ensures Add(0xe3ba71e5, 0x2748774c) == 0x0b02e931
    ensures Add(0x3b209ff2, 0x34b0bcb5) == 0x6fd15ca7
    ensures Add(0x18feee17, 0x391c0cb3) == 0x521afaca
    ensures Add(0xe25ad9e7, 0x4ed8aa4a) == 0x31338431
    ensures Add(0x13375046, 0x5b9cca4f) == 0x6ed41a95
    ensures Add(0x0515089d, 0x682e6ff3) == 0x6d437890
  {
  }

  lemma Sigmas56()
    ensures SmallSigma1(0x13375046) == 0x422f0629 && SmallSigma0(0x8eee2335) == 0xf20d7b9b
    ensures SmallSigma1(0x0515089d) == 0x255c676a && SmallSigma0(0xe2bc5ec2) == 0x8e224bca
    ensures SmallSigma1(0x4f0d0f04) == 0x26716d24 && SmallSigma0(0xa83f4394) == 0xecb2bcfa
    ensures SmallSigma1(0x2627484e) == 0x4d275e05 && SmallSigma0(0x45ad78f7) == 0xb8032484
    ensures SmallSigma1(0x310128d2) == 0xb17f1eea && SmallSigma0(0x36f3d0cd) == 0x6880d004
    ensures SmallSigma1(0xc668b434) == 0x4cad61d4 && SmallSigma0(0xd99c05e8) == 0xcbfa8ed1
    ensures SmallSigma1(0x420841cc) == 0x28cf2b55 && SmallSigma0(0xb0511dc7) == 0xde1b6d97
    ensures SmallSigma1(0x62d311b8) == 0xeaf389f7 && SmallSigma0(0x69bc7ac4) == 0x9b55edc2
  {
  }

  lemma Sums56()
    ensures Add(Add(Add(0x422f0629, 0xbd11375b), 0xf20d7b9b), 0x5dbf55e5) == 0x4f0d0f04
    ensures Add(Add(Add(0x255c676a, 0xe3ba71e5), 0x8e224bca), 0x8eee2335) == 0x2627484e
    ensures Add(Add(Add(0x26716d24, 0x3b209ff2), 0xecb2bcfa), 0xe2bc5ec2) == 0x310128d2
    ensures Add(Add(Add(0x4d275e05, 0x18feee17), 0xb8032484), 0xa83f4394) == 0xc668b434
    ensures Add(Add(Add(0xb17f1eea, 0xe25ad9e7), 0x6880d004), 0x45ad78f7) == 0x420841cc
    ensures Add(Add(Add(0x4cad61d4, 0x13375046), 0xcbfa8ed1), 0x36f3d0cd) == 0x62d311b8
    ensures Add(Add(Add(0x28cf2b55, 0x0515089d), 0xde1b6d97), 0xd99c05e8) == 0xe59ba771
    ensures Add(Add(Add(0xeaf389f7, 0x4f0d0f04), 0x9b55edc2), 0xb0511dc7) == 0x85a7a484
  {
  }

  lemma Table56()
    ensures Add(0x4f0d0f04, 0x748f82ee) == 0xc39c91f2
    ensures Add(0x2627484e, 0x78a5636f) == 0x9eccabbd
    ensures Add(0x310128d2, 0x84c87814) == 0xb5c9a0e6
    ensures Add(0xc668b434, 0x8cc70208) == 0x532fb63c
    ensures Add(0x420841cc, 0x90befffa) == 0xd2c741c6
    ensures Add(0x62d311b8, 0xa4506ceb) == 0x07237ea3
    ensures Add(0xe59ba771, 0xbef9a3f7) == 0xa4954b68
    ensures Add(0x85a7a484, 0xc67178f2) == 0x4c191d76
  {
  }

  /** Each word of PadW follows from its predecessors. */
  lemma Rows(t: nat)
    requires 16 <= t < 64
    ensures PadW(t) == Add(Add(Add(SmallSigma1(PadW(t - 2)), PadW(t - 7)), SmallSigma0(PadW(t - 15))), PadW(t - 16))
  {
    hide Add, SmallSigma0, SmallSigma1;
    if t < 24 {
      Sigmas16();
      Sums16();
    } else if t < 32 {
      Sigmas24();
      Sums24();
    } else if t < 40 {
      Sigmas32();
      Sums32();
    } else if t < 48 {
      Sigmas40();
      Sums40();
    } else if t < 56 {
      Sigmas48();
      Sums48();
    } else {
      Sigmas56();
      Sums56();
    }
  }

  lemma {:induction false} PadSchedule(t: nat)
    requires t < 64
    ensures Sched(PAD64, t) == PadW(t)
  {
    hide Add, SmallSigma0, SmallSigma1;
    if t >= 16 {
      Rows(t);
      hide PadW;
      PadSchedule(t - 2);
      PadSchedule(t - 7);
      PadSchedule(t - 15);
      PadSchedule(t - 16);
    }
  }

  /** Table entry t is schedule word t of the padding block plus round constant t. */
  lemma TableIsSchedule(t: nat)
    requires t < 64
    ensures WkPad(t) == Add(Sched(PAD64, t), K(t))
  {
    hide Add, Sched;
    PadSchedule(t);
    if t < 8 {
      Table0();
    } else if t < 16 {
      Table8();
    } else if t < 24 {
      Table16();
    } else if t < 32 {
      Table24();
    } else if t < 40 {
      Table32();
    } else if t < 48 {
      Table40();
    } else if t < 56 {
      Table48();
    } else {
      Table56();
    }
  }
}
