/**
 * The 8b/10b code-group table `Encode_8b10b[2][256]`, declared identically in
 * make_wav_gen1.c, decoder.c and make_wav2.c.
 *
 * Row 0 holds the code-group sent for each byte when the running disparity (RD)
 * is negative, row 1 the one sent when it is positive (the code-groups of the
 * Widmer-Franaszek code, as in Tables 36-1 and 36-2 of IEEE 802.3 clause 36).
 * Every entry is an 11-bit value: bits 9..0 are the 10-bit channel word,
 * transmitted from bit 9 down to bit 0, and bit 10 is the RD after that word
 * has been sent (0 for RD = -1, 1 for RD = +1).
 *
 * Each row is written as a balanced comparison tree on the byte, so that
 * facts about a range of entries are cheap for the solver.
 */
module Table8b10b {

  /** Row 0 of `Encode_8b10b`: the code-groups sent at RD = -1. */
  function RdMinus(b: int): (e: int)
    requires 0 <= b < 256
    ensures 0 <= e < 0x800
  {
    if b < 0x80 then
      if b < 0x40 then
        if b < 0x20 then
          if b < 0x10 then
            if b < 0x08 then
              if b < 0x04 then
                if b < 0x02 then
                  if b < 0x01 then
                    0x274
                  else
                    0x1d4
                else
                  if b < 0x03 then
                    0x2d4
                  else
                    0x71b
              else
                if b < 0x06 then
                  if b < 0x05 then
                    0x354
                  else
                    0x69b
                else
                  if b < 0x07 then
                    0x59b
                  else
                    0x78b
            else
              if b < 0x0c then
                if b < 0x0a then
                  if b < 0x09 then
                    0x394
                  else
                    0x65b
                else
                  if b < 0x0b then
                    0x55b
                  else
                    0x74b
              else
                if b < 0x0e then
                  if b < 0x0d then
                    0x4db
                  else
                    0x6cb
                else
                  if b < 0x0f then
                    0x5cb
                  else
                    0x174
          else
            if b < 0x18 then
              if b < 0x14 then
                if b < 0x12 then
                  if b < 0x11 then
                    0x1b4
                  else
                    0x63b
                else
                  if b < 0x13 then
                    0x53b
                  else
                    0x72b
              else
                if b < 0x16 then
                  if b < 0x15 then
                    0x4bb
                  else
                    0x6ab
                else
                  if b < 0x17 then
                    0x5ab
                  else
                    0x3a4
            else
              if b < 0x1c then
                if b < 0x1a then
                  if b < 0x19 then
                    0x334
                  else
                    0x66b
                else
                  if b < 0x1b then
                    0x56b
                  else
                    0x364
              else
                if b < 0x1e then
                  if b < 0x1d then
                    0x4eb
                  else
                    0x2e4
                else
                  if b < 0x1f then
                    0x1e4
                  else
                    0x2b4
        else
          if b < 0x30 then
            if b < 0x28 then
              if b < 0x24 then
                if b < 0x22 then
                  if b < 0x21 then
                    0x679
                  else
                    0x5d9
                else
                  if b < 0x23 then
                    0x6d9
                  else
                    0x319
              else
                if b < 0x26 then
                  if b < 0x25 then
                    0x759
                  else
                    0x299
                else
                  if b < 0x27 then
                    0x199
                  else
                    0x389
            else
              if b < 0x2c then
                if b < 0x2a then
                  if b < 0x29 then
                    0x799
                  else
                    0x259
                else
                  if b < 0x2b then
                    0x159
                  else
                    0x349
              else
                if b < 0x2e then
                  if b < 0x2d then
                    0x0d9
                  else
                    0x2c9
                else
                  if b < 0x2f then
                    0x1c9
                  else
                    0x579
          else
            if b < 0x38 then
              if b < 0x34 then
                if b < 0x32 then
                  if b < 0x31 then
                    0x5b9
                  else
                    0x239
                else
                  if b < 0x33 then
                    0x139
                  else
                    0x329
              else
                if b < 0x36 then
                  if b < 0x35 then
                    0x0b9
                  else
                    0x2a9
                else
                  if b < 0x37 then
                    0x1a9
                  else
                    0x7a9
            else
              if b < 0x3c then
                if b < 0x3a then
                  if b < 0x39 then
                    0x739
                  else
                    0x269
                else
                  if b < 0x3b then
                    0x169
                  else
                    0x769
              else
                if b < 0x3e then
                  if b < 0x3d then
                    0x0e9
                  else
                    0x6e9
                else
                  if b < 0x3f then
                    0x5e9
                  else
                    0x6b9
      else
        if b < 0x60 then
          if b < 0x50 then
            if b < 0x48 then
              if b < 0x44 then
                if b < 0x42 then
                  if b < 0x41 then
                    0x675
                  else
                    0x5d5
                else
                  if b < 0x43 then
                    0x6d5
                  else
                    0x315
              else
                if b < 0x46 then
                  if b < 0x45 then
                    0x755
                  else
                    0x295
                else
                  if b < 0x47 then
                    0x195
                  else
                    0x385
            else
              if b < 0x4c then
                if b < 0x4a then
                  if b < 0x49 then
                    0x795
                  else
                    0x255
                else
                  if b < 0x4b then
                    0x155
                  else
                    0x345
              else
                if b < 0x4e then
                  if b < 0x4d then
                    0x0d5
                  else
                    0x2c5
                else
                  if b < 0x4f then
                    0x1c5
                  else
                    0x575
          else
            if b < 0x58 then
              if b < 0x54 then
                if b < 0x52 then
                  if b < 0x51 then
                    0x5b5
                  else
                    0x235
                else
                  if b < 0x53 then
                    0x135
                  else
                    0x325
              else
                if b < 0x56 then
                  if b < 0x55 then
                    0x0b5
                  else
                    0x2a5
                else
                  if b < 0x57 then
                    0x1a5
                  else
                    0x7a5
            else
              if b < 0x5c then
                if b < 0x5a then
                  if b < 0x59 then
                    0x735
                  else
                    0x265
                else
                  if b < 0x5b then
                    0x165
                  else
                    0x765
              else
                if b < 0x5e then
                  if b < 0x5d then
                    0x0e5
                  else
                    0x6e5
                else
                  if b < 0x5f then
                    0x5e5
                  else
                    0x6b5
        else
          if b < 0x70 then
            if b < 0x68 then
              if b < 0x64 then
                if b < 0x62 then
                  if b < 0x61 then
                    0x673
                  else
                    0x5d3
                else
                  if b < 0x63 then
                    0x6d3
                  else
                    0x31c
              else
                if b < 0x66 then
                  if b < 0x65 then
                    0x753
                  else
                    0x29c
                else
                  if b < 0x67 then
                    0x19c
                  else
                    0x38c
            else
              if b < 0x6c then
                if b < 0x6a then
                  if b < 0x69 then
                    0x793
                  else
                    0x25c
                else
                  if b < 0x6b then
                    0x15c
                  else
                    0x34c
              else
                if b < 0x6e then
                  if b < 0x6d then
                    0x0dc
                  else
                    0x2cc
                else
                  if b < 0x6f then
                    0x1cc
                  else
                    0x573
          else
            if b < 0x78 then
              if b < 0x74 then
                if b < 0x72 then
                  if b < 0x71 then
                    0x5b3
                  else
                    0x23c
                else
                  if b < 0x73 then
                    0x13c
                  else
                    0x32c
              else
                if b < 0x76 then
                  if b < 0x75 then
                    0x0bc
                  else
                    0x2ac
                else
                  if b < 0x77 then
                    0x1ac
                  else
                    0x7a3
            else
              if b < 0x7c then
                if b < 0x7a then
                  if b < 0x79 then
                    0x733
                  else
                    0x26c
                else
                  if b < 0x7b then
                    0x16c
                  else
                    0x763
              else
                if b < 0x7e then
                  if b < 0x7d then
                    0x0ec
                  else
                    0x6e3
                else
                  if b < 0x7f then
                    0x5e3
                  else
                    0x6b3
    else
      if b < 0xc0 then
        if b < 0xa0 then
          if b < 0x90 then
            if b < 0x88 then
              if b < 0x84 then
                if b < 0x82 then
                  if b < 0x81 then
                    0x272
                  else
                    0x1d2
                else
                  if b < 0x83 then
                    0x2d2
                  else
                    0x71d
              else
                if b < 0x86 then
                  if b < 0x85 then
                    0x352
                  else
                    0x69d
                else
                  if b < 0x87 then
                    0x59d
                  else
                    0x78d
            else
              if b < 0x8c then
                if b < 0x8a then
                  if b < 0x89 then
                    0x392
                  else
                    0x65d
                else
                  if b < 0x8b then
                    0x55d
                  else
                    0x74d
              else
                if b < 0x8e then
                  if b < 0x8d then
                    0x4dd
                  else
                    0x6cd
                else
                  if b < 0x8f then
                    0x5cd
                  else
                    0x172
          else
            if b < 0x98 then
              if b < 0x94 then
                if b < 0x92 then
                  if b < 0x91 then
                    0x1b2
                  else
                    0x63d
                else
                  if b < 0x93 then
                    0x53d
                  else
                    0x72d
              else
                if b < 0x96 then
                  if b < 0x95 then
                    0x4bd
                  else
                    0x6ad
                else
                  if b < 0x97 then
                    0x5ad
                  else
                    0x3a2
            else
              if b < 0x9c then
                if b < 0x9a then
                  if b < 0x99 then
                    0x332
                  else
                    0x66d
                else
                  if b < 0x9b then
                    0x56d
                  else
                    0x362
              else
                if b < 0x9e then
                  if b < 0x9d then
                    0x4ed
                  else
                    0x2e2
                else
                  if b < 0x9f then
                    0x1e2
                  else
                    0x2b2
        else
          if b < 0xb0 then
            if b < 0xa8 then
              if b < 0xa4 then
                if b < 0xa2 then
                  if b < 0xa1 then
                    0x67a
                  else
                    0x5da
                else
                  if b < 0xa3 then
                    0x6da
                  else
                    0x31a
              else
                if b < 0xa6 then
                  if b < 0xa5 then
                    0x75a
                  else
                    0x29a
                else
                  if b < 0xa7 then
                    0x19a
                  else
                    0x38a
            else
              if b < 0xac then
                if b < 0xaa then
                  if b < 0xa9 then
                    0x79a
                  else
                    0x25a
                else
                  if b < 0xab then
                    0x15a
                  else
                    0x34a
              else
                if b < 0xae then
                  if b < 0xad then
                    0x0da
                  else
                    0x2ca
                else
                  if b < 0xaf then
                    0x1ca
                  else
                    0x57a
          else
            if b < 0xb8 then
              if b < 0xb4 then
                if b < 0xb2 then
                  if b < 0xb1 then
                    0x5ba
                  else
                    0x23a
                else
                  if b < 0xb3 then
                    0x13a
                  else
                    0x32a
              else
                if b < 0xb6 then
                  if b < 0xb5 then
                    0x0ba
                  else
                    0x2aa
                else
                  if b < 0xb7 then
                    0x1aa
                  else
                    0x7aa
            else
              if b < 0xbc then
                if b < 0xba then
                  if b < 0xb9 then
                    0x73a
                  else
                    0x26a
                else
                  if b < 0xbb then
                    0x16a
                  else
                    0x76a
              else
                if b < 0xbe then
                  if b < 0xbd then
                    0x0ea
                  else
                    0x6ea
                else
                  if b < 0xbf then
                    0x5ea
                  else
                    0x6ba
      else
        if b < 0xe0 then
          if b < 0xd0 then
            if b < 0xc8 then
              if b < 0xc4 then
                if b < 0xc2 then
                  if b < 0xc1 then
                    0x676
                  else
                    0x5d6
                else
                  if b < 0xc3 then
                    0x6d6
                  else
                    0x316
              else
                if b < 0xc6 then
                  if b < 0xc5 then
                    0x756
                  else
                    0x296
                else
                  if b < 0xc7 then
                    0x196
                  else
                    0x386
            else
              if b < 0xcc then
                if b < 0xca then
                  if b < 0xc9 then
                    0x796
                  else
                    0x256
                else
                  if b < 0xcb then
                    0x156
                  else
                    0x346
              else
                if b < 0xce then
                  if b < 0xcd then
                    0x0d6
                  else
                    0x2c6
                else
                  if b < 0xcf then
                    0x1c6
                  else
                    0x576
          else
            if b < 0xd8 then
              if b < 0xd4 then
                if b < 0xd2 then
                  if b < 0xd1 then
                    0x5b6
                  else
                    0x236
                else
                  if b < 0xd3 then
                    0x136
                  else
                    0x326
              else
                if b < 0xd6 then
                  if b < 0xd5 then
                    0x0b6
                  else
                    0x2a6
                else
                  if b < 0xd7 then
                    0x1a6
                  else
                    0x7a6
            else
              if b < 0xdc then
                if b < 0xda then
                  if b < 0xd9 then
                    0x736
                  else
                    0x266
                else
                  if b < 0xdb then
                    0x166
                  else
                    0x766
              else
                if b < 0xde then
                  if b < 0xdd then
                    0x0e6
                  else
                    0x6e6
                else
                  if b < 0xdf then
                    0x5e6
                  else
                    0x6b6
        else
          if b < 0xf0 then
            if b < 0xe8 then
              if b < 0xe4 then
                if b < 0xe2 then
                  if b < 0xe1 then
                    0x271
                  else
                    0x1d1
                else
                  if b < 0xe3 then
                    0x2d1
                  else
                    0x71e
              else
                if b < 0xe6 then
                  if b < 0xe5 then
                    0x351
                  else
                    0x69e
                else
                  if b < 0xe7 then
                    0x59e
                  else
                    0x78e
            else
              if b < 0xec then
                if b < 0xea then
                  if b < 0xe9 then
                    0x391
                  else
                    0x65e
                else
                  if b < 0xeb then
                    0x55e
                  else
                    0x74e
              else
                if b < 0xee then
                  if b < 0xed then
                    0x4de
                  else
                    0x6ce
                else
                  if b < 0xef then
                    0x5ce
                  else
                    0x171
          else
            if b < 0xf8 then
              if b < 0xf4 then
                if b < 0xf2 then
                  if b < 0xf1 then
                    0x1b1
                  else
                    0x637
                else
                  if b < 0xf3 then
                    0x537
                  else
                    0x72e
              else
                if b < 0xf6 then
                  if b < 0xf5 then
                    0x4b7
                  else
                    0x6ae
                else
                  if b < 0xf7 then
                    0x5ae
                  else
                    0x3a1
            else
              if b < 0xfc then
                if b < 0xfa then
                  if b < 0xf9 then
                    0x331
                  else
                    0x66e
                else
                  if b < 0xfb then
                    0x56e
                  else
                    0x361
              else
                if b < 0xfe then
                  if b < 0xfd then
                    0x4ee
                  else
                    0x2e1
                else
                  if b < 0xff then
                    0x1e1
                  else
                    0x2b1
  }

  /** Row 1 of `Encode_8b10b`: the code-groups sent at RD = +1. */
  function RdPlus(b: int): (e: int)
    requires 0 <= b < 256
    ensures 0 <= e < 0x800
  {
    if b < 0x80 then
      if b < 0x40 then
        if b < 0x20 then
          if b < 0x10 then
            if b < 0x08 then
              if b < 0x04 then
                if b < 0x02 then
                  if b < 0x01 then
                    0x58b
                  else
                    0x62b
                else
                  if b < 0x03 then
                    0x52b
                  else
                    0x314
              else
                if b < 0x06 then
                  if b < 0x05 then
                    0x4ab
                  else
                    0x294
                else
                  if b < 0x07 then
                    0x194
                  else
                    0x074
            else
              if b < 0x0c then
                if b < 0x0a then
                  if b < 0x09 then
                    0x46b
                  else
                    0x254
                else
                  if b < 0x0b then
                    0x154
                  else
                    0x344
              else
                if b < 0x0e then
                  if b < 0x0d then
                    0x0d4
                  else
                    0x2c4
                else
                  if b < 0x0f then
                    0x1c4
                  else
                    0x68b
          else
            if b < 0x18 then
              if b < 0x14 then
                if b < 0x12 then
                  if b < 0x11 then
                    0x64b
                  else
                    0x234
                else
                  if b < 0x13 then
                    0x134
                  else
                    0x324
              else
                if b < 0x16 then
                  if b < 0x15 then
                    0x0b4
                  else
                    0x2a4
                else
                  if b < 0x17 then
                    0x1a4
                  else
                    0x45b
            else
              if b < 0x1c then
                if b < 0x1a then
                  if b < 0x19 then
                    0x4cb
                  else
                    0x264
                else
                  if b < 0x1b then
                    0x164
                  else
                    0x49b
              else
                if b < 0x1e then
                  if b < 0x1d then
                    0x0e4
                  else
                    0x51b
                else
                  if b < 0x1f then
                    0x61b
                  else
                    0x54b
        else
          if b < 0x30 then
            if b < 0x28 then
              if b < 0x24 then
                if b < 0x22 then
                  if b < 0x21 then
                    0x189
                  else
                    0x229
                else
                  if b < 0x23 then
                    0x129
                  else
                    0x719
              else
                if b < 0x26 then
                  if b < 0x25 then
                    0x0a9
                  else
                    0x699
                else
                  if b < 0x27 then
                    0x599
                  else
                    0x479
            else
              if b < 0x2c then
                if b < 0x2a then
                  if b < 0x29 then
                    0x069
                  else
                    0x659
                else
                  if b < 0x2b then
                    0x559
                  else
                    0x749
              else
                if b < 0x2e then
                  if b < 0x2d then
                    0x4d9
                  else
                    0x6c9
                else
                  if b < 0x2f then
                    0x5c9
                  else
                    0x289
          else
            if b < 0x38 then
              if b < 0x34 then
                if b < 0x32 then
                  if b < 0x31 then
                    0x249
                  else
                    0x639
                else
                  if b < 0x33 then
                    0x539
                  else
                    0x729
              else
                if b < 0x36 then
                  if b < 0x35 then
                    0x4b9
                  else
                    0x6a9
                else
                  if b < 0x37 then
                    0x5a9
                  else
                    0x059
            else
              if b < 0x3c then
                if b < 0x3a then
                  if b < 0x39 then
                    0x0c9
                  else
                    0x669
                else
                  if b < 0x3b then
                    0x569
                  else
                    0x099
              else
                if b < 0x3e then
                  if b < 0x3d then
                    0x4e9
                  else
                    0x119
                else
                  if b < 0x3f then
                    0x219
                  else
                    0x149
      else
        if b < 0x60 then
          if b < 0x50 then
            if b < 0x48 then
              if b < 0x44 then
                if b < 0x42 then
                  if b < 0x41 then
                    0x185
                  else
                    0x225
                else
                  if b < 0x43 then
                    0x125
                  else
                    0x715
              else
                if b < 0x46 then
                  if b < 0x45 then
                    0x0a5
                  else
                    0x695
                else
                  if b < 0x47 then
                    0x595
                  else
                    0x475
            else
              if b < 0x4c then
                if b < 0x4a then
                  if b < 0x49 then
                    0x065
                  else
                    0x655
                else
                  if b < 0x4b then
                    0x555
                  else
                    0x745
              else
                if b < 0x4e then
                  if b < 0x4d then
                    0x4d5
                  else
                    0x6c5
                else
                  if b < 0x4f then
                    0x5c5
                  else
                    0x285
          else
            if b < 0x58 then
              if b < 0x54 then
                if b < 0x52 then
                  if b < 0x51 then
                    0x245
                  else
                    0x635
                else
                  if b < 0x53 then
                    0x535
                  else
                    0x725
              else
                if b < 0x56 then
                  if b < 0x55 then
                    0x4b5
                  else
                    0x6a5
                else
                  if b < 0x57 then
                    0x5a5
                  else
                    0x055
            else
              if b < 0x5c then
                if b < 0x5a then
                  if b < 0x59 then
                    0x0c5
                  else
                    0x665
                else
                  if b < 0x5b then
                    0x565
                  else
                    0x095
              else
                if b < 0x5e then
                  if b < 0x5d then
                    0x4e5
                  else
                    0x115
                else
                  if b < 0x5f then
                    0x215
                  else
                    0x145
        else
          if b < 0x70 then
            if b < 0x68 then
              if b < 0x64 then
                if b < 0x62 then
                  if b < 0x61 then
                    0x18c
                  else
                    0x22c
                else
                  if b < 0x63 then
                    0x12c
                  else
                    0x713
              else
                if b < 0x66 then
                  if b < 0x65 then
                    0x0ac
                  else
                    0x693
                else
                  if b < 0x67 then
                    0x593
                  else
                    0x473
            else
              if b < 0x6c then
                if b < 0x6a then
                  if b < 0x69 then
                    0x06c
                  else
                    0x653
                else
                  if b < 0x6b then
                    0x553
                  else
                    0x743
              else
                if b < 0x6e then
                  if b < 0x6d then
                    0x4d3
                  else
                    0x6c3
                else
                  if b < 0x6f then
                    0x5c3
                  else
                    0x28c
          else
            if b < 0x78 then
              if b < 0x74 then
                if b < 0x72 then
                  if b < 0x71 then
                    0x24c
                  else
                    0x633
                else
                  if b < 0x73 then
                    0x533
                  else
                    0x723
              else
                if b < 0x76 then
                  if b < 0x75 then
                    0x4b3
                  else
                    0x6a3
                else
                  if b < 0x77 then
                    0x5a3
                  else
                    0x05c
            else
              if b < 0x7c then
                if b < 0x7a then
                  if b < 0x79 then
                    0x0cc
                  else
                    0x663
                else
                  if b < 0x7b then
                    0x563
                  else
                    0x09c
              else
                if b < 0x7e then
                  if b < 0x7d then
                    0x4e3
                  else
                    0x11c
                else
                  if b < 0x7f then
                    0x21c
                  else
                    0x14c
    else
      if b < 0xc0 then
        if b < 0xa0 then
          if b < 0x90 then
            if b < 0x88 then
              if b < 0x84 then
                if b < 0x82 then
                  if b < 0x81 then
                    0x58d
                  else
                    0x62d
                else
                  if b < 0x83 then
                    0x52d
                  else
                    0x312
              else
                if b < 0x86 then
                  if b < 0x85 then
                    0x4ad
                  else
                    0x292
                else
                  if b < 0x87 then
                    0x192
                  else
                    0x072
            else
              if b < 0x8c then
                if b < 0x8a then
                  if b < 0x89 then
                    0x46d
                  else
                    0x252
                else
                  if b < 0x8b then
                    0x152
                  else
                    0x342
              else
                if b < 0x8e then
                  if b < 0x8d then
                    0x0d2
                  else
                    0x2c2
                else
                  if b < 0x8f then
                    0x1c2
                  else
                    0x68d
          else
            if b < 0x98 then
              if b < 0x94 then
                if b < 0x92 then
                  if b < 0x91 then
                    0x64d
                  else
                    0x232
                else
                  if b < 0x93 then
                    0x132
                  else
                    0x322
              else
                if b < 0x96 then
                  if b < 0x95 then
                    0x0b2
                  else
                    0x2a2
                else
                  if b < 0x97 then
                    0x1a2
                  else
                    0x45d
            else
              if b < 0x9c then
                if b < 0x9a then
                  if b < 0x99 then
                    0x4cd
                  else
                    0x262
                else
                  if b < 0x9b then
                    0x162
                  else
                    0x49d
              else
                if b < 0x9e then
                  if b < 0x9d then
                    0x0e2
                  else
                    0x51d
                else
                  if b < 0x9f then
                    0x61d
                  else
                    0x54d
        else
          if b < 0xb0 then
            if b < 0xa8 then
              if b < 0xa4 then
                if b < 0xa2 then
                  if b < 0xa1 then
                    0x18a
                  else
                    0x22a
                else
                  if b < 0xa3 then
                    0x12a
                  else
                    0x71a
              else
                if b < 0xa6 then
                  if b < 0xa5 then
                    0x0aa
                  else
                    0x69a
                else
                  if b < 0xa7 then
                    0x59a
                  else
                    0x47a
            else
              if b < 0xac then
                if b < 0xaa then
                  if b < 0xa9 then
                    0x06a
                  else
                    0x65a
                else
                  if b < 0xab then
                    0x55a
                  else
                    0x74a
              else
                if b < 0xae then
                  if b < 0xad then
                    0x4da
                  else
                    0x6ca
                else
                  if b < 0xaf then
                    0x5ca
                  else
                    0x28a
          else
            if b < 0xb8 then
              if b < 0xb4 then
                if b < 0xb2 then
                  if b < 0xb1 then
                    0x24a
                  else
                    0x63a
                else
                  if b < 0xb3 then
                    0x53a
                  else
                    0x72a
              else
                if b < 0xb6 then
                  if b < 0xb5 then
                    0x4ba
                  else
                    0x6aa
                else
                  if b < 0xb7 then
                    0x5aa
                  else
                    0x05a
            else
              if b < 0xbc then
                if b < 0xba then
                  if b < 0xb9 then
                    0x0ca
                  else
                    0x66a
                else
                  if b < 0xbb then
                    0x56a
                  else
                    0x09a
              else
                if b < 0xbe then
                  if b < 0xbd then
                    0x4ea
                  else
                    0x11a
                else
                  if b < 0xbf then
                    0x21a
                  else
                    0x14a
      else
        if b < 0xe0 then
          if b < 0xd0 then
            if b < 0xc8 then
              if b < 0xc4 then
                if b < 0xc2 then
                  if b < 0xc1 then
                    0x186
                  else
                    0x226
                else
                  if b < 0xc3 then
                    0x126
                  else
                    0x716
              else
                if b < 0xc6 then
                  if b < 0xc5 then
                    0x0a6
                  else
                    0x696
                else
                  if b < 0xc7 then
                    0x596
                  else
                    0x476
            else
              if b < 0xcc then
                if b < 0xca then
                  if b < 0xc9 then
                    0x066
                  else
                    0x656
                else
                  if b < 0xcb then
                    0x556
                  else
                    0x746
              else
                if b < 0xce then
                  if b < 0xcd then
                    0x4d6
                  else
                    0x6c6
                else
                  if b < 0xcf then
                    0x5c6
                  else
                    0x286
          else
            if b < 0xd8 then
              if b < 0xd4 then
                if b < 0xd2 then
                  if b < 0xd1 then
                    0x246
                  else
                    0x636
                else
                  if b < 0xd3 then
                    0x536
                  else
                    0x726
              else
                if b < 0xd6 then
                  if b < 0xd5 then
                    0x4b6
                  else
                    0x6a6
                else
                  if b < 0xd7 then
                    0x5a6
                  else
                    0x056
            else
              if b < 0xdc then
                if b < 0xda then
                  if b < 0xd9 then
                    0x0c6
                  else
                    0x666
                else
                  if b < 0xdb then
                    0x566
                  else
                    0x096
              else
                if b < 0xde then
                  if b < 0xdd then
                    0x4e6
                  else
                    0x116
                else
                  if b < 0xdf then
                    0x216
                  else
                    0x146
        else
          if b < 0xf0 then
            if b < 0xe8 then
              if b < 0xe4 then
                if b < 0xe2 then
                  if b < 0xe1 then
                    0x58e
                  else
                    0x62e
                else
                  if b < 0xe3 then
                    0x52e
                  else
                    0x311
              else
                if b < 0xe6 then
                  if b < 0xe5 then
                    0x4ae
                  else
                    0x291
                else
                  if b < 0xe7 then
                    0x191
                  else
                    0x071
            else
              if b < 0xec then
                if b < 0xea then
                  if b < 0xe9 then
                    0x46e
                  else
                    0x251
                else
                  if b < 0xeb then
                    0x151
                  else
                    0x348
              else
                if b < 0xee then
                  if b < 0xed then
                    0x0d1
                  else
                    0x2c8
                else
                  if b < 0xef then
                    0x1c8
                  else
                    0x68e
          else
            if b < 0xf8 then
              if b < 0xf4 then
                if b < 0xf2 then
                  if b < 0xf1 then
                    0x64e
                  else
                    0x231
                else
                  if b < 0xf3 then
                    0x131
                  else
                    0x321
              else
                if b < 0xf6 then
                  if b < 0xf5 then
                    0x0b1
                  else
                    0x2a1
                else
                  if b < 0xf7 then
                    0x1a1
                  else
                    0x45e
            else
              if b < 0xfc then
                if b < 0xfa then
                  if b < 0xf9 then
                    0x4ce
                  else
                    0x261
                else
                  if b < 0xfb then
                    0x161
                  else
                    0x49e
              else
                if b < 0xfe then
                  if b < 0xfd then
                    0x0e1
                  else
                    0x51e
                else
                  if b < 0xff then
                    0x61e
                  else
                    0x54e
  }

  /** `Encode_8b10b[rd][b]`. */
  function Encode8b10b(rd: int, b: int): (e: int)
    requires 0 <= rd < 2 && 0 <= b < 256
    ensures 0 <= e < 0x800
  {
    if rd == 0 then RdMinus(b) else RdPlus(b)
  }

  /** The channel word of an entry, `e & 0x3ff`. */
  function Word(e: int): (w: int)
    requires 0 <= e < 0x800
    ensures 0 <= w < 0x400
  {
    if e < 0x400 then e else e - 0x400
  }

  /** The RD bit of an entry, `(e >> 10) & 1`. */
  function NextRd(e: int): (s: int)
    requires 0 <= e < 0x800
    ensures s == 0 || s == 1
  {
    if e < 0x400 then 0 else 1
  }

  /** An 11-bit entry is its RD bit above its 10-bit word. */
  lemma EntryFields(e: int)
    requires 0 <= e < 0x800
    ensures Word(e) == e % 0x400 && NextRd(e) == e / 0x400
    ensures e == 0x400 * NextRd(e) + Word(e)
  {
  }

  /** The number of 1-bits among bits 9..0 of x. */
  function Ones10Bits(x: bv16): (n: int)
    ensures 0 <= n <= 10
  {
    ((x & 1) + ((x >> 1) & 1) + ((x >> 2) & 1) + ((x >> 3) & 1) + ((x >> 4) & 1)
      + ((x >> 5) & 1) + ((x >> 6) & 1) + ((x >> 7) & 1) + ((x >> 8) & 1) + ((x >> 9) & 1)) as int
  }

  /** The number of 1-bits of a 10-bit channel word. */
  function Ones10(w: int): (n: int)
    requires 0 <= w < 0x400
    ensures 0 <= n <= 10
  {
    Ones10Bits(w as bv16)
  }

  /**
   * The disparity of a 10-bit word: the number of 1-bits minus the number
   * of 0-bits.
   */
  function Disparity(w: int): (d: int)
    requires 0 <= w < 0x400
    ensures -10 <= d <= 10
  {
    2 * Ones10(w) - 10
  }

  // The same two rows again, typed as 16-bit vectors. This is not a second
  // table of the source: the copy exists only because counting bits is cheap
  // for the solver on bit-vectors and very costly on integers. BitsMinusAgree
  // and BitsPlusAgree prove the copies equal to RdMinus and RdPlus entry for
  // entry, so every fact about bits carries over to the one table.

  /** Row 0 of `Encode_8b10b` as a bit-vector. */
  function BitsMinus(b: int): (e: bv16)
    requires 0 <= b < 256
  {
    if b < 0x80 then
      if b < 0x40 then
        if b < 0x20 then
          if b < 0x10 then
            if b < 0x08 then
              if b < 0x04 then
                if b < 0x02 then
                  if b < 0x01 then
                    0x274
                  else
                    0x1d4
                else
                  if b < 0x03 then
                    0x2d4
                  else
                    0x71b
              else
                if b < 0x06 then
                  if b < 0x05 then
                    0x354
                  else
                    0x69b
                else
                  if b < 0x07 then
                    0x59b
                  else
                    0x78b
            else
              if b < 0x0c then
                if b < 0x0a then
                  if b < 0x09 then
                    0x394
                  else
                    0x65b
                else
                  if b < 0x0b then
                    0x55b
                  else
                    0x74b
              else
                if b < 0x0e then
                  if b < 0x0d then
                    0x4db
                  else
                    0x6cb
                else
                  if b < 0x0f then
                    0x5cb
                  else
                    0x174
          else
            if b < 0x18 then
              if b < 0x14 then
                if b < 0x12 then
                  if b < 0x11 then
                    0x1b4
                  else
                    0x63b
                else
                  if b < 0x13 then
                    0x53b
                  else
                    0x72b
              else
                if b < 0x16 then
                  if b < 0x15 then
                    0x4bb
                  else
                    0x6ab
                else
                  if b < 0x17 then
                    0x5ab
                  else
                    0x3a4
            else
              if b < 0x1c then
                if b < 0x1a then
                  if b < 0x19 then
                    0x334
                  else
                    0x66b
                else
                  if b < 0x1b then
                    0x56b
                  else
                    0x364
              else
                if b < 0x1e then
                  if b < 0x1d then
                    0x4eb
                  else
                    0x2e4
                else
                  if b < 0x1f then
                    0x1e4
                  else
                    0x2b4
        else
          if b < 0x30 then
            if b < 0x28 then
              if b < 0x24 then
                if b < 0x22 then
                  if b < 0x21 then
                    0x679
                  else
                    0x5d9
                else
                  if b < 0x23 then
                    0x6d9
                  else
                    0x319
              else
                if b < 0x26 then
                  if b < 0x25 then
                    0x759
                  else
                    0x299
                else
                  if b < 0x27 then
                    0x199
                  else
                    0x389
            else
              if b < 0x2c then
                if b < 0x2a then
                  if b < 0x29 then
                    0x799
                  else
                    0x259
                else
                  if b < 0x2b then
                    0x159
                  else
                    0x349
              else
                if b < 0x2e then
                  if b < 0x2d then
                    0x0d9
                  else
                    0x2c9
                else
                  if b < 0x2f then
                    0x1c9
                  else
                    0x579
          else
            if b < 0x38 then
              if b < 0x34 then
                if b < 0x32 then
                  if b < 0x31 then
                    0x5b9
                  else
                    0x239
                else
                  if b < 0x33 then
                    0x139
                  else
                    0x329
              else
                if b < 0x36 then
                  if b < 0x35 then
                    0x0b9
                  else
                    0x2a9
                else
                  if b < 0x37 then
                    0x1a9
                  else
                    0x7a9
            else
              if b < 0x3c then
                if b < 0x3a then
                  if b < 0x39 then
                    0x739
                  else
                    0x269
                else
                  if b < 0x3b then
                    0x169
                  else
                    0x769
              else
                if b < 0x3e then
                  if b < 0x3d then
                    0x0e9
                  else
                    0x6e9
                else
                  if b < 0x3f then
                    0x5e9
                  else
                    0x6b9
      else
        if b < 0x60 then
          if b < 0x50 then
            if b < 0x48 then
              if b < 0x44 then
                if b < 0x42 then
                  if b < 0x41 then
                    0x675
                  else
                    0x5d5
                else
                  if b < 0x43 then
                    0x6d5
                  else
                    0x315
              else
                if b < 0x46 then
                  if b < 0x45 then
                    0x755
                  else
                    0x295
                else
                  if b < 0x47 then
                    0x195
                  else
                    0x385
            else
              if b < 0x4c then
                if b < 0x4a then
                  if b < 0x49 then
                    0x795
                  else
                    0x255
                else
                  if b < 0x4b then
                    0x155
                  else
                    0x345
              else
                if b < 0x4e then
                  if b < 0x4d then
                    0x0d5
                  else
                    0x2c5
                else
                  if b < 0x4f then
                    0x1c5
                  else
                    0x575
          else
            if b < 0x58 then
              if b < 0x54 then
                if b < 0x52 then
                  if b < 0x51 then
                    0x5b5
                  else
                    0x235
                else
                  if b < 0x53 then
                    0x135
                  else
                    0x325
              else
                if b < 0x56 then
                  if b < 0x55 then
                    0x0b5
                  else
                    0x2a5
                else
                  if b < 0x57 then
                    0x1a5
                  else
                    0x7a5
            else
              if b < 0x5c then
                if b < 0x5a then
                  if b < 0x59 then
                    0x735
                  else
                    0x265
                else
                  if b < 0x5b then
                    0x165
                  else
                    0x765
              else
                if b < 0x5e then
                  if b < 0x5d then
                    0x0e5
                  else
                    0x6e5
                else
                  if b < 0x5f then
                    0x5e5
                  else
                    0x6b5
        else
          if b < 0x70 then
            if b < 0x68 then
              if b < 0x64 then
                if b < 0x62 then
                  if b < 0x61 then
                    0x673
                  else
                    0x5d3
                else
                  if b < 0x63 then
                    0x6d3
                  else
                    0x31c
              else
                if b < 0x66 then
                  if b < 0x65 then
                    0x753
                  else
                    0x29c
                else
                  if b < 0x67 then
                    0x19c
                  else
                    0x38c
            else
              if b < 0x6c then
                if b < 0x6a then
                  if b < 0x69 then
                    0x793
                  else
                    0x25c
                else
                  if b < 0x6b then
                    0x15c
                  else
                    0x34c
              else
                if b < 0x6e then
                  if b < 0x6d then
                    0x0dc
                  else
                    0x2cc
                else
                  if b < 0x6f then
                    0x1cc
                  else
                    0x573
          else
            if b < 0x78 then
              if b < 0x74 then
                if b < 0x72 then
                  if b < 0x71 then
                    0x5b3
                  else
                    0x23c
                else
                  if b < 0x73 then
                    0x13c
                  else
                    0x32c
              else
                if b < 0x76 then
                  if b < 0x75 then
                    0x0bc
                  else
                    0x2ac
                else
                  if b < 0x77 then
                    0x1ac
                  else
                    0x7a3
            else
              if b < 0x7c then
                if b < 0x7a then
                  if b < 0x79 then
                    0x733
                  else
                    0x26c
                else
                  if b < 0x7b then
                    0x16c
                  else
                    0x763
              else
                if b < 0x7e then
                  if b < 0x7d then
                    0x0ec
                  else
                    0x6e3
                else
                  if b < 0x7f then
                    0x5e3
                  else
                    0x6b3
    else
      if b < 0xc0 then
        if b < 0xa0 then
          if b < 0x90 then
            if b < 0x88 then
              if b < 0x84 then
                if b < 0x82 then
                  if b < 0x81 then
                    0x272
                  else
                    0x1d2
                else
                  if b < 0x83 then
                    0x2d2
                  else
                    0x71d
              else
                if b < 0x86 then
                  if b < 0x85 then
                    0x352
                  else
                    0x69d
                else
                  if b < 0x87 then
                    0x59d
                  else
                    0x78d
            else
              if b < 0x8c then
                if b < 0x8a then
                  if b < 0x89 then
                    0x392
                  else
                    0x65d
                else
                  if b < 0x8b then
                    0x55d
                  else
                    0x74d
              else
                if b < 0x8e then
                  if b < 0x8d then
                    0x4dd
                  else
                    0x6cd
                else
                  if b < 0x8f then
                    0x5cd
                  else
                    0x172
          else
            if b < 0x98 then
              if b < 0x94 then
                if b < 0x92 then
                  if b < 0x91 then
                    0x1b2
                  else
                    0x63d
                else
                  if b < 0x93 then
                    0x53d
                  else
                    0x72d
              else
                if b < 0x96 then
                  if b < 0x95 then
                    0x4bd
                  else
                    0x6ad
                else
                  if b < 0x97 then
                    0x5ad
                  else
                    0x3a2
            else
              if b < 0x9c then
                if b < 0x9a then
                  if b < 0x99 then
                    0x332
                  else
                    0x66d
                else
                  if b < 0x9b then
                    0x56d
                  else
                    0x362
              else
                if b < 0x9e then
                  if b < 0x9d then
                    0x4ed
                  else
                    0x2e2
                else
                  if b < 0x9f then
                    0x1e2
                  else
                    0x2b2
        else
          if b < 0xb0 then
            if b < 0xa8 then
              if b < 0xa4 then
                if b < 0xa2 then
                  if b < 0xa1 then
                    0x67a
                  else
                    0x5da
                else
                  if b < 0xa3 then
                    0x6da
                  else
                    0x31a
              else
                if b < 0xa6 then
                  if b < 0xa5 then
                    0x75a
                  else
                    0x29a
                else
                  if b < 0xa7 then
                    0x19a
                  else
                    0x38a
            else
              if b < 0xac then
                if b < 0xaa then
                  if b < 0xa9 then
                    0x79a
                  else
                    0x25a
                else
                  if b < 0xab then
                    0x15a
                  else
                    0x34a
              else
                if b < 0xae then
                  if b < 0xad then
                    0x0da
                  else
                    0x2ca
                else
                  if b < 0xaf then
                    0x1ca
                  else
                    0x57a
          else
            if b < 0xb8 then
              if b < 0xb4 then
                if b < 0xb2 then
                  if b < 0xb1 then
                    0x5ba
                  else
                    0x23a
                else
                  if b < 0xb3 then
                    0x13a
                  else
                    0x32a
              else
                if b < 0xb6 then
                  if b < 0xb5 then
                    0x0ba
                  else
                    0x2aa
                else
                  if b < 0xb7 then
                    0x1aa
                  else
                    0x7aa
            else
              if b < 0xbc then
                if b < 0xba then
                  if b < 0xb9 then
                    0x73a
                  else
                    0x26a
                else
                  if b < 0xbb then
                    0x16a
                  else
                    0x76a
              else
                if b < 0xbe then
                  if b < 0xbd then
                    0x0ea
                  else
                    0x6ea
                else
                  if b < 0xbf then
                    0x5ea
                  else
                    0x6ba
      else
        if b < 0xe0 then
          if b < 0xd0 then
            if b < 0xc8 then
              if b < 0xc4 then
                if b < 0xc2 then
                  if b < 0xc1 then
                    0x676
                  else
                    0x5d6
                else
                  if b < 0xc3 then
                    0x6d6
                  else
                    0x316
              else
                if b < 0xc6 then
                  if b < 0xc5 then
                    0x756
                  else
                    0x296
                else
                  if b < 0xc7 then
                    0x196
                  else
                    0x386
            else
              if b < 0xcc then
                if b < 0xca then
                  if b < 0xc9 then
                    0x796
                  else
                    0x256
                else
                  if b < 0xcb then
                    0x156
                  else
                    0x346
              else
                if b < 0xce then
                  if b < 0xcd then
                    0x0d6
                  else
                    0x2c6
                else
                  if b < 0xcf then
                    0x1c6
                  else
                    0x576
          else
            if b < 0xd8 then
              if b < 0xd4 then
                if b < 0xd2 then
                  if b < 0xd1 then
                    0x5b6
                  else
                    0x236
                else
                  if b < 0xd3 then
                    0x136
                  else
                    0x326
              else
                if b < 0xd6 then
                  if b < 0xd5 then
                    0x0b6
                  else
                    0x2a6
                else
                  if b < 0xd7 then
                    0x1a6
                  else
                    0x7a6
            else
              if b < 0xdc then
                if b < 0xda then
                  if b < 0xd9 then
                    0x736
                  else
                    0x266
                else
                  if b < 0xdb then
                    0x166
                  else
                    0x766
              else
                if b < 0xde then
                  if b < 0xdd then
                    0x0e6
                  else
                    0x6e6
                else
                  if b < 0xdf then
                    0x5e6
                  else
                    0x6b6
        else
          if b < 0xf0 then
            if b < 0xe8 then
              if b < 0xe4 then
                if b < 0xe2 then
                  if b < 0xe1 then
                    0x271
                  else
                    0x1d1
                else
                  if b < 0xe3 then
                    0x2d1
                  else
                    0x71e
              else
                if b < 0xe6 then
                  if b < 0xe5 then
                    0x351
                  else
                    0x69e
                else
                  if b < 0xe7 then
                    0x59e
                  else
                    0x78e
            else
              if b < 0xec then
                if b < 0xea then
                  if b < 0xe9 then
                    0x391
                  else
                    0x65e
                else
                  if b < 0xeb then
                    0x55e
                  else
                    0x74e
              else
                if b < 0xee then
                  if b < 0xed then
                    0x4de
                  else
                    0x6ce
                else
                  if b < 0xef then
                    0x5ce
                  else
                    0x171
          else
            if b < 0xf8 then
              if b < 0xf4 then
                if b < 0xf2 then
                  if b < 0xf1 then
                    0x1b1
                  else
                    0x637
                else
                  if b < 0xf3 then
                    0x537
                  else
                    0x72e
              else
                if b < 0xf6 then
                  if b < 0xf5 then
                    0x4b7
                  else
                    0x6ae
                else
                  if b < 0xf7 then
                    0x5ae
                  else
                    0x3a1
            else
              if b < 0xfc then
                if b < 0xfa then
                  if b < 0xf9 then
                    0x331
                  else
                    0x66e
                else
                  if b < 0xfb then
                    0x56e
                  else
                    0x361
              else
                if b < 0xfe then
                  if b < 0xfd then
                    0x4ee
                  else
                    0x2e1
                else
                  if b < 0xff then
                    0x1e1
                  else
                    0x2b1
  }

  /** Row 1 of `Encode_8b10b` as a bit-vector. */
  function BitsPlus(b: int): (e: bv16)
    requires 0 <= b < 256
  {
    if b < 0x80 then
      if b < 0x40 then
        if b < 0x20 then
          if b < 0x10 then
            if b < 0x08 then
              if b < 0x04 then
                if b < 0x02 then
                  if b < 0x01 then
                    0x58b
                  else
                    0x62b
                else
                  if b < 0x03 then
                    0x52b
                  else
                    0x314
              else
                if b < 0x06 then
                  if b < 0x05 then
                    0x4ab
                  else
                    0x294
                else
                  if b < 0x07 then
                    0x194
                  else
                    0x074
            else
              if b < 0x0c then
                if b < 0x0a then
                  if b < 0x09 then
                    0x46b
                  else
                    0x254
                else
                  if b < 0x0b then
                    0x154
                  else
                    0x344
              else
                if b < 0x0e then
                  if b < 0x0d then
                    0x0d4
                  else
                    0x2c4
                else
                  if b < 0x0f then
                    0x1c4
                  else
                    0x68b
          else
            if b < 0x18 then
              if b < 0x14 then
                if b < 0x12 then
                  if b < 0x11 then
                    0x64b
                  else
                    0x234
                else
                  if b < 0x13 then
                    0x134
                  else
                    0x324
              else
                if b < 0x16 then
                  if b < 0x15 then
                    0x0b4
                  else
                    0x2a4
                else
                  if b < 0x17 then
                    0x1a4
                  else
                    0x45b
            else
              if b < 0x1c then
                if b < 0x1a then
                  if b < 0x19 then
                    0x4cb
                  else
                    0x264
                else
                  if b < 0x1b then
                    0x164
                  else
                    0x49b
              else
                if b < 0x1e then
                  if b < 0x1d then
                    0x0e4
                  else
                    0x51b
                else
                  if b < 0x1f then
                    0x61b
                  else
                    0x54b
        else
          if b < 0x30 then
            if b < 0x28 then
              if b < 0x24 then
                if b < 0x22 then
                  if b < 0x21 then
                    0x189
                  else
                    0x229
                else
                  if b < 0x23 then
                    0x129
                  else
                    0x719
              else
                if b < 0x26 then
                  if b < 0x25 then
                    0x0a9
                  else
                    0x699
                else
                  if b < 0x27 then
                    0x599
                  else
                    0x479
            else
              if b < 0x2c then
                if b < 0x2a then
                  if b < 0x29 then
                    0x069
                  else
                    0x659
                else
                  if b < 0x2b then
                    0x559
                  else
                    0x749
              else
                if b < 0x2e then
                  if b < 0x2d then
                    0x4d9
                  else
                    0x6c9
                else
                  if b < 0x2f then
                    0x5c9
                  else
                    0x289
          else
            if b < 0x38 then
              if b < 0x34 then
                if b < 0x32 then
                  if b < 0x31 then
                    0x249
                  else
                    0x639
                else
                  if b < 0x33 then
                    0x539
                  else
                    0x729
              else
                if b < 0x36 then
                  if b < 0x35 then
                    0x4b9
                  else
                    0x6a9
                else
                  if b < 0x37 then
                    0x5a9
                  else
                    0x059
            else
              if b < 0x3c then
                if b < 0x3a then
                  if b < 0x39 then
                    0x0c9
                  else
                    0x669
                else
                  if b < 0x3b then
                    0x569
                  else
                    0x099
              else
                if b < 0x3e then
                  if b < 0x3d then
                    0x4e9
                  else
                    0x119
                else
                  if b < 0x3f then
                    0x219
                  else
                    0x149
      else
        if b < 0x60 then
          if b < 0x50 then
            if b < 0x48 then
              if b < 0x44 then
                if b < 0x42 then
                  if b < 0x41 then
                    0x185
                  else
                    0x225
                else
                  if b < 0x43 then
                    0x125
                  else
                    0x715
              else
                if b < 0x46 then
                  if b < 0x45 then
                    0x0a5
                  else
                    0x695
                else
                  if b < 0x47 then
                    0x595
                  else
                    0x475
            else
              if b < 0x4c then
                if b < 0x4a then
                  if b < 0x49 then
                    0x065
                  else
                    0x655
                else
                  if b < 0x4b then
                    0x555
                  else
                    0x745
              else
                if b < 0x4e then
                  if b < 0x4d then
                    0x4d5
                  else
                    0x6c5
                else
                  if b < 0x4f then
                    0x5c5
                  else
                    0x285
          else
            if b < 0x58 then
              if b < 0x54 then
                if b < 0x52 then
                  if b < 0x51 then
                    0x245
                  else
                    0x635
                else
                  if b < 0x53 then
                    0x535
                  else
                    0x725
              else
                if b < 0x56 then
                  if b < 0x55 then
                    0x4b5
                  else
                    0x6a5
                else
                  if b < 0x57 then
                    0x5a5
                  else
                    0x055
            else
              if b < 0x5c then
                if b < 0x5a then
                  if b < 0x59 then
                    0x0c5
                  else
                    0x665
                else
                  if b < 0x5b then
                    0x565
                  else
                    0x095
              else
                if b < 0x5e then
                  if b < 0x5d then
                    0x4e5
                  else
                    0x115
                else
                  if b < 0x5f then
                    0x215
                  else
                    0x145
        else
          if b < 0x70 then
            if b < 0x68 then
              if b < 0x64 then
                if b < 0x62 then
                  if b < 0x61 then
                    0x18c
                  else
                    0x22c
                else
                  if b < 0x63 then
                    0x12c
                  else
                    0x713
              else
                if b < 0x66 then
                  if b < 0x65 then
                    0x0ac
                  else
                    0x693
                else
                  if b < 0x67 then
                    0x593
                  else
                    0x473
            else
              if b < 0x6c then
                if b < 0x6a then
                  if b < 0x69 then
                    0x06c
                  else
                    0x653
                else
                  if b < 0x6b then
                    0x553
                  else
                    0x743
              else
                if b < 0x6e then
                  if b < 0x6d then
                    0x4d3
                  else
                    0x6c3
                else
                  if b < 0x6f then
                    0x5c3
                  else
                    0x28c
          else
            if b < 0x78 then
              if b < 0x74 then
                if b < 0x72 then
                  if b < 0x71 then
                    0x24c
                  else
                    0x633
                else
                  if b < 0x73 then
                    0x533
                  else
                    0x723
              else
                if b < 0x76 then
                  if b < 0x75 then
                    0x4b3
                  else
                    0x6a3
                else
                  if b < 0x77 then
                    0x5a3
                  else
                    0x05c
            else
              if b < 0x7c then
                if b < 0x7a then
                  if b < 0x79 then
                    0x0cc
                  else
                    0x663
                else
                  if b < 0x7b then
                    0x563
                  else
                    0x09c
              else
                if b < 0x7e then
                  if b < 0x7d then
                    0x4e3
                  else
                    0x11c
                else
                  if b < 0x7f then
                    0x21c
                  else
                    0x14c
    else
      if b < 0xc0 then
        if b < 0xa0 then
          if b < 0x90 then
            if b < 0x88 then
              if b < 0x84 then
                if b < 0x82 then
                  if b < 0x81 then
                    0x58d
                  else
                    0x62d
                else
                  if b < 0x83 then
                    0x52d
                  else
                    0x312
              else
                if b < 0x86 then
                  if b < 0x85 then
                    0x4ad
                  else
                    0x292
                else
                  if b < 0x87 then
                    0x192
                  else
                    0x072
            else
              if b < 0x8c then
                if b < 0x8a then
                  if b < 0x89 then
                    0x46d
                  else
                    0x252
                else
                  if b < 0x8b then
                    0x152
                  else
                    0x342
              else
                if b < 0x8e then
                  if b < 0x8d then
                    0x0d2
                  else
                    0x2c2
                else
                  if b < 0x8f then
                    0x1c2
                  else
                    0x68d
          else
            if b < 0x98 then
              if b < 0x94 then
                if b < 0x92 then
                  if b < 0x91 then
                    0x64d
                  else
                    0x232
                else
                  if b < 0x93 then
                    0x132
                  else
                    0x322
              else
                if b < 0x96 then
                  if b < 0x95 then
                    0x0b2
                  else
                    0x2a2
                else
                  if b < 0x97 then
                    0x1a2
                  else
                    0x45d
            else
              if b < 0x9c then
                if b < 0x9a then
                  if b < 0x99 then
                    0x4cd
                  else
                    0x262
                else
                  if b < 0x9b then
                    0x162
                  else
                    0x49d
              else
                if b < 0x9e then
                  if b < 0x9d then
                    0x0e2
                  else
                    0x51d
                else
                  if b < 0x9f then
                    0x61d
                  else
                    0x54d
        else
          if b < 0xb0 then
            if b < 0xa8 then
              if b < 0xa4 then
                if b < 0xa2 then
                  if b < 0xa1 then
                    0x18a
                  else
                    0x22a
                else
                  if b < 0xa3 then
                    0x12a
                  else
                    0x71a
              else
                if b < 0xa6 then
                  if b < 0xa5 then
                    0x0aa
                  else
                    0x69a
                else
                  if b < 0xa7 then
                    0x59a
                  else
                    0x47a
            else
              if b < 0xac then
                if b < 0xaa then
                  if b < 0xa9 then
                    0x06a
                  else
                    0x65a
                else
                  if b < 0xab then
                    0x55a
                  else
                    0x74a
              else
                if b < 0xae then
                  if b < 0xad then
                    0x4da
                  else
                    0x6ca
                else
                  if b < 0xaf then
                    0x5ca
                  else
                    0x28a
          else
            if b < 0xb8 then
              if b < 0xb4 then
                if b < 0xb2 then
                  if b < 0xb1 then
                    0x24a
                  else
                    0x63a
                else
                  if b < 0xb3 then
                    0x53a
                  else
                    0x72a
              else
                if b < 0xb6 then
                  if b < 0xb5 then
                    0x4ba
                  else
                    0x6aa
                else
                  if b < 0xb7 then
                    0x5aa
                  else
                    0x05a
            else
              if b < 0xbc then
                if b < 0xba then
                  if b < 0xb9 then
                    0x0ca
                  else
                    0x66a
                else
                  if b < 0xbb then
                    0x56a
                  else
                    0x09a
              else
                if b < 0xbe then
                  if b < 0xbd then
                    0x4ea
                  else
                    0x11a
                else
                  if b < 0xbf then
                    0x21a
                  else
                    0x14a
      else
        if b < 0xe0 then
          if b < 0xd0 then
            if b < 0xc8 then
              if b < 0xc4 then
                if b < 0xc2 then
                  if b < 0xc1 then
                    0x186
                  else
                    0x226
                else
                  if b < 0xc3 then
                    0x126
                  else
                    0x716
              else
                if b < 0xc6 then
                  if b < 0xc5 then
                    0x0a6
                  else
                    0x696
                else
                  if b < 0xc7 then
                    0x596
                  else
                    0x476
            else
              if b < 0xcc then
                if b < 0xca then
                  if b < 0xc9 then
                    0x066
                  else
                    0x656
                else
                  if b < 0xcb then
                    0x556
                  else
                    0x746
              else
                if b < 0xce then
                  if b < 0xcd then
                    0x4d6
                  else
                    0x6c6
                else
                  if b < 0xcf then
                    0x5c6
                  else
                    0x286
          else
            if b < 0xd8 then
              if b < 0xd4 then
                if b < 0xd2 then
                  if b < 0xd1 then
                    0x246
                  else
                    0x636
                else
                  if b < 0xd3 then
                    0x536
                  else
                    0x726
              else
                if b < 0xd6 then
                  if b < 0xd5 then
                    0x4b6
                  else
                    0x6a6
                else
                  if b < 0xd7 then
                    0x5a6
                  else
                    0x056
            else
              if b < 0xdc then
                if b < 0xda then
                  if b < 0xd9 then
                    0x0c6
                  else
                    0x666
                else
                  if b < 0xdb then
                    0x566
                  else
                    0x096
              else
                if b < 0xde then
                  if b < 0xdd then
                    0x4e6
                  else
                    0x116
                else
                  if b < 0xdf then
                    0x216
                  else
                    0x146
        else
          if b < 0xf0 then
            if b < 0xe8 then
              if b < 0xe4 then
                if b < 0xe2 then
                  if b < 0xe1 then
                    0x58e
                  else
                    0x62e
                else
                  if b < 0xe3 then
                    0x52e
                  else
                    0x311
              else
                if b < 0xe6 then
                  if b < 0xe5 then
                    0x4ae
                  else
                    0x291
                else
                  if b < 0xe7 then
                    0x191
                  else
                    0x071
            else
              if b < 0xec then
                if b < 0xea then
                  if b < 0xe9 then
                    0x46e
                  else
                    0x251
                else
                  if b < 0xeb then
                    0x151
                  else
                    0x348
              else
                if b < 0xee then
                  if b < 0xed then
                    0x0d1
                  else
                    0x2c8
                else
                  if b < 0xef then
                    0x1c8
                  else
                    0x68e
          else
            if b < 0xf8 then
              if b < 0xf4 then
                if b < 0xf2 then
                  if b < 0xf1 then
                    0x64e
                  else
                    0x231
                else
                  if b < 0xf3 then
                    0x131
                  else
                    0x321
              else
                if b < 0xf6 then
                  if b < 0xf5 then
                    0x0b1
                  else
                    0x2a1
                else
                  if b < 0xf7 then
                    0x1a1
                  else
                    0x45e
            else
              if b < 0xfc then
                if b < 0xfa then
                  if b < 0xf9 then
                    0x4ce
                  else
                    0x261
                else
                  if b < 0xfb then
                    0x161
                  else
                    0x49e
              else
                if b < 0xfe then
                  if b < 0xfd then
                    0x0e1
                  else
                    0x51e
                else
                  if b < 0xff then
                    0x61e
                  else
                    0x54e
  }

  lemma BitsMinusAgree00()
    ensures forall b :: 0x00 <= b < 0x40 ==> BitsMinus(b) as int == RdMinus(b)
  {
  }
  lemma BitsMinusAgree40()
    ensures forall b :: 0x40 <= b < 0x80 ==> BitsMinus(b) as int == RdMinus(b)
  {
  }
  lemma BitsMinusAgree80()
    ensures forall b :: 0x80 <= b < 0xc0 ==> BitsMinus(b) as int == RdMinus(b)
  {
  }
  lemma BitsMinusAgreeC0()
    ensures forall b :: 0xc0 <= b < 0x100 ==> BitsMinus(b) as int == RdMinus(b)
  {
  }
  lemma BitsPlusAgree00()
    ensures forall b :: 0x00 <= b < 0x40 ==> BitsPlus(b) as int == RdPlus(b)
  {
  }
  lemma BitsPlusAgree40()
    ensures forall b :: 0x40 <= b < 0x80 ==> BitsPlus(b) as int == RdPlus(b)
  {
  }
  lemma BitsPlusAgree80()
    ensures forall b :: 0x80 <= b < 0xc0 ==> BitsPlus(b) as int == RdPlus(b)
  {
  }
  lemma BitsPlusAgreeC0()
    ensures forall b :: 0xc0 <= b < 0x100 ==> BitsPlus(b) as int == RdPlus(b)
  {
  }

  lemma BitsMinusBalance00()
    ensures forall b :: 0x00 <= b < 0x40 ==> Ones10Bits(BitsMinus(b) & 0x3ff) == 5 + (BitsMinus(b) >> 10) as int - 0
  {
  }
  lemma BitsMinusBalance40()
    ensures forall b :: 0x40 <= b < 0x80 ==> Ones10Bits(BitsMinus(b) & 0x3ff) == 5 + (BitsMinus(b) >> 10) as int - 0
  {
  }
  lemma BitsMinusBalance80()
    ensures forall b :: 0x80 <= b < 0xc0 ==> Ones10Bits(BitsMinus(b) & 0x3ff) == 5 + (BitsMinus(b) >> 10) as int - 0
  {
  }
  lemma BitsMinusBalanceC0()
    ensures forall b :: 0xc0 <= b < 0x100 ==> Ones10Bits(BitsMinus(b) & 0x3ff) == 5 + (BitsMinus(b) >> 10) as int - 0
  {
  }
  lemma BitsPlusBalance00()
    ensures forall b :: 0x00 <= b < 0x40 ==> Ones10Bits(BitsPlus(b) & 0x3ff) == 5 + (BitsPlus(b) >> 10) as int - 1
  {
  }
  lemma BitsPlusBalance40()
    ensures forall b :: 0x40 <= b < 0x80 ==> Ones10Bits(BitsPlus(b) & 0x3ff) == 5 + (BitsPlus(b) >> 10) as int - 1
  {
  }
  lemma BitsPlusBalance80()
    ensures forall b :: 0x80 <= b < 0xc0 ==> Ones10Bits(BitsPlus(b) & 0x3ff) == 5 + (BitsPlus(b) >> 10) as int - 1
  {
  }
  lemma BitsPlusBalanceC0()
    ensures forall b :: 0xc0 <= b < 0x100 ==> Ones10Bits(BitsPlus(b) & 0x3ff) == 5 + (BitsPlus(b) >> 10) as int - 1
  {
  }

  /** The bit-vector rows hold the same entries as the integer rows. */
  lemma BitsMinusAgree(b: int)
    requires 0 <= b < 256
    ensures BitsMinus(b) as int == RdMinus(b)
  {
    if b < 0x40 {
      BitsMinusAgree00();
    } else if b < 0x80 {
      BitsMinusAgree40();
    } else if b < 0xc0 {
      BitsMinusAgree80();
    } else {
      BitsMinusAgreeC0();
    }
  }

  /** The bit-vector rows hold the same entries as the integer rows. */
  lemma BitsPlusAgree(b: int)
    requires 0 <= b < 256
    ensures BitsPlus(b) as int == RdPlus(b)
  {
    if b < 0x40 {
      BitsPlusAgree00();
    } else if b < 0x80 {
      BitsPlusAgree40();
    } else if b < 0xc0 {
      BitsPlusAgree80();
    } else {
      BitsPlusAgreeC0();
    }
  }

  /** The count of 1-bits and the RD bit of an entry, read from its bit-vector form. */
  lemma BitsFields(x: bv16)
    requires x as int < 0x800
    ensures Ones10(Word(x as int)) == Ones10Bits(x & 0x3ff)
    ensures NextRd(x as int) == (x >> 10) as int
  {
    WordOfBits(x);
    BitsRoundTrip(x & 0x3ff);
  }

  lemma WordOfBits(x: bv16)
    requires x as int < 0x800
    ensures Word(x as int) == (x & 0x3ff) as int
  {
  }

  lemma BitsRoundTrip(y: bv16)
    ensures (y as int) as bv16 == y
  {
  }

  lemma RowDisparityMinus(b: int)
    requires 0 <= b < 256
    ensures Ones10(Word(RdMinus(b))) == 5 + NextRd(RdMinus(b))
  {
    BitsMinusAgree(b);
    BitsFields(BitsMinus(b));
    if b < 0x40 {
      BitsMinusBalance00();
    } else if b < 0x80 {
      BitsMinusBalance40();
    } else if b < 0xc0 {
      BitsMinusBalance80();
    } else {
      BitsMinusBalanceC0();
    }
  }

  lemma RowDisparityPlus(b: int)
    requires 0 <= b < 256
    ensures Ones10(Word(RdPlus(b))) == 4 + NextRd(RdPlus(b))
  {
    BitsPlusAgree(b);
    BitsFields(BitsPlus(b));
    if b < 0x40 {
      BitsPlusBalance00();
    } else if b < 0x80 {
      BitsPlusBalance40();
    } else if b < 0xc0 {
      BitsPlusBalance80();
    } else {
      BitsPlusBalanceC0();
    }
  }

  /**
   * The DC-balance rule of the code, entry by entry: a word sent at RD = -1
   * has five 1-bits and keeps RD = -1, or six and turns RD to +1; a word sent
   * at RD = +1 has five 1-bits and keeps RD = +1, or four and turns RD to -1.
   * Equivalently, the word's disparity is twice the change of RD.
   */
  lemma EntryDisparity(rd: int, b: int)
    requires 0 <= rd < 2 && 0 <= b < 256
    ensures Ones10(Word(Encode8b10b(rd, b))) == 5 + NextRd(Encode8b10b(rd, b)) - rd
    ensures Disparity(Word(Encode8b10b(rd, b))) == 2 * (NextRd(Encode8b10b(rd, b)) - rd)
  {
    if rd == 0 {
      RowDisparityMinus(b);
    } else {
      RowDisparityPlus(b);
    }
  }
}
