/**
 * An index from 10-bit channel words back to the byte they encode. It is a
 * reference definition, independent of the linear searches in decoder.c, that
 * the lookups are proved against: `WordIndex(w)` is the byte whose table
 * entry, in either row, has w as its channel word, or -1 when no entry does.
 */
module CodeIndex8b10b {
  import opened Table8b10b

  /** The byte encoded by channel word w, or -1. */
  function WordIndex(w: int): (i: int)
    ensures -1 <= i < 256
  {
    if w < 0x215 then
      if w < 0x13c then WordIndexQ0(w) else WordIndexQ1(w)
    else
      if w < 0x2c4 then WordIndexQ2(w) else WordIndexQ3(w)
  }

  function WordIndexQ0(w: int): (i: int)
    ensures -1 <= i < 256
  {
    if w < 0x0ca then
      if w < 0x09a then
        if w < 0x06c then
          if w < 0x05d then
            if w < 0x05a then
              if w < 0x056 then
                if w == 0x055 then 0x57 else -1
              else
                if w < 0x059 then
                  if w == 0x056 then 0xd7 else -1
                else
                  if w == 0x059 then 0x37 else -1
            else
              if w < 0x05b then
                if w == 0x05a then 0xb7 else -1
              else
                if w < 0x05c then
                  if w == 0x05b then 0x17 else -1
                else
                  if w == 0x05c then 0x77 else -1
          else
            if w < 0x066 then
              if w < 0x05e then
                if w == 0x05d then 0x97 else -1
              else
                if w < 0x065 then
                  if w == 0x05e then 0xf7 else -1
                else
                  if w == 0x065 then 0x48 else -1
            else
              if w < 0x06a then
                if w < 0x069 then
                  if w == 0x066 then 0xc8 else -1
                else
                  if w == 0x069 then 0x28 else -1
              else
                if w < 0x06b then
                  if w == 0x06a then 0xa8 else -1
                else
                  if w == 0x06b then 0x08 else -1
        else
          if w < 0x075 then
            if w < 0x071 then
              if w < 0x06d then
                if w == 0x06c then 0x68 else -1
              else
                if w < 0x06e then
                  if w == 0x06d then 0x88 else -1
                else
                  if w == 0x06e then 0xe8 else -1
            else
              if w < 0x073 then
                if w < 0x072 then
                  if w == 0x071 then 0xe7 else -1
                else
                  if w == 0x072 then 0x87 else -1
              else
                if w < 0x074 then
                  if w == 0x073 then 0x67 else -1
                else
                  if w == 0x074 then 0x07 else -1
          else
            if w < 0x07a then
              if w < 0x076 then
                if w == 0x075 then 0x47 else -1
              else
                if w < 0x079 then
                  if w == 0x076 then 0xc7 else -1
                else
                  if w == 0x079 then 0x27 else -1
            else
              if w < 0x096 then
                if w < 0x095 then
                  if w == 0x07a then 0xa7 else -1
                else
                  if w == 0x095 then 0x5b else -1
              else
                if w < 0x099 then
                  if w == 0x096 then 0xdb else -1
                else
                  if w == 0x099 then 0x3b else -1
      else
        if w < 0x0b2 then
          if w < 0x0a9 then
            if w < 0x09d then
              if w < 0x09b then
                if w == 0x09a then 0xbb else -1
              else
                if w < 0x09c then
                  if w == 0x09b then 0x1b else -1
                else
                  if w == 0x09c then 0x7b else -1
            else
              if w < 0x0a5 then
                if w < 0x09e then
                  if w == 0x09d then 0x9b else -1
                else
                  if w == 0x09e then 0xfb else -1
              else
                if w < 0x0a6 then
                  if w == 0x0a5 then 0x44 else -1
                else
                  if w == 0x0a6 then 0xc4 else -1
          else
            if w < 0x0ac then
              if w < 0x0aa then
                if w == 0x0a9 then 0x24 else -1
              else
                if w < 0x0ab then
                  if w == 0x0aa then 0xa4 else -1
                else
                  if w == 0x0ab then 0x04 else -1
            else
              if w < 0x0ae then
                if w < 0x0ad then
                  if w == 0x0ac then 0x64 else -1
                else
                  if w == 0x0ad then 0x84 else -1
              else
                if w < 0x0b1 then
                  if w == 0x0ae then 0xe4 else -1
                else
                  if w == 0x0b1 then 0xf4 else -1
        else
          if w < 0x0ba then
            if w < 0x0b5 then
              if w < 0x0b3 then
                if w == 0x0b2 then 0x94 else -1
              else
                if w < 0x0b4 then
                  if w == 0x0b3 then 0x74 else -1
                else
                  if w == 0x0b4 then 0x14 else -1
            else
              if w < 0x0b7 then
                if w < 0x0b6 then
                  if w == 0x0b5 then 0x54 else -1
                else
                  if w == 0x0b6 then 0xd4 else -1
              else
                if w < 0x0b9 then
                  if w == 0x0b7 then 0xf4 else -1
                else
                  if w == 0x0b9 then 0x34 else -1
          else
            if w < 0x0bd then
              if w < 0x0bb then
                if w == 0x0ba then 0xb4 else -1
              else
                if w < 0x0bc then
                  if w == 0x0bb then 0x14 else -1
                else
                  if w == 0x0bc then 0x74 else -1
            else
              if w < 0x0c6 then
                if w < 0x0c5 then
                  if w == 0x0bd then 0x94 else -1
                else
                  if w == 0x0c5 then 0x58 else -1
              else
                if w < 0x0c9 then
                  if w == 0x0c6 then 0xd8 else -1
                else
                  if w == 0x0c9 then 0x38 else -1
    else
      if w < 0x0ed then
        if w < 0x0db then
          if w < 0x0d2 then
            if w < 0x0cd then
              if w < 0x0cb then
                if w == 0x0ca then 0xb8 else -1
              else
                if w < 0x0cc then
                  if w == 0x0cb then 0x18 else -1
                else
                  if w == 0x0cc then 0x78 else -1
            else
              if w < 0x0ce then
                if w == 0x0cd then 0x98 else -1
              else
                if w < 0x0d1 then
                  if w == 0x0ce then 0xf8 else -1
                else
                  if w == 0x0d1 then 0xec else -1
          else
            if w < 0x0d5 then
              if w < 0x0d3 then
                if w == 0x0d2 then 0x8c else -1
              else
                if w < 0x0d4 then
                  if w == 0x0d3 then 0x6c else -1
                else
                  if w == 0x0d4 then 0x0c else -1
            else
              if w < 0x0d9 then
                if w < 0x0d6 then
                  if w == 0x0d5 then 0x4c else -1
                else
                  if w == 0x0d6 then 0xcc else -1
              else
                if w < 0x0da then
                  if w == 0x0d9 then 0x2c else -1
                else
                  if w == 0x0da then 0xac else -1
        else
          if w < 0x0e4 then
            if w < 0x0de then
              if w < 0x0dc then
                if w == 0x0db then 0x0c else -1
              else
                if w < 0x0dd then
                  if w == 0x0dc then 0x6c else -1
                else
                  if w == 0x0dd then 0x8c else -1
            else
              if w < 0x0e2 then
                if w < 0x0e1 then
                  if w == 0x0de then 0xec else -1
                else
                  if w == 0x0e1 then 0xfc else -1
              else
                if w < 0x0e3 then
                  if w == 0x0e2 then 0x9c else -1
                else
                  if w == 0x0e3 then 0x7c else -1
          else
            if w < 0x0e9 then
              if w < 0x0e5 then
                if w == 0x0e4 then 0x1c else -1
              else
                if w < 0x0e6 then
                  if w == 0x0e5 then 0x5c else -1
                else
                  if w == 0x0e6 then 0xdc else -1
            else
              if w < 0x0eb then
                if w < 0x0ea then
                  if w == 0x0e9 then 0x3c else -1
                else
                  if w == 0x0ea then 0xbc else -1
              else
                if w < 0x0ec then
                  if w == 0x0eb then 0x1c else -1
                else
                  if w == 0x0ec then 0x7c else -1
      else
        if w < 0x12b then
          if w < 0x11c then
            if w < 0x116 then
              if w < 0x0ee then
                if w == 0x0ed then 0x9c else -1
              else
                if w < 0x115 then
                  if w == 0x0ee then 0xfc else -1
                else
                  if w == 0x115 then 0x5d else -1
            else
              if w < 0x11a then
                if w < 0x119 then
                  if w == 0x116 then 0xdd else -1
                else
                  if w == 0x119 then 0x3d else -1
              else
                if w < 0x11b then
                  if w == 0x11a then 0xbd else -1
                else
                  if w == 0x11b then 0x1d else -1
          else
            if w < 0x125 then
              if w < 0x11d then
                if w == 0x11c then 0x7d else -1
              else
                if w < 0x11e then
                  if w == 0x11d then 0x9d else -1
                else
                  if w == 0x11e then 0xfd else -1
            else
              if w < 0x129 then
                if w < 0x126 then
                  if w == 0x125 then 0x42 else -1
                else
                  if w == 0x126 then 0xc2 else -1
              else
                if w < 0x12a then
                  if w == 0x129 then 0x22 else -1
                else
                  if w == 0x12a then 0xa2 else -1
        else
          if w < 0x134 then
            if w < 0x12e then
              if w < 0x12c then
                if w == 0x12b then 0x02 else -1
              else
                if w < 0x12d then
                  if w == 0x12c then 0x62 else -1
                else
                  if w == 0x12d then 0x82 else -1
            else
              if w < 0x132 then
                if w < 0x131 then
                  if w == 0x12e then 0xe2 else -1
                else
                  if w == 0x131 then 0xf2 else -1
              else
                if w < 0x133 then
                  if w == 0x132 then 0x92 else -1
                else
                  if w == 0x133 then 0x72 else -1
          else
            if w < 0x137 then
              if w < 0x135 then
                if w == 0x134 then 0x12 else -1
              else
                if w < 0x136 then
                  if w == 0x135 then 0x52 else -1
                else
                  if w == 0x136 then 0xd2 else -1
            else
              if w < 0x13a then
                if w < 0x139 then
                  if w == 0x137 then 0xf2 else -1
                else
                  if w == 0x139 then 0x32 else -1
              else
                if w < 0x13b then
                  if w == 0x13a then 0xb2 else -1
                else
                  if w == 0x13b then 0x12 else -1
  }

  function WordIndexQ1(w: int): (i: int)
    ensures -1 <= i < 256
  {
    if w < 0x196 then
      if w < 0x166 then
        if w < 0x154 then
          if w < 0x14b then
            if w < 0x146 then
              if w < 0x13d then
                if w == 0x13c then 0x72 else -1
              else
                if w < 0x145 then
                  if w == 0x13d then 0x92 else -1
                else
                  if w == 0x145 then 0x5f else -1
            else
              if w < 0x149 then
                if w == 0x146 then 0xdf else -1
              else
                if w < 0x14a then
                  if w == 0x149 then 0x3f else -1
                else
                  if w == 0x14a then 0xbf else -1
          else
            if w < 0x14e then
              if w < 0x14c then
                if w == 0x14b then 0x1f else -1
              else
                if w < 0x14d then
                  if w == 0x14c then 0x7f else -1
                else
                  if w == 0x14d then 0x9f else -1
            else
              if w < 0x152 then
                if w < 0x151 then
                  if w == 0x14e then 0xff else -1
                else
                  if w == 0x151 then 0xea else -1
              else
                if w < 0x153 then
                  if w == 0x152 then 0x8a else -1
                else
                  if w == 0x153 then 0x6a else -1
        else
          if w < 0x15d then
            if w < 0x159 then
              if w < 0x155 then
                if w == 0x154 then 0x0a else -1
              else
                if w < 0x156 then
                  if w == 0x155 then 0x4a else -1
                else
                  if w == 0x156 then 0xca else -1
            else
              if w < 0x15b then
                if w < 0x15a then
                  if w == 0x159 then 0x2a else -1
                else
                  if w == 0x15a then 0xaa else -1
              else
                if w < 0x15c then
                  if w == 0x15b then 0x0a else -1
                else
                  if w == 0x15c then 0x6a else -1
          else
            if w < 0x162 then
              if w < 0x15e then
                if w == 0x15d then 0x8a else -1
              else
                if w < 0x161 then
                  if w == 0x15e then 0xea else -1
                else
                  if w == 0x161 then 0xfa else -1
            else
              if w < 0x164 then
                if w < 0x163 then
                  if w == 0x162 then 0x9a else -1
                else
                  if w == 0x163 then 0x7a else -1
              else
                if w < 0x165 then
                  if w == 0x164 then 0x1a else -1
                else
                  if w == 0x165 then 0x5a else -1
      else
        if w < 0x17a then
          if w < 0x171 then
            if w < 0x16b then
              if w < 0x169 then
                if w == 0x166 then 0xda else -1
              else
                if w < 0x16a then
                  if w == 0x169 then 0x3a else -1
                else
                  if w == 0x16a then 0xba else -1
            else
              if w < 0x16d then
                if w < 0x16c then
                  if w == 0x16b then 0x1a else -1
                else
                  if w == 0x16c then 0x7a else -1
              else
                if w < 0x16e then
                  if w == 0x16d then 0x9a else -1
                else
                  if w == 0x16e then 0xfa else -1
          else
            if w < 0x174 then
              if w < 0x172 then
                if w == 0x171 then 0xef else -1
              else
                if w < 0x173 then
                  if w == 0x172 then 0x8f else -1
                else
                  if w == 0x173 then 0x6f else -1
            else
              if w < 0x176 then
                if w < 0x175 then
                  if w == 0x174 then 0x0f else -1
                else
                  if w == 0x175 then 0x4f else -1
              else
                if w < 0x179 then
                  if w == 0x176 then 0xcf else -1
                else
                  if w == 0x179 then 0x2f else -1
        else
          if w < 0x18d then
            if w < 0x189 then
              if w < 0x185 then
                if w == 0x17a then 0xaf else -1
              else
                if w < 0x186 then
                  if w == 0x185 then 0x40 else -1
                else
                  if w == 0x186 then 0xc0 else -1
            else
              if w < 0x18b then
                if w < 0x18a then
                  if w == 0x189 then 0x20 else -1
                else
                  if w == 0x18a then 0xa0 else -1
              else
                if w < 0x18c then
                  if w == 0x18b then 0x00 else -1
                else
                  if w == 0x18c then 0x60 else -1
          else
            if w < 0x192 then
              if w < 0x18e then
                if w == 0x18d then 0x80 else -1
              else
                if w < 0x191 then
                  if w == 0x18e then 0xe0 else -1
                else
                  if w == 0x191 then 0xe6 else -1
            else
              if w < 0x194 then
                if w < 0x193 then
                  if w == 0x192 then 0x86 else -1
                else
                  if w == 0x193 then 0x66 else -1
              else
                if w < 0x195 then
                  if w == 0x194 then 0x06 else -1
                else
                  if w == 0x195 then 0x46 else -1
    else
      if w < 0x1c2 then
        if w < 0x1a9 then
          if w < 0x19e then
            if w < 0x19b then
              if w < 0x199 then
                if w == 0x196 then 0xc6 else -1
              else
                if w < 0x19a then
                  if w == 0x199 then 0x26 else -1
                else
                  if w == 0x19a then 0xa6 else -1
            else
              if w < 0x19c then
                if w == 0x19b then 0x06 else -1
              else
                if w < 0x19d then
                  if w == 0x19c then 0x66 else -1
                else
                  if w == 0x19d then 0x86 else -1
          else
            if w < 0x1a3 then
              if w < 0x1a1 then
                if w == 0x19e then 0xe6 else -1
              else
                if w < 0x1a2 then
                  if w == 0x1a1 then 0xf6 else -1
                else
                  if w == 0x1a2 then 0x96 else -1
            else
              if w < 0x1a5 then
                if w < 0x1a4 then
                  if w == 0x1a3 then 0x76 else -1
                else
                  if w == 0x1a4 then 0x16 else -1
              else
                if w < 0x1a6 then
                  if w == 0x1a5 then 0x56 else -1
                else
                  if w == 0x1a6 then 0xd6 else -1
        else
          if w < 0x1b2 then
            if w < 0x1ac then
              if w < 0x1aa then
                if w == 0x1a9 then 0x36 else -1
              else
                if w < 0x1ab then
                  if w == 0x1aa then 0xb6 else -1
                else
                  if w == 0x1ab then 0x16 else -1
            else
              if w < 0x1ae then
                if w < 0x1ad then
                  if w == 0x1ac then 0x76 else -1
                else
                  if w == 0x1ad then 0x96 else -1
              else
                if w < 0x1b1 then
                  if w == 0x1ae then 0xf6 else -1
                else
                  if w == 0x1b1 then 0xf0 else -1
          else
            if w < 0x1b5 then
              if w < 0x1b3 then
                if w == 0x1b2 then 0x90 else -1
              else
                if w < 0x1b4 then
                  if w == 0x1b3 then 0x70 else -1
                else
                  if w == 0x1b4 then 0x10 else -1
            else
              if w < 0x1b9 then
                if w < 0x1b6 then
                  if w == 0x1b5 then 0x50 else -1
                else
                  if w == 0x1b6 then 0xd0 else -1
              else
                if w < 0x1ba then
                  if w == 0x1b9 then 0x30 else -1
                else
                  if w == 0x1ba then 0xb0 else -1
      else
        if w < 0x1d3 then
          if w < 0x1ca then
            if w < 0x1c5 then
              if w < 0x1c3 then
                if w == 0x1c2 then 0x8e else -1
              else
                if w < 0x1c4 then
                  if w == 0x1c3 then 0x6e else -1
                else
                  if w == 0x1c4 then 0x0e else -1
            else
              if w < 0x1c8 then
                if w < 0x1c6 then
                  if w == 0x1c5 then 0x4e else -1
                else
                  if w == 0x1c6 then 0xce else -1
              else
                if w < 0x1c9 then
                  if w == 0x1c8 then 0xee else -1
                else
                  if w == 0x1c9 then 0x2e else -1
          else
            if w < 0x1cd then
              if w < 0x1cb then
                if w == 0x1ca then 0xae else -1
              else
                if w < 0x1cc then
                  if w == 0x1cb then 0x0e else -1
                else
                  if w == 0x1cc then 0x6e else -1
            else
              if w < 0x1d1 then
                if w < 0x1ce then
                  if w == 0x1cd then 0x8e else -1
                else
                  if w == 0x1ce then 0xee else -1
              else
                if w < 0x1d2 then
                  if w == 0x1d1 then 0xe1 else -1
                else
                  if w == 0x1d2 then 0x81 else -1
        else
          if w < 0x1e2 then
            if w < 0x1d6 then
              if w < 0x1d4 then
                if w == 0x1d3 then 0x61 else -1
              else
                if w < 0x1d5 then
                  if w == 0x1d4 then 0x01 else -1
                else
                  if w == 0x1d5 then 0x41 else -1
            else
              if w < 0x1da then
                if w < 0x1d9 then
                  if w == 0x1d6 then 0xc1 else -1
                else
                  if w == 0x1d9 then 0x21 else -1
              else
                if w < 0x1e1 then
                  if w == 0x1da then 0xa1 else -1
                else
                  if w == 0x1e1 then 0xfe else -1
          else
            if w < 0x1e5 then
              if w < 0x1e3 then
                if w == 0x1e2 then 0x9e else -1
              else
                if w < 0x1e4 then
                  if w == 0x1e3 then 0x7e else -1
                else
                  if w == 0x1e4 then 0x1e else -1
            else
              if w < 0x1e9 then
                if w < 0x1e6 then
                  if w == 0x1e5 then 0x5e else -1
                else
                  if w == 0x1e6 then 0xde else -1
              else
                if w < 0x1ea then
                  if w == 0x1e9 then 0x3e else -1
                else
                  if w == 0x1ea then 0xbe else -1
  }

  function WordIndexQ2(w: int): (i: int)
    ensures -1 <= i < 256
  {
    if w < 0x26a then
      if w < 0x23d then
        if w < 0x22c then
          if w < 0x21d then
            if w < 0x21a then
              if w < 0x216 then
                if w == 0x215 then 0x5e else -1
              else
                if w < 0x219 then
                  if w == 0x216 then 0xde else -1
                else
                  if w == 0x219 then 0x3e else -1
            else
              if w < 0x21b then
                if w == 0x21a then 0xbe else -1
              else
                if w < 0x21c then
                  if w == 0x21b then 0x1e else -1
                else
                  if w == 0x21c then 0x7e else -1
          else
            if w < 0x226 then
              if w < 0x21e then
                if w == 0x21d then 0x9e else -1
              else
                if w < 0x225 then
                  if w == 0x21e then 0xfe else -1
                else
                  if w == 0x225 then 0x41 else -1
            else
              if w < 0x22a then
                if w < 0x229 then
                  if w == 0x226 then 0xc1 else -1
                else
                  if w == 0x229 then 0x21 else -1
              else
                if w < 0x22b then
                  if w == 0x22a then 0xa1 else -1
                else
                  if w == 0x22b then 0x01 else -1
        else
          if w < 0x235 then
            if w < 0x231 then
              if w < 0x22d then
                if w == 0x22c then 0x61 else -1
              else
                if w < 0x22e then
                  if w == 0x22d then 0x81 else -1
                else
                  if w == 0x22e then 0xe1 else -1
            else
              if w < 0x233 then
                if w < 0x232 then
                  if w == 0x231 then 0xf1 else -1
                else
                  if w == 0x232 then 0x91 else -1
              else
                if w < 0x234 then
                  if w == 0x233 then 0x71 else -1
                else
                  if w == 0x234 then 0x11 else -1
          else
            if w < 0x239 then
              if w < 0x236 then
                if w == 0x235 then 0x51 else -1
              else
                if w < 0x237 then
                  if w == 0x236 then 0xd1 else -1
                else
                  if w == 0x237 then 0xf1 else -1
            else
              if w < 0x23b then
                if w < 0x23a then
                  if w == 0x239 then 0x31 else -1
                else
                  if w == 0x23a then 0xb1 else -1
              else
                if w < 0x23c then
                  if w == 0x23b then 0x11 else -1
                else
                  if w == 0x23c then 0x71 else -1
      else
        if w < 0x256 then
          if w < 0x24d then
            if w < 0x249 then
              if w < 0x245 then
                if w == 0x23d then 0x91 else -1
              else
                if w < 0x246 then
                  if w == 0x245 then 0x50 else -1
                else
                  if w == 0x246 then 0xd0 else -1
            else
              if w < 0x24b then
                if w < 0x24a then
                  if w == 0x249 then 0x30 else -1
                else
                  if w == 0x24a then 0xb0 else -1
              else
                if w < 0x24c then
                  if w == 0x24b then 0x10 else -1
                else
                  if w == 0x24c then 0x70 else -1
          else
            if w < 0x252 then
              if w < 0x24e then
                if w == 0x24d then 0x90 else -1
              else
                if w < 0x251 then
                  if w == 0x24e then 0xf0 else -1
                else
                  if w == 0x251 then 0xe9 else -1
            else
              if w < 0x254 then
                if w < 0x253 then
                  if w == 0x252 then 0x89 else -1
                else
                  if w == 0x253 then 0x69 else -1
              else
                if w < 0x255 then
                  if w == 0x254 then 0x09 else -1
                else
                  if w == 0x255 then 0x49 else -1
        else
          if w < 0x261 then
            if w < 0x25b then
              if w < 0x259 then
                if w == 0x256 then 0xc9 else -1
              else
                if w < 0x25a then
                  if w == 0x259 then 0x29 else -1
                else
                  if w == 0x25a then 0xa9 else -1
            else
              if w < 0x25d then
                if w < 0x25c then
                  if w == 0x25b then 0x09 else -1
                else
                  if w == 0x25c then 0x69 else -1
              else
                if w < 0x25e then
                  if w == 0x25d then 0x89 else -1
                else
                  if w == 0x25e then 0xe9 else -1
          else
            if w < 0x264 then
              if w < 0x262 then
                if w == 0x261 then 0xf9 else -1
              else
                if w < 0x263 then
                  if w == 0x262 then 0x99 else -1
                else
                  if w == 0x263 then 0x79 else -1
            else
              if w < 0x266 then
                if w < 0x265 then
                  if w == 0x264 then 0x19 else -1
                else
                  if w == 0x265 then 0x59 else -1
              else
                if w < 0x269 then
                  if w == 0x266 then 0xd9 else -1
                else
                  if w == 0x269 then 0x39 else -1
    else
      if w < 0x299 then
        if w < 0x285 then
          if w < 0x272 then
            if w < 0x26d then
              if w < 0x26b then
                if w == 0x26a then 0xb9 else -1
              else
                if w < 0x26c then
                  if w == 0x26b then 0x19 else -1
                else
                  if w == 0x26c then 0x79 else -1
            else
              if w < 0x26e then
                if w == 0x26d then 0x99 else -1
              else
                if w < 0x271 then
                  if w == 0x26e then 0xf9 else -1
                else
                  if w == 0x271 then 0xe0 else -1
          else
            if w < 0x275 then
              if w < 0x273 then
                if w == 0x272 then 0x80 else -1
              else
                if w < 0x274 then
                  if w == 0x273 then 0x60 else -1
                else
                  if w == 0x274 then 0x00 else -1
            else
              if w < 0x279 then
                if w < 0x276 then
                  if w == 0x275 then 0x40 else -1
                else
                  if w == 0x276 then 0xc0 else -1
              else
                if w < 0x27a then
                  if w == 0x279 then 0x20 else -1
                else
                  if w == 0x27a then 0xa0 else -1
        else
          if w < 0x28e then
            if w < 0x28a then
              if w < 0x286 then
                if w == 0x285 then 0x4f else -1
              else
                if w < 0x289 then
                  if w == 0x286 then 0xcf else -1
                else
                  if w == 0x289 then 0x2f else -1
            else
              if w < 0x28c then
                if w < 0x28b then
                  if w == 0x28a then 0xaf else -1
                else
                  if w == 0x28b then 0x0f else -1
              else
                if w < 0x28d then
                  if w == 0x28c then 0x6f else -1
                else
                  if w == 0x28d then 0x8f else -1
          else
            if w < 0x293 then
              if w < 0x291 then
                if w == 0x28e then 0xef else -1
              else
                if w < 0x292 then
                  if w == 0x291 then 0xe5 else -1
                else
                  if w == 0x292 then 0x85 else -1
            else
              if w < 0x295 then
                if w < 0x294 then
                  if w == 0x293 then 0x65 else -1
                else
                  if w == 0x294 then 0x05 else -1
              else
                if w < 0x296 then
                  if w == 0x295 then 0x45 else -1
                else
                  if w == 0x296 then 0xc5 else -1
      else
        if w < 0x2ab then
          if w < 0x2a2 then
            if w < 0x29c then
              if w < 0x29a then
                if w == 0x299 then 0x25 else -1
              else
                if w < 0x29b then
                  if w == 0x29a then 0xa5 else -1
                else
                  if w == 0x29b then 0x05 else -1
            else
              if w < 0x29e then
                if w < 0x29d then
                  if w == 0x29c then 0x65 else -1
                else
                  if w == 0x29d then 0x85 else -1
              else
                if w < 0x2a1 then
                  if w == 0x29e then 0xe5 else -1
                else
                  if w == 0x2a1 then 0xf5 else -1
          else
            if w < 0x2a5 then
              if w < 0x2a3 then
                if w == 0x2a2 then 0x95 else -1
              else
                if w < 0x2a4 then
                  if w == 0x2a3 then 0x75 else -1
                else
                  if w == 0x2a4 then 0x15 else -1
            else
              if w < 0x2a9 then
                if w < 0x2a6 then
                  if w == 0x2a5 then 0x55 else -1
                else
                  if w == 0x2a6 then 0xd5 else -1
              else
                if w < 0x2aa then
                  if w == 0x2a9 then 0x35 else -1
                else
                  if w == 0x2aa then 0xb5 else -1
        else
          if w < 0x2b4 then
            if w < 0x2ae then
              if w < 0x2ac then
                if w == 0x2ab then 0x15 else -1
              else
                if w < 0x2ad then
                  if w == 0x2ac then 0x75 else -1
                else
                  if w == 0x2ad then 0x95 else -1
            else
              if w < 0x2b2 then
                if w < 0x2b1 then
                  if w == 0x2ae then 0xf5 else -1
                else
                  if w == 0x2b1 then 0xff else -1
              else
                if w < 0x2b3 then
                  if w == 0x2b2 then 0x9f else -1
                else
                  if w == 0x2b3 then 0x7f else -1
          else
            if w < 0x2b9 then
              if w < 0x2b5 then
                if w == 0x2b4 then 0x1f else -1
              else
                if w < 0x2b6 then
                  if w == 0x2b5 then 0x5f else -1
                else
                  if w == 0x2b6 then 0xdf else -1
            else
              if w < 0x2c2 then
                if w < 0x2ba then
                  if w == 0x2b9 then 0x3f else -1
                else
                  if w == 0x2ba then 0xbf else -1
              else
                if w < 0x2c3 then
                  if w == 0x2c2 then 0x8d else -1
                else
                  if w == 0x2c3 then 0x6d else -1
  }

  function WordIndexQ3(w: int): (i: int)
    ensures -1 <= i < 256
  {
    if w < 0x336 then
      if w < 0x312 then
        if w < 0x2d4 then
          if w < 0x2cb then
            if w < 0x2c8 then
              if w < 0x2c5 then
                if w == 0x2c4 then 0x0d else -1
              else
                if w < 0x2c6 then
                  if w == 0x2c5 then 0x4d else -1
                else
                  if w == 0x2c6 then 0xcd else -1
            else
              if w < 0x2c9 then
                if w == 0x2c8 then 0xed else -1
              else
                if w < 0x2ca then
                  if w == 0x2c9 then 0x2d else -1
                else
                  if w == 0x2ca then 0xad else -1
          else
            if w < 0x2ce then
              if w < 0x2cc then
                if w == 0x2cb then 0x0d else -1
              else
                if w < 0x2cd then
                  if w == 0x2cc then 0x6d else -1
                else
                  if w == 0x2cd then 0x8d else -1
            else
              if w < 0x2d2 then
                if w < 0x2d1 then
                  if w == 0x2ce then 0xed else -1
                else
                  if w == 0x2d1 then 0xe2 else -1
              else
                if w < 0x2d3 then
                  if w == 0x2d2 then 0x82 else -1
                else
                  if w == 0x2d3 then 0x62 else -1
        else
          if w < 0x2e3 then
            if w < 0x2d9 then
              if w < 0x2d5 then
                if w == 0x2d4 then 0x02 else -1
              else
                if w < 0x2d6 then
                  if w == 0x2d5 then 0x42 else -1
                else
                  if w == 0x2d6 then 0xc2 else -1
            else
              if w < 0x2e1 then
                if w < 0x2da then
                  if w == 0x2d9 then 0x22 else -1
                else
                  if w == 0x2da then 0xa2 else -1
              else
                if w < 0x2e2 then
                  if w == 0x2e1 then 0xfd else -1
                else
                  if w == 0x2e2 then 0x9d else -1
          else
            if w < 0x2e6 then
              if w < 0x2e4 then
                if w == 0x2e3 then 0x7d else -1
              else
                if w < 0x2e5 then
                  if w == 0x2e4 then 0x1d else -1
                else
                  if w == 0x2e5 then 0x5d else -1
            else
              if w < 0x2ea then
                if w < 0x2e9 then
                  if w == 0x2e6 then 0xdd else -1
                else
                  if w == 0x2e9 then 0x3d else -1
              else
                if w < 0x311 then
                  if w == 0x2ea then 0xbd else -1
                else
                  if w == 0x311 then 0xe3 else -1
      else
        if w < 0x324 then
          if w < 0x31b then
            if w < 0x315 then
              if w < 0x313 then
                if w == 0x312 then 0x83 else -1
              else
                if w < 0x314 then
                  if w == 0x313 then 0x63 else -1
                else
                  if w == 0x314 then 0x03 else -1
            else
              if w < 0x319 then
                if w < 0x316 then
                  if w == 0x315 then 0x43 else -1
                else
                  if w == 0x316 then 0xc3 else -1
              else
                if w < 0x31a then
                  if w == 0x319 then 0x23 else -1
                else
                  if w == 0x31a then 0xa3 else -1
          else
            if w < 0x31e then
              if w < 0x31c then
                if w == 0x31b then 0x03 else -1
              else
                if w < 0x31d then
                  if w == 0x31c then 0x63 else -1
                else
                  if w == 0x31d then 0x83 else -1
            else
              if w < 0x322 then
                if w < 0x321 then
                  if w == 0x31e then 0xe3 else -1
                else
                  if w == 0x321 then 0xf3 else -1
              else
                if w < 0x323 then
                  if w == 0x322 then 0x93 else -1
                else
                  if w == 0x323 then 0x73 else -1
        else
          if w < 0x32d then
            if w < 0x329 then
              if w < 0x325 then
                if w == 0x324 then 0x13 else -1
              else
                if w < 0x326 then
                  if w == 0x325 then 0x53 else -1
                else
                  if w == 0x326 then 0xd3 else -1
            else
              if w < 0x32b then
                if w < 0x32a then
                  if w == 0x329 then 0x33 else -1
                else
                  if w == 0x32a then 0xb3 else -1
              else
                if w < 0x32c then
                  if w == 0x32b then 0x13 else -1
                else
                  if w == 0x32c then 0x73 else -1
          else
            if w < 0x332 then
              if w < 0x32e then
                if w == 0x32d then 0x93 else -1
              else
                if w < 0x331 then
                  if w == 0x32e then 0xf3 else -1
                else
                  if w == 0x331 then 0xf8 else -1
            else
              if w < 0x334 then
                if w < 0x333 then
                  if w == 0x332 then 0x98 else -1
                else
                  if w == 0x333 then 0x78 else -1
              else
                if w < 0x335 then
                  if w == 0x334 then 0x18 else -1
                else
                  if w == 0x335 then 0x58 else -1
    else
      if w < 0x365 then
        if w < 0x34d then
          if w < 0x345 then
            if w < 0x342 then
              if w < 0x339 then
                if w == 0x336 then 0xd8 else -1
              else
                if w < 0x33a then
                  if w == 0x339 then 0x38 else -1
                else
                  if w == 0x33a then 0xb8 else -1
            else
              if w < 0x343 then
                if w == 0x342 then 0x8b else -1
              else
                if w < 0x344 then
                  if w == 0x343 then 0x6b else -1
                else
                  if w == 0x344 then 0x0b else -1
          else
            if w < 0x349 then
              if w < 0x346 then
                if w == 0x345 then 0x4b else -1
              else
                if w < 0x348 then
                  if w == 0x346 then 0xcb else -1
                else
                  if w == 0x348 then 0xeb else -1
            else
              if w < 0x34b then
                if w < 0x34a then
                  if w == 0x349 then 0x2b else -1
                else
                  if w == 0x34a then 0xab else -1
              else
                if w < 0x34c then
                  if w == 0x34b then 0x0b else -1
                else
                  if w == 0x34c then 0x6b else -1
        else
          if w < 0x356 then
            if w < 0x352 then
              if w < 0x34e then
                if w == 0x34d then 0x8b else -1
              else
                if w < 0x351 then
                  if w == 0x34e then 0xeb else -1
                else
                  if w == 0x351 then 0xe4 else -1
            else
              if w < 0x354 then
                if w < 0x353 then
                  if w == 0x352 then 0x84 else -1
                else
                  if w == 0x353 then 0x64 else -1
              else
                if w < 0x355 then
                  if w == 0x354 then 0x04 else -1
                else
                  if w == 0x355 then 0x44 else -1
          else
            if w < 0x361 then
              if w < 0x359 then
                if w == 0x356 then 0xc4 else -1
              else
                if w < 0x35a then
                  if w == 0x359 then 0x24 else -1
                else
                  if w == 0x35a then 0xa4 else -1
            else
              if w < 0x363 then
                if w < 0x362 then
                  if w == 0x361 then 0xfb else -1
                else
                  if w == 0x362 then 0x9b else -1
              else
                if w < 0x364 then
                  if w == 0x363 then 0x7b else -1
                else
                  if w == 0x364 then 0x1b else -1
      else
        if w < 0x393 then
          if w < 0x38a then
            if w < 0x36a then
              if w < 0x366 then
                if w == 0x365 then 0x5b else -1
              else
                if w < 0x369 then
                  if w == 0x366 then 0xdb else -1
                else
                  if w == 0x369 then 0x3b else -1
            else
              if w < 0x386 then
                if w < 0x385 then
                  if w == 0x36a then 0xbb else -1
                else
                  if w == 0x385 then 0x47 else -1
              else
                if w < 0x389 then
                  if w == 0x386 then 0xc7 else -1
                else
                  if w == 0x389 then 0x27 else -1
          else
            if w < 0x38d then
              if w < 0x38b then
                if w == 0x38a then 0xa7 else -1
              else
                if w < 0x38c then
                  if w == 0x38b then 0x07 else -1
                else
                  if w == 0x38c then 0x67 else -1
            else
              if w < 0x391 then
                if w < 0x38e then
                  if w == 0x38d then 0x87 else -1
                else
                  if w == 0x38e then 0xe7 else -1
              else
                if w < 0x392 then
                  if w == 0x391 then 0xe8 else -1
                else
                  if w == 0x392 then 0x88 else -1
        else
          if w < 0x3a2 then
            if w < 0x396 then
              if w < 0x394 then
                if w == 0x393 then 0x68 else -1
              else
                if w < 0x395 then
                  if w == 0x394 then 0x08 else -1
                else
                  if w == 0x395 then 0x48 else -1
            else
              if w < 0x39a then
                if w < 0x399 then
                  if w == 0x396 then 0xc8 else -1
                else
                  if w == 0x399 then 0x28 else -1
              else
                if w < 0x3a1 then
                  if w == 0x39a then 0xa8 else -1
                else
                  if w == 0x3a1 then 0xf7 else -1
          else
            if w < 0x3a5 then
              if w < 0x3a3 then
                if w == 0x3a2 then 0x97 else -1
              else
                if w < 0x3a4 then
                  if w == 0x3a3 then 0x77 else -1
                else
                  if w == 0x3a4 then 0x17 else -1
            else
              if w < 0x3a9 then
                if w < 0x3a6 then
                  if w == 0x3a5 then 0x57 else -1
                else
                  if w == 0x3a6 then 0xd7 else -1
              else
                if w < 0x3aa then
                  if w == 0x3a9 then 0x37 else -1
                else
                  if w == 0x3aa then 0xb7 else -1
  }

  lemma IndexOfRow0_00()
    ensures forall i :: 0x00 <= i < 0x40 ==> WordIndex(Word(Encode8b10b(0, i))) == i
  {
  }
  lemma IndexOfRow0_40()
    ensures forall i :: 0x40 <= i < 0x80 ==> WordIndex(Word(Encode8b10b(0, i))) == i
  {
  }
  lemma IndexOfRow0_80()
    ensures forall i :: 0x80 <= i < 0xc0 ==> WordIndex(Word(Encode8b10b(0, i))) == i
  {
  }
  lemma IndexOfRow0_C0()
    ensures forall i :: 0xc0 <= i < 0x100 ==> WordIndex(Word(Encode8b10b(0, i))) == i
  {
  }
  lemma IndexOfRow1_00()
    ensures forall i :: 0x00 <= i < 0x40 ==> WordIndex(Word(Encode8b10b(1, i))) == i
  {
  }
  lemma IndexOfRow1_40()
    ensures forall i :: 0x40 <= i < 0x80 ==> WordIndex(Word(Encode8b10b(1, i))) == i
  {
  }
  lemma IndexOfRow1_80()
    ensures forall i :: 0x80 <= i < 0xc0 ==> WordIndex(Word(Encode8b10b(1, i))) == i
  {
  }
  lemma IndexOfRow1_C0()
    ensures forall i :: 0xc0 <= i < 0x100 ==> WordIndex(Word(Encode8b10b(1, i))) == i
  {
  }

  lemma EntryOfIndex000()
    ensures forall w :: 0x000 <= w < 0x040 && WordIndex(w) >= 0 ==>
      Word(Encode8b10b(0, WordIndex(w))) == w || Word(Encode8b10b(1, WordIndex(w))) == w
  {
  }
  lemma EntryOfIndex040()
    ensures forall w :: 0x040 <= w < 0x080 && WordIndex(w) >= 0 ==>
      Word(Encode8b10b(0, WordIndex(w))) == w || Word(Encode8b10b(1, WordIndex(w))) == w
  {
  }
  lemma EntryOfIndex080()
    ensures forall w :: 0x080 <= w < 0x0c0 && WordIndex(w) >= 0 ==>
      Word(Encode8b10b(0, WordIndex(w))) == w || Word(Encode8b10b(1, WordIndex(w))) == w
  {
  }
  lemma EntryOfIndex0C0()
    ensures forall w :: 0x0c0 <= w < 0x100 && WordIndex(w) >= 0 ==>
      Word(Encode8b10b(0, WordIndex(w))) == w || Word(Encode8b10b(1, WordIndex(w))) == w
  {
  }
  lemma EntryOfIndex100()
    ensures forall w :: 0x100 <= w < 0x140 && WordIndex(w) >= 0 ==>
      Word(Encode8b10b(0, WordIndex(w))) == w || Word(Encode8b10b(1, WordIndex(w))) == w
  {
  }
  lemma EntryOfIndex140()
    ensures forall w :: 0x140 <= w < 0x180 && WordIndex(w) >= 0 ==>
      Word(Encode8b10b(0, WordIndex(w))) == w || Word(Encode8b10b(1, WordIndex(w))) == w
  {
  }
  lemma EntryOfIndex180()
    ensures forall w :: 0x180 <= w < 0x1c0 && WordIndex(w) >= 0 ==>
      Word(Encode8b10b(0, WordIndex(w))) == w || Word(Encode8b10b(1, WordIndex(w))) == w
  {
  }
  lemma EntryOfIndex1C0()
    ensures forall w :: 0x1c0 <= w < 0x200 && WordIndex(w) >= 0 ==>
      Word(Encode8b10b(0, WordIndex(w))) == w || Word(Encode8b10b(1, WordIndex(w))) == w
  {
  }
  lemma EntryOfIndex200()
    ensures forall w :: 0x200 <= w < 0x240 && WordIndex(w) >= 0 ==>
      Word(Encode8b10b(0, WordIndex(w))) == w || Word(Encode8b10b(1, WordIndex(w))) == w
  {
  }
  lemma EntryOfIndex240()
    ensures forall w :: 0x240 <= w < 0x280 && WordIndex(w) >= 0 ==>
      Word(Encode8b10b(0, WordIndex(w))) == w || Word(Encode8b10b(1, WordIndex(w))) == w
  {
  }
  lemma EntryOfIndex280()
    ensures forall w :: 0x280 <= w < 0x2c0 && WordIndex(w) >= 0 ==>
      Word(Encode8b10b(0, WordIndex(w))) == w || Word(Encode8b10b(1, WordIndex(w))) == w
  {
  }
  lemma EntryOfIndex2C0()
    ensures forall w :: 0x2c0 <= w < 0x300 && WordIndex(w) >= 0 ==>
      Word(Encode8b10b(0, WordIndex(w))) == w || Word(Encode8b10b(1, WordIndex(w))) == w
  {
  }
  lemma EntryOfIndex300()
    ensures forall w :: 0x300 <= w < 0x340 && WordIndex(w) >= 0 ==>
      Word(Encode8b10b(0, WordIndex(w))) == w || Word(Encode8b10b(1, WordIndex(w))) == w
  {
  }
  lemma EntryOfIndex340()
    ensures forall w :: 0x340 <= w < 0x380 && WordIndex(w) >= 0 ==>
      Word(Encode8b10b(0, WordIndex(w))) == w || Word(Encode8b10b(1, WordIndex(w))) == w
  {
  }
  lemma EntryOfIndex380()
    ensures forall w :: 0x380 <= w < 0x3c0 && WordIndex(w) >= 0 ==>
      Word(Encode8b10b(0, WordIndex(w))) == w || Word(Encode8b10b(1, WordIndex(w))) == w
  {
  }
  lemma EntryOfIndex3C0()
    ensures forall w :: 0x3c0 <= w < 0x400 && WordIndex(w) >= 0 ==>
      Word(Encode8b10b(0, WordIndex(w))) == w || Word(Encode8b10b(1, WordIndex(w))) == w
  {
  }

  /** Every entry's channel word indexes back to the entry's byte. */
  lemma IndexOfEntry(rd: int, i: int)
    requires 0 <= rd < 2 && 0 <= i < 256
    ensures WordIndex(Word(Encode8b10b(rd, i))) == i
  {
    if rd == 0 {
      IndexOfRow0(i);
    } else {
      IndexOfRow1(i);
    }
  }

  lemma IndexOfRow0(i: int)
    requires 0 <= i < 256
    ensures WordIndex(Word(Encode8b10b(0, i))) == i
  {
    if i < 0x40 {
      IndexOfRow0_00();
    } else if i < 0x80 {
      IndexOfRow0_40();
    } else if i < 0xc0 {
      IndexOfRow0_80();
    } else {
      IndexOfRow0_C0();
    }
  }

  lemma IndexOfRow1(i: int)
    requires 0 <= i < 256
    ensures WordIndex(Word(Encode8b10b(1, i))) == i
  {
    if i < 0x40 {
      IndexOfRow1_00();
    } else if i < 0x80 {
      IndexOfRow1_40();
    } else if i < 0xc0 {
      IndexOfRow1_80();
    } else {
      IndexOfRow1_C0();
    }
  }

  /** A word with an index is the channel word of that byte in some row. */
  lemma EntryOfIndex(w: int)
    requires WordIndex(w) >= 0
    ensures 0 <= w < 0x400
    ensures Word(Encode8b10b(0, WordIndex(w))) == w || Word(Encode8b10b(1, WordIndex(w))) == w
  {
    if w < 0 || w >= 0x400 {
      OutOfRangeHasNoIndex(w);
      assert false;
    }
    if w < 0x040 {
      EntryOfIndex000();
    } else if w < 0x080 {
      EntryOfIndex040();
    } else if w < 0x0c0 {
      EntryOfIndex080();
    } else if w < 0x100 {
      EntryOfIndex0C0();
    } else if w < 0x140 {
      EntryOfIndex100();
    } else if w < 0x180 {
      EntryOfIndex140();
    } else if w < 0x1c0 {
      EntryOfIndex180();
    } else if w < 0x200 {
      EntryOfIndex1C0();
    } else if w < 0x240 {
      EntryOfIndex200();
    } else if w < 0x280 {
      EntryOfIndex240();
    } else if w < 0x2c0 {
      EntryOfIndex280();
    } else if w < 0x300 {
      EntryOfIndex2C0();
    } else if w < 0x340 {
      EntryOfIndex300();
    } else if w < 0x380 {
      EntryOfIndex340();
    } else if w < 0x3c0 {
      EntryOfIndex380();
    } else {
      EntryOfIndex3C0();
    }
  }

  /** No word outside 0..0x3ff is indexed. */
  lemma OutOfRangeHasNoIndex(w: int)
    requires w < 0 || w >= 0x400
    ensures WordIndex(w) == -1
  {
  }
}
