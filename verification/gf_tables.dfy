/**
 * The GF(2^8) tables of the Reed-Solomon encoder in make_wav_gen1.c:
 * `CCSDS_alpha_to` (antilog, alpha^i) and `CCSDS_index_of` (log), over the
 * field polynomial x^8 + x^7 + x^2 + x + 1 of CCSDS 131.0-B section 4, with
 * 255 (`A0`) standing for the log of zero.
 */
module GaloisField {
  import opened Powers

  /** `NN`, the number of symbols of a code word, and the order of alpha. */
  const NN := 255

  /** `A0`, the log of zero. */
  const A0 := NN

  /** `CCSDS_alpha_to[i]`: alpha to the power i for i < 255, and 0 at `A0`. */
  function AlphaTo(i: int): (a: int)
    requires 0 <= i < 256
    ensures 0 <= a < 256
  {
    if i < 128 then
      if i < 64 then
        if i < 32 then
          if i < 16 then
            if i < 8 then
              if i < 4 then
                if i < 2 then
                  if i < 1 then
                    1
                  else
                    2
                else
                  if i < 3 then
                    4
                  else
                    8
              else
                if i < 6 then
                  if i < 5 then
                    16
                  else
                    32
                else
                  if i < 7 then
                    64
                  else
                    128
            else
              if i < 12 then
                if i < 10 then
                  if i < 9 then
                    135
                  else
                    137
                else
                  if i < 11 then
                    149
                  else
                    173
              else
                if i < 14 then
                  if i < 13 then
                    221
                  else
                    61
                else
                  if i < 15 then
                    122
                  else
                    244
          else
            if i < 24 then
              if i < 20 then
                if i < 18 then
                  if i < 17 then
                    111
                  else
                    222
                else
                  if i < 19 then
                    59
                  else
                    118
              else
                if i < 22 then
                  if i < 21 then
                    236
                  else
                    95
                else
                  if i < 23 then
                    190
                  else
                    251
            else
              if i < 28 then
                if i < 26 then
                  if i < 25 then
                    113
                  else
                    226
                else
                  if i < 27 then
                    67
                  else
                    134
              else
                if i < 30 then
                  if i < 29 then
                    139
                  else
                    145
                else
                  if i < 31 then
                    165
                  else
                    205
        else
          if i < 48 then
            if i < 40 then
              if i < 36 then
                if i < 34 then
                  if i < 33 then
                    29
                  else
                    58
                else
                  if i < 35 then
                    116
                  else
                    232
              else
                if i < 38 then
                  if i < 37 then
                    87
                  else
                    174
                else
                  if i < 39 then
                    219
                  else
                    49
            else
              if i < 44 then
                if i < 42 then
                  if i < 41 then
                    98
                  else
                    196
                else
                  if i < 43 then
                    15
                  else
                    30
              else
                if i < 46 then
                  if i < 45 then
                    60
                  else
                    120
                else
                  if i < 47 then
                    240
                  else
                    103
          else
            if i < 56 then
              if i < 52 then
                if i < 50 then
                  if i < 49 then
                    206
                  else
                    27
                else
                  if i < 51 then
                    54
                  else
                    108
              else
                if i < 54 then
                  if i < 53 then
                    216
                  else
                    55
                else
                  if i < 55 then
                    110
                  else
                    220
            else
              if i < 60 then
                if i < 58 then
                  if i < 57 then
                    63
                  else
                    126
                else
                  if i < 59 then
                    252
                  else
                    127
              else
                if i < 62 then
                  if i < 61 then
                    254
                  else
                    123
                else
                  if i < 63 then
                    246
                  else
                    107
      else
        if i < 96 then
          if i < 80 then
            if i < 72 then
              if i < 68 then
                if i < 66 then
                  if i < 65 then
                    214
                  else
                    43
                else
                  if i < 67 then
                    86
                  else
                    172
              else
                if i < 70 then
                  if i < 69 then
                    223
                  else
                    57
                else
                  if i < 71 then
                    114
                  else
                    228
            else
              if i < 76 then
                if i < 74 then
                  if i < 73 then
                    79
                  else
                    158
                else
                  if i < 75 then
                    187
                  else
                    241
              else
                if i < 78 then
                  if i < 77 then
                    101
                  else
                    202
                else
                  if i < 79 then
                    19
                  else
                    38
          else
            if i < 88 then
              if i < 84 then
                if i < 82 then
                  if i < 81 then
                    76
                  else
                    152
                else
                  if i < 83 then
                    183
                  else
                    233
              else
                if i < 86 then
                  if i < 85 then
                    85
                  else
                    170
                else
                  if i < 87 then
                    211
                  else
                    33
            else
              if i < 92 then
                if i < 90 then
                  if i < 89 then
                    66
                  else
                    132
                else
                  if i < 91 then
                    143
                  else
                    153
              else
                if i < 94 then
                  if i < 93 then
                    181
                  else
                    237
                else
                  if i < 95 then
                    93
                  else
                    186
        else
          if i < 112 then
            if i < 104 then
              if i < 100 then
                if i < 98 then
                  if i < 97 then
                    243
                  else
                    97
                else
                  if i < 99 then
                    194
                  else
                    3
              else
                if i < 102 then
                  if i < 101 then
                    6
                  else
                    12
                else
                  if i < 103 then
                    24
                  else
                    48
            else
              if i < 108 then
                if i < 106 then
                  if i < 105 then
                    96
                  else
                    192
                else
                  if i < 107 then
                    7
                  else
                    14
              else
                if i < 110 then
                  if i < 109 then
                    28
                  else
                    56
                else
                  if i < 111 then
                    112
                  else
                    224
          else
            if i < 120 then
              if i < 116 then
                if i < 114 then
                  if i < 113 then
                    71
                  else
                    142
                else
                  if i < 115 then
                    155
                  else
                    177
              else
                if i < 118 then
                  if i < 117 then
                    229
                  else
                    77
                else
                  if i < 119 then
                    154
                  else
                    179
            else
              if i < 124 then
                if i < 122 then
                  if i < 121 then
                    225
                  else
                    69
                else
                  if i < 123 then
                    138
                  else
                    147
              else
                if i < 126 then
                  if i < 125 then
                    161
                  else
                    197
                else
                  if i < 127 then
                    13
                  else
                    26
    else
      if i < 192 then
        if i < 160 then
          if i < 144 then
            if i < 136 then
              if i < 132 then
                if i < 130 then
                  if i < 129 then
                    52
                  else
                    104
                else
                  if i < 131 then
                    208
                  else
                    39
              else
                if i < 134 then
                  if i < 133 then
                    78
                  else
                    156
                else
                  if i < 135 then
                    191
                  else
                    249
            else
              if i < 140 then
                if i < 138 then
                  if i < 137 then
                    117
                  else
                    234
                else
                  if i < 139 then
                    83
                  else
                    166
              else
                if i < 142 then
                  if i < 141 then
                    203
                  else
                    17
                else
                  if i < 143 then
                    34
                  else
                    68
          else
            if i < 152 then
              if i < 148 then
                if i < 146 then
                  if i < 145 then
                    136
                  else
                    151
                else
                  if i < 147 then
                    169
                  else
                    213
              else
                if i < 150 then
                  if i < 149 then
                    45
                  else
                    90
                else
                  if i < 151 then
                    180
                  else
                    239
            else
              if i < 156 then
                if i < 154 then
                  if i < 153 then
                    89
                  else
                    178
                else
                  if i < 155 then
                    227
                  else
                    65
              else
                if i < 158 then
                  if i < 157 then
                    130
                  else
                    131
                else
                  if i < 159 then
                    129
                  else
                    133
        else
          if i < 176 then
            if i < 168 then
              if i < 164 then
                if i < 162 then
                  if i < 161 then
                    141
                  else
                    157
                else
                  if i < 163 then
                    189
                  else
                    253
              else
                if i < 166 then
                  if i < 165 then
                    125
                  else
                    250
                else
                  if i < 167 then
                    115
                  else
                    230
            else
              if i < 172 then
                if i < 170 then
                  if i < 169 then
                    75
                  else
                    150
                else
                  if i < 171 then
                    171
                  else
                    209
              else
                if i < 174 then
                  if i < 173 then
                    37
                  else
                    74
                else
                  if i < 175 then
                    148
                  else
                    175
          else
            if i < 184 then
              if i < 180 then
                if i < 178 then
                  if i < 177 then
                    217
                  else
                    53
                else
                  if i < 179 then
                    106
                  else
                    212
              else
                if i < 182 then
                  if i < 181 then
                    47
                  else
                    94
                else
                  if i < 183 then
                    188
                  else
                    255
            else
              if i < 188 then
                if i < 186 then
                  if i < 185 then
                    121
                  else
                    242
                else
                  if i < 187 then
                    99
                  else
                    198
              else
                if i < 190 then
                  if i < 189 then
                    11
                  else
                    22
                else
                  if i < 191 then
                    44
                  else
                    88
      else
        if i < 224 then
          if i < 208 then
            if i < 200 then
              if i < 196 then
                if i < 194 then
                  if i < 193 then
                    176
                  else
                    231
                else
                  if i < 195 then
                    73
                  else
                    146
              else
                if i < 198 then
                  if i < 197 then
                    163
                  else
                    193
                else
                  if i < 199 then
                    5
                  else
                    10
            else
              if i < 204 then
                if i < 202 then
                  if i < 201 then
                    20
                  else
                    40
                else
                  if i < 203 then
                    80
                  else
                    160
              else
                if i < 206 then
                  if i < 205 then
                    199
                  else
                    9
                else
                  if i < 207 then
                    18
                  else
                    36
          else
            if i < 216 then
              if i < 212 then
                if i < 210 then
                  if i < 209 then
                    72
                  else
                    144
                else
                  if i < 211 then
                    167
                  else
                    201
              else
                if i < 214 then
                  if i < 213 then
                    21
                  else
                    42
                else
                  if i < 215 then
                    84
                  else
                    168
            else
              if i < 220 then
                if i < 218 then
                  if i < 217 then
                    215
                  else
                    41
                else
                  if i < 219 then
                    82
                  else
                    164
              else
                if i < 222 then
                  if i < 221 then
                    207
                  else
                    25
                else
                  if i < 223 then
                    50
                  else
                    100
        else
          if i < 240 then
            if i < 232 then
              if i < 228 then
                if i < 226 then
                  if i < 225 then
                    200
                  else
                    23
                else
                  if i < 227 then
                    46
                  else
                    92
              else
                if i < 230 then
                  if i < 229 then
                    184
                  else
                    247
                else
                  if i < 231 then
                    105
                  else
                    210
            else
              if i < 236 then
                if i < 234 then
                  if i < 233 then
                    35
                  else
                    70
                else
                  if i < 235 then
                    140
                  else
                    159
              else
                if i < 238 then
                  if i < 237 then
                    185
                  else
                    245
                else
                  if i < 239 then
                    109
                  else
                    218
          else
            if i < 248 then
              if i < 244 then
                if i < 242 then
                  if i < 241 then
                    51
                  else
                    102
                else
                  if i < 243 then
                    204
                  else
                    31
              else
                if i < 246 then
                  if i < 245 then
                    62
                  else
                    124
                else
                  if i < 247 then
                    248
                  else
                    119
            else
              if i < 252 then
                if i < 250 then
                  if i < 249 then
                    238
                  else
                    91
                else
                  if i < 251 then
                    182
                  else
                    235
              else
                if i < 254 then
                  if i < 253 then
                    81
                  else
                    162
                else
                  if i < 255 then
                    195
                  else
                    0
  }

  /** `CCSDS_index_of[x]`: the log of x to the base alpha, and `A0` for 0. */
  function IndexOf(x: int): (l: int)
    requires 0 <= x < 256
    ensures 0 <= l < 256
  {
    if x < 128 then
      if x < 64 then
        if x < 32 then
          if x < 16 then
            if x < 8 then
              if x < 4 then
                if x < 2 then
                  if x < 1 then
                    255
                  else
                    0
                else
                  if x < 3 then
                    1
                  else
                    99
              else
                if x < 6 then
                  if x < 5 then
                    2
                  else
                    198
                else
                  if x < 7 then
                    100
                  else
                    106
            else
              if x < 12 then
                if x < 10 then
                  if x < 9 then
                    3
                  else
                    205
                else
                  if x < 11 then
                    199
                  else
                    188
              else
                if x < 14 then
                  if x < 13 then
                    101
                  else
                    126
                else
                  if x < 15 then
                    107
                  else
                    42
          else
            if x < 24 then
              if x < 20 then
                if x < 18 then
                  if x < 17 then
                    4
                  else
                    141
                else
                  if x < 19 then
                    206
                  else
                    78
              else
                if x < 22 then
                  if x < 21 then
                    200
                  else
                    212
                else
                  if x < 23 then
                    189
                  else
                    225
            else
              if x < 28 then
                if x < 26 then
                  if x < 25 then
                    102
                  else
                    221
                else
                  if x < 27 then
                    127
                  else
                    49
              else
                if x < 30 then
                  if x < 29 then
                    108
                  else
                    32
                else
                  if x < 31 then
                    43
                  else
                    243
        else
          if x < 48 then
            if x < 40 then
              if x < 36 then
                if x < 34 then
                  if x < 33 then
                    5
                  else
                    87
                else
                  if x < 35 then
                    142
                  else
                    232
              else
                if x < 38 then
                  if x < 37 then
                    207
                  else
                    172
                else
                  if x < 39 then
                    79
                  else
                    131
            else
              if x < 44 then
                if x < 42 then
                  if x < 41 then
                    201
                  else
                    217
                else
                  if x < 43 then
                    213
                  else
                    65
              else
                if x < 46 then
                  if x < 45 then
                    190
                  else
                    148
                else
                  if x < 47 then
                    226
                  else
                    180
          else
            if x < 56 then
              if x < 52 then
                if x < 50 then
                  if x < 49 then
                    103
                  else
                    39
                else
                  if x < 51 then
                    222
                  else
                    240
              else
                if x < 54 then
                  if x < 53 then
                    128
                  else
                    177
                else
                  if x < 55 then
                    50
                  else
                    53
            else
              if x < 60 then
                if x < 58 then
                  if x < 57 then
                    109
                  else
                    69
                else
                  if x < 59 then
                    33
                  else
                    18
              else
                if x < 62 then
                  if x < 61 then
                    44
                  else
                    13
                else
                  if x < 63 then
                    244
                  else
                    56
      else
        if x < 96 then
          if x < 80 then
            if x < 72 then
              if x < 68 then
                if x < 66 then
                  if x < 65 then
                    6
                  else
                    155
                else
                  if x < 67 then
                    88
                  else
                    26
              else
                if x < 70 then
                  if x < 69 then
                    143
                  else
                    121
                else
                  if x < 71 then
                    233
                  else
                    112
            else
              if x < 76 then
                if x < 74 then
                  if x < 73 then
                    208
                  else
                    194
                else
                  if x < 75 then
                    173
                  else
                    168
              else
                if x < 78 then
                  if x < 77 then
                    80
                  else
                    117
                else
                  if x < 79 then
                    132
                  else
                    72
          else
            if x < 88 then
              if x < 84 then
                if x < 82 then
                  if x < 81 then
                    202
                  else
                    252
                else
                  if x < 83 then
                    218
                  else
                    138
              else
                if x < 86 then
                  if x < 85 then
                    214
                  else
                    84
                else
                  if x < 87 then
                    66
                  else
                    36
            else
              if x < 92 then
                if x < 90 then
                  if x < 89 then
                    191
                  else
                    152
                else
                  if x < 91 then
                    149
                  else
                    249
              else
                if x < 94 then
                  if x < 93 then
                    227
                  else
                    94
                else
                  if x < 95 then
                    181
                  else
                    21
        else
          if x < 112 then
            if x < 104 then
              if x < 100 then
                if x < 98 then
                  if x < 97 then
                    104
                  else
                    97
                else
                  if x < 99 then
                    40
                  else
                    186
              else
                if x < 102 then
                  if x < 101 then
                    223
                  else
                    76
                else
                  if x < 103 then
                    241
                  else
                    47
            else
              if x < 108 then
                if x < 106 then
                  if x < 105 then
                    129
                  else
                    230
                else
                  if x < 107 then
                    178
                  else
                    63
              else
                if x < 110 then
                  if x < 109 then
                    51
                  else
                    238
                else
                  if x < 111 then
                    54
                  else
                    16
          else
            if x < 120 then
              if x < 116 then
                if x < 114 then
                  if x < 113 then
                    110
                  else
                    24
                else
                  if x < 115 then
                    70
                  else
                    166
              else
                if x < 118 then
                  if x < 117 then
                    34
                  else
                    136
                else
                  if x < 119 then
                    19
                  else
                    247
            else
              if x < 124 then
                if x < 122 then
                  if x < 121 then
                    45
                  else
                    184
                else
                  if x < 123 then
                    14
                  else
                    61
              else
                if x < 126 then
                  if x < 125 then
                    245
                  else
                    164
                else
                  if x < 127 then
                    57
                  else
                    59
    else
      if x < 192 then
        if x < 160 then
          if x < 144 then
            if x < 136 then
              if x < 132 then
                if x < 130 then
                  if x < 129 then
                    7
                  else
                    158
                else
                  if x < 131 then
                    156
                  else
                    157
              else
                if x < 134 then
                  if x < 133 then
                    89
                  else
                    159
                else
                  if x < 135 then
                    27
                  else
                    8
            else
              if x < 140 then
                if x < 138 then
                  if x < 137 then
                    144
                  else
                    9
                else
                  if x < 139 then
                    122
                  else
                    28
              else
                if x < 142 then
                  if x < 141 then
                    234
                  else
                    160
                else
                  if x < 143 then
                    113
                  else
                    90
          else
            if x < 152 then
              if x < 148 then
                if x < 146 then
                  if x < 145 then
                    209
                  else
                    29
                else
                  if x < 147 then
                    195
                  else
                    123
              else
                if x < 150 then
                  if x < 149 then
                    174
                  else
                    10
                else
                  if x < 151 then
                    169
                  else
                    145
            else
              if x < 156 then
                if x < 154 then
                  if x < 153 then
                    81
                  else
                    91
                else
                  if x < 155 then
                    118
                  else
                    114
              else
                if x < 158 then
                  if x < 157 then
                    133
                  else
                    161
                else
                  if x < 159 then
                    73
                  else
                    235
        else
          if x < 176 then
            if x < 168 then
              if x < 164 then
                if x < 162 then
                  if x < 161 then
                    203
                  else
                    124
                else
                  if x < 163 then
                    253
                  else
                    196
              else
                if x < 166 then
                  if x < 165 then
                    219
                  else
                    30
                else
                  if x < 167 then
                    139
                  else
                    210
            else
              if x < 172 then
                if x < 170 then
                  if x < 169 then
                    215
                  else
                    146
                else
                  if x < 171 then
                    85
                  else
                    170
              else
                if x < 174 then
                  if x < 173 then
                    67
                  else
                    11
                else
                  if x < 175 then
                    37
                  else
                    175
          else
            if x < 184 then
              if x < 180 then
                if x < 178 then
                  if x < 177 then
                    192
                  else
                    115
                else
                  if x < 179 then
                    153
                  else
                    119
              else
                if x < 182 then
                  if x < 181 then
                    150
                  else
                    92
                else
                  if x < 183 then
                    250
                  else
                    82
            else
              if x < 188 then
                if x < 186 then
                  if x < 185 then
                    228
                  else
                    236
                else
                  if x < 187 then
                    95
                  else
                    74
              else
                if x < 190 then
                  if x < 189 then
                    182
                  else
                    162
                else
                  if x < 191 then
                    22
                  else
                    134
      else
        if x < 224 then
          if x < 208 then
            if x < 200 then
              if x < 196 then
                if x < 194 then
                  if x < 193 then
                    105
                  else
                    197
                else
                  if x < 195 then
                    98
                  else
                    254
              else
                if x < 198 then
                  if x < 197 then
                    41
                  else
                    125
                else
                  if x < 199 then
                    187
                  else
                    204
            else
              if x < 204 then
                if x < 202 then
                  if x < 201 then
                    224
                  else
                    211
                else
                  if x < 203 then
                    77
                  else
                    140
              else
                if x < 206 then
                  if x < 205 then
                    242
                  else
                    31
                else
                  if x < 207 then
                    48
                  else
                    220
          else
            if x < 216 then
              if x < 212 then
                if x < 210 then
                  if x < 209 then
                    130
                  else
                    171
                else
                  if x < 211 then
                    231
                  else
                    86
              else
                if x < 214 then
                  if x < 213 then
                    179
                  else
                    147
                else
                  if x < 215 then
                    64
                  else
                    216
            else
              if x < 220 then
                if x < 218 then
                  if x < 217 then
                    52
                  else
                    176
                else
                  if x < 219 then
                    239
                  else
                    38
              else
                if x < 222 then
                  if x < 221 then
                    55
                  else
                    12
                else
                  if x < 223 then
                    17
                  else
                    68
        else
          if x < 240 then
            if x < 232 then
              if x < 228 then
                if x < 226 then
                  if x < 225 then
                    111
                  else
                    120
                else
                  if x < 227 then
                    25
                  else
                    154
              else
                if x < 230 then
                  if x < 229 then
                    71
                  else
                    116
                else
                  if x < 231 then
                    167
                  else
                    193
            else
              if x < 236 then
                if x < 234 then
                  if x < 233 then
                    35
                  else
                    83
                else
                  if x < 235 then
                    137
                  else
                    251
              else
                if x < 238 then
                  if x < 237 then
                    20
                  else
                    93
                else
                  if x < 239 then
                    248
                  else
                    151
          else
            if x < 248 then
              if x < 244 then
                if x < 242 then
                  if x < 241 then
                    46
                  else
                    75
                else
                  if x < 243 then
                    185
                  else
                    96
              else
                if x < 246 then
                  if x < 245 then
                    15
                  else
                    237
                else
                  if x < 247 then
                    62
                  else
                    229
            else
              if x < 252 then
                if x < 250 then
                  if x < 249 then
                    246
                  else
                    135
                else
                  if x < 251 then
                    165
                  else
                    23
              else
                if x < 254 then
                  if x < 253 then
                    58
                  else
                    163
                else
                  if x < 255 then
                    60
                  else
                    183
  }

  /**
   * Multiplication by alpha: a shift left, reduced by x^8 = x^7 + x^2 + x + 1
   * (an exclusive or with 0x87) when the top bit falls out.
   */
  function XTime(a: int): (r: int)
    requires 0 <= a < 256
    ensures 0 <= r < 256
  {
    if a < 0x80 then 2 * a else Xor87(2 * a - 0x100)
  }

  /**
   * s xor 0x87 for a byte s: bits 0, 1, 2 and 7 are flipped. The low three
   * bits l of s become 7 - l, and bit 7 is added or taken away.
   */
  function Xor87(s: int): (r: int)
    requires 0 <= s < 256
    ensures 0 <= r < 256
  {
    s - 2 * (s % 8) + 7 + (if s < 0x80 then 0x80 else -0x80)
  }

  /** Bitwise exclusive or of the low n bits of a and b, the C `^`. */
  function Xor(a: int, b: int, n: nat): (r: int)
    requires 0 <= a && 0 <= b
    ensures 0 <= r
    decreases n
  {
    if n == 0 then 0 else (a + b) % 2 + 2 * Xor(a / 2, b / 2, n - 1)
  }

  /** The exclusive or of the low n bits has at most n bits. */
  lemma {:induction false} XorBound(a: int, b: int, n: nat)
    requires 0 <= a && 0 <= b
    ensures Xor(a, b, n) < Pow2(n)
    decreases n
  {
    if n > 0 {
      XorBound(a / 2, b / 2, n - 1);
    }
  }

  /** Exclusive or with zero keeps the low n bits. */
  lemma {:induction false} XorZero(a: int, n: nat)
    requires 0 <= a < Pow2(n)
    ensures Xor(a, 0, n) == a && Xor(0, a, n) == a
    decreases n
  {
    if n > 0 {
      XorZero(a / 2, n - 1);
      assert a == a % 2 + 2 * (a / 2);
      assert (a + 0) % 2 == a % 2 && (0 + a) % 2 == a % 2;
    }
  }

  /** A value's exclusive or with itself is zero. */
  lemma {:induction false} XorSelf(a: int, n: nat)
    requires 0 <= a
    ensures Xor(a, a, n) == 0
    decreases n
  {
    if n > 0 {
      XorSelf(a / 2, n - 1);
      assert (a + a) % 2 == 0;
    }
  }

  /** Two values of n bits whose exclusive or is zero are equal. */
  lemma {:induction false} XorZeroEqual(a: int, b: int, n: nat)
    requires 0 <= a < Pow2(n) && 0 <= b < Pow2(n)
    requires Xor(a, b, n) == 0
    ensures a == b
    decreases n
  {
    if n > 0 {
      var a1, b1 := a / 2, b / 2;
      assert (a + b) % 2 == 0 && Xor(a1, b1, n - 1) == 0;
      XorZeroEqual(a1, b1, n - 1);
      assert a % 2 == b % 2;
    }
  }

  /**
   * Addition in GF(2^8): the exclusive or of the low bytes of a and b, as
   * `^` on two `unsigned char` values.
   */
  function Add(a: int, b: int): (r: int)
    ensures 0 <= r < 256
  {
    XorBound(a % 256, b % 256, 8);
    assert Pow2(8) == 256;
    Xor(a % 256, b % 256, 8)
  }

  /** Zero is the identity of Add, and a sum is zero exactly when the two bytes are equal. */
  lemma AddZero(a: int, b: int)
    requires 0 <= a < 256 && 0 <= b < 256
    ensures (Add(a, b) == 0) == (a == b)
    ensures b == 0 ==> Add(a, b) == a
    ensures a == 0 ==> Add(a, b) == b
  {
    assert Pow2(8) == 256;
    assert a % 256 == a && b % 256 == b;
    XorSelf(a, 8);
    if Xor(a, b, 8) == 0 {
      XorZeroEqual(a, b, 8);
    }
    XorZero(a, 8);
    XorZero(b, 8);
  }

  /** Where b has its low bit set, the exclusive or flips the low bit of a. */
  lemma XorOddStep(a: int, b: int, n: nat)
    requires 0 <= a && 0 <= b && n > 0 && b % 2 == 1
    ensures Xor(a, b, n) == 1 - a % 2 + 2 * Xor(a / 2, b / 2, n - 1)
  {
  }

  /** Where b has its low bit clear, the exclusive or keeps the low bit of a. */
  lemma XorEvenStep(a: int, b: int, n: nat)
    requires 0 <= a && 0 <= b && n > 0 && b % 2 == 0
    ensures Xor(a, b, n) == a % 2 + 2 * Xor(a / 2, b / 2, n - 1)
  {
  }

  /** Exclusive or with the top bit p = 2^(n-1) of an n-bit value adds or takes away p. */
  lemma {:induction false} XorTopBit(h: int, n: nat, p: int)
    requires n >= 1 && p == Pow2(n - 1) && 0 <= h < 2 * p
    ensures Xor(h, p, n) == if h < p then h + p else h - p
    decreases n
  {
    if n == 1 {
      assert Xor(h / 2, 0, 0) == 0;
    } else {
      var q := Pow2(n - 2);
      var h2 := h / 2;
      assert h == 2 * h2 + h % 2;
      assert p % 2 == 0 && p / 2 == q;
      XorEvenStep(h, p, n);
      XorTopBit(h2, n - 1, q);
    }
  }

  /** Exclusive or with 0x87 flips the low three bits of a byte and passes the rest on as 0x10 on s / 8. */
  lemma XorLowOnes(s: int)
    requires 0 <= s < 256
    ensures Xor(s, 0x87, 8) == 7 - (s % 2 + 2 * (s / 2 % 2) + 4 * (s / 2 / 2 % 2)) + 8 * Xor(s / 2 / 2 / 2, 0x10, 5)
  {
    XorOddStep(s / 2 / 2, 0x21, 6);
    XorOddStep(s / 2, 0x43, 7);
    XorOddStep(s, 0x87, 8);
  }

  /** The low three bits of a byte, one at a time, and what is left above them. */
  lemma LowBits(s: int)
    requires 0 <= s < 256
    ensures s % 8 == s % 2 + 2 * (s / 2 % 2) + 4 * (s / 2 / 2 % 2)
    ensures s / 2 / 2 / 2 < 32
    ensures (s < 0x80) == (s / 2 / 2 / 2 < 16)
  {
    var a := s / 2;
    var b := a / 2;
    var c := b / 2;
    var low := s % 2 + 2 * (a % 2) + 4 * (b % 2);
    assert s == low + 8 * c by {
      assert s == s % 2 + 2 * a;
      assert a == a % 2 + 2 * b;
      assert b == b % 2 + 2 * c;
    }
    assert 0 <= low < 8;
  }

  /** Exclusive or with 0x10 flips bit 4 of a five-bit value. */
  lemma XorBit4(h: int)
    requires 0 <= h < 32
    ensures Xor(h, 0x10, 5) == if h < 16 then h + 16 else h - 16
  {
    assert Pow2(4) == 16 by {
      assert Pow2(0) == 1;
    }
    XorTopBit(h, 5, 16);
  }

  /** The arithmetic form of Xor87 is Add(s, 0x87), the exclusive or with 0x87. */
  lemma Xor87IsAdd(s: int)
    requires 0 <= s < 256
    ensures Xor87(s) == Add(s, 0x87)
  {
    assert s % 256 == s;
    XorLowOnes(s);
    LowBits(s);
    XorBit4(s / 2 / 2 / 2);
  }

  lemma AlphaOfIndex000()
    ensures forall x :: 1 <= x <= 63 ==> AlphaTo(IndexOf(x)) == x
  {
  }

  lemma AlphaOfIndex064()
    ensures forall x :: 64 <= x <= 127 ==> AlphaTo(IndexOf(x)) == x
  {
  }

  lemma AlphaOfIndex128()
    ensures forall x :: 128 <= x <= 191 ==> AlphaTo(IndexOf(x)) == x
  {
  }

  lemma AlphaOfIndex192()
    ensures forall x :: 192 <= x <= 255 ==> AlphaTo(IndexOf(x)) == x
  {
  }

  /** The antilog table undoes the log table on every nonzero element. */
  lemma AlphaOfIndex()
    ensures forall x :: 1 <= x <= 255 ==> AlphaTo(IndexOf(x)) == x
  {
    AlphaOfIndex000();
    AlphaOfIndex064();
    AlphaOfIndex128();
    AlphaOfIndex192();
  }

  lemma IndexOfAlpha000()
    ensures forall i :: 0 <= i <= 63 ==> IndexOf(AlphaTo(i)) == i
  {
  }

  lemma IndexOfAlpha064()
    ensures forall i :: 64 <= i <= 127 ==> IndexOf(AlphaTo(i)) == i
  {
  }

  lemma IndexOfAlpha128()
    ensures forall i :: 128 <= i <= 191 ==> IndexOf(AlphaTo(i)) == i
  {
  }

  lemma IndexOfAlpha192()
    ensures forall i :: 192 <= i <= 254 ==> IndexOf(AlphaTo(i)) == i
  {
  }

  /** The log table undoes the antilog table on every exponent below 255. */
  lemma IndexOfAlpha()
    ensures forall i :: 0 <= i <= 254 ==> IndexOf(AlphaTo(i)) == i
  {
    IndexOfAlpha000();
    IndexOfAlpha064();
    IndexOfAlpha128();
    IndexOfAlpha192();
  }

  lemma AlphaPowers000()
    ensures forall i :: 0 <= i <= 63 ==> AlphaTo(i + 1) == XTime(AlphaTo(i))
  {
  }

  lemma AlphaPowers064()
    ensures forall i :: 64 <= i <= 127 ==> AlphaTo(i + 1) == XTime(AlphaTo(i))
  {
  }

  lemma AlphaPowers128()
    ensures forall i :: 128 <= i <= 191 ==> AlphaTo(i + 1) == XTime(AlphaTo(i))
  {
  }

  lemma AlphaPowers192()
    ensures forall i :: 192 <= i <= 253 ==> AlphaTo(i + 1) == XTime(AlphaTo(i))
  {
  }

  /** Each antilog entry is alpha times the one before it. */
  lemma AlphaPowers()
    ensures forall i :: 0 <= i <= 253 ==> AlphaTo(i + 1) == XTime(AlphaTo(i))
  {
    AlphaPowers000();
    AlphaPowers064();
    AlphaPowers128();
    AlphaPowers192();
  }

  /** The log of zero is `A0`, and the antilog entry at `A0` is zero. */
  lemma ZeroEntries()
    ensures IndexOf(0) == A0 && AlphaTo(A0) == 0
  {
  }

  /** alpha^255 = alpha^0 = 1: the powers of alpha wrap after 255 steps. */
  lemma AlphaOrder()
    ensures AlphaTo(0) == 1
    ensures XTime(AlphaTo(254)) == AlphaTo(0)
  {
  }
}
