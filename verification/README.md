# 8b/10b and Reed–Solomon telemetry coding, modelled in Dafny

This project models the coding core of a small amateur-satellite telemetry
generator and decoder (make_wav_gen1.c, make_wav2.c and decoder.c). It has
three parts.

- **8b/10b line coding.** The 2×256 table `Encode_8b10b`: row 0 is used at
  running disparity (RD) −1 and row 1 at RD +1. Each entry holds a 10-bit
  channel word and, in bit 10, the next RD. The model covers:
  - the stateful encoder `encode_8b10b`, which sends −1 as the K28.5 comma;
  - the three inverse searches `decode`, `getNextRd` and `getRdSense10b`,
    with their `flip` option and their miss results;
  - `encode`;
  - the two encode loops of make_wav2.c's `main`, which carry the RD from
    the payload into the header.
- **Reed–Solomon parity.** The CCSDS (255,223) code of CCSDS 131.0-B,
  section 4. The model covers:
  - the GF(2^8) antilog and log tables `CCSDS_alpha_to` and
    `CCSDS_index_of`, over x^8 + x^7 + x^2 + x + 1;
  - the palindromic generator `CCSDS_poly`;
  - `modnn`;
  - `update_rs`, the 32-byte shift register updated in place.
- **Telemetry packing.** `encodeA` and `encodeB` pack 12-bit values into the
  payload's `short` cells. `twosToInt` sign-extends a `len`-bit field.

The modules follow the source:

| Module | What it holds |
|---|---|
| `Table8b10b` | The table. It is shared, because the three copies are entry-for-entry identical. |
| `CodeIndex8b10b` | An independent word→byte index that the searches are proved against. |
| `Lookup8b10b` | The searches. |
| `TelemEncoding` | `encode_8b10b` and streams of it. |
| `Wav2Frame` | make_wav2.c's loops. |
| `GaloisField` | The GF tables and the byte XOR. |
| `ReedSolomon` | `modnn` and `update_rs`. |
| `TelemetryFields` | The packing helpers. |

Modelling choices:

- **Loops and in-place updates stay imperative.** The searches and
  `modnn` are `while` loops. `update_rs`, `encodeA` and `encodeB` update
  arrays. `encode_8b10b` writes through a `StateCell`.
- **Each method is proved equal to a specification function.** The
  properties are then proved about that function.
- **The GF and table values are `int`s.** `^` on `unsigned char` is
  `GaloisField.Add`, a bitwise XOR defined on integers.
- **Telemetry cells are bit patterns.** A `short` cell is a `bv16` and an
  `int` a `bv32`.

## Model

| member | source | states |
|---|---|---|
| Table8b10b.RdMinus | make_wav_gen1.c:50-305 | Row 0 (RD −1) of `Encode_8b10b`, one value per byte, each an 11-bit entry below 0x800; the same rows are at decoder.c:42-559 and make_wav2.c:67-584 |
| Table8b10b.RdPlus | make_wav_gen1.c:308-563 | Row 1 (RD +1) of `Encode_8b10b`, each entry below 0x800 |
| Table8b10b.Encode8b10b | make_wav_gen1.c:47-564 | `Encode_8b10b[rd][b]` is an 11-bit value for every rd in 0..1 and byte b |
| Table8b10b.EntryFields | make_wav_gen1.c:741-742 | `Word` is `e & 0x3ff` and `NextRd` is `(e >> 10) & 1`; the entry is the RD bit above the word |
| Table8b10b.RowDisparityMinus | make_wav_gen1.c:50-305 | Every RD −1 word has five 1-bits and keeps RD −1, or has six and moves to RD +1 |
| Table8b10b.RowDisparityPlus | make_wav_gen1.c:308-563 | Every RD +1 word has five 1-bits and keeps RD +1, or has four and moves to RD −1 |
| Table8b10b.EntryDisparity | make_wav_gen1.c:47-564 | The disparity of every word is twice the change of RD recorded in its bit 10 |
| CodeIndex8b10b.IndexOfEntry | decoder.c:42-559 | Every entry's channel word indexes back to the entry's byte, in either row |
| CodeIndex8b10b.EntryOfIndex | decoder.c:42-559 | A word with an index is a 10-bit word, and it is the channel word of that byte in row 0 or row 1 |
| CodeIndex8b10b.OutOfRangeHasNoIndex | decoder.c:572 | No value outside 0..0x3ff equals any entry's low ten bits |
| Lookup8b10b.NOT_FRAME | decoder.c:39 | `NOT_FRAME`, the K28.5 comma sent at RD −1: 0x0fa (also make_wav_gen1.c:44, make_wav2.c:64) |
| Lookup8b10b.FRAME | decoder.c:40 | `FRAME`, the K28.5 comma sent at RD +1: 0x305, the 10-bit complement of NOT_FRAME (FrameIsFlippedNotFrame) |
| Lookup8b10b.Flip | decoder.c:569 | With flip set, the searched word is the 10-bit complement `~word & 0x3ff`; otherwise the word is unchanged |
| Lookup8b10b.Locate | decoder.c:570-576 | The first hit found is a table entry whose low ten bits are the searched word |
| Lookup8b10b.LocateFirst | decoder.c:570-576 | (rd, i) is found iff its word matches and no entry before it, in row-then-byte scan order, matches |
| Lookup8b10b.LocateNone | decoder.c:577 | The search misses iff no entry of either row has the word |
| Lookup8b10b.DecodeOf | decoder.c:568-579 | What `decode` returns, through `Locate`: a byte 0..255 (its first-match meaning is LocateFirst, its scan Decode) |
| Lookup8b10b.NextRdOf | decoder.c:616-631 | What `getNextRd` returns, through `Locate`: 0, 1, or −99 (the scan is GetNextRd) |
| Lookup8b10b.RdSenseOf | decoder.c:638-648 | What `getRdSense10b` returns, through `Locate`: 0, 1, or −99 (the scan is GetRdSense10b) |
| Lookup8b10b.Decode | make_wav_gen1.c:1181-1196 | The nested scan returns the byte of the first match, or 0 on a miss (also make_wav2.c:866-881) |
| Lookup8b10b.GetNextRd | make_wav_gen1.c:1237-1258 | The nested scan returns bit 10 of the first match, or −99 on a miss (also make_wav2.c:922-940) |
| Lookup8b10b.GetRdSense10b | make_wav_gen1.c:1262-1272 | The nested scan returns the row of the first match, or −99 on a miss (also make_wav2.c:947-957) |
| Lookup8b10b.Encode | decoder.c:605-608 | `encode(b)` is the whole RD −1 entry, bit 10 included; its word decodes back to b and its bit 10 is the RD `getNextRd` reports |
| Lookup8b10b.LocateEncoded | decoder.c:570-576 | The word sent for byte b at RD rd is found at byte b, in row rd or in row 0 when both rows share it |
| Lookup8b10b.DecodeRoundTrip | make_wav_gen1.c:1181-1196 | `decode` inverts the table at both RDs |
| Lookup8b10b.DecodeFlippedRoundTrip | decoder.c:569 | A complemented code-group decodes to its byte with flip set |
| Lookup8b10b.FlipIsComplement | decoder.c:569 | For all three searches, `f(w, true) == f(~w & 0x3ff, false)`; flipping twice gives the low ten bits back |
| Lookup8b10b.RowWordsDistinct | decoder.c:573-574 | Within a row, two bytes have equal words iff they are the same byte |
| Lookup8b10b.RowsAgreeOnByte | decoder.c:570-576 | A word found in both rows stands for the same byte in both |
| Lookup8b10b.SharedWordsBalanced | decoder.c:42-559 | A word shared by both rows is balanced and leaves each row's RD unchanged |
| Lookup8b10b.RdRecovered | decoder.c:616-648 | `getRdSense10b` and `getNextRd` report the encoder's RD exactly when it was −1 or the word is not shared by both rows |
| Lookup8b10b.FrameIsFlippedNotFrame | decoder.c:39-40 | FRAME (0x305) and NOT_FRAME (0x0fa) are 10-bit complements of each other |
| Lookup8b10b.CommasMiss | decoder.c:39-40 | Neither K28.5 word matches a data entry: `getNextRd` and `getRdSense10b` return −99 and `decode` returns 0 for both |
| Lookup8b10b.FcsPlaceholder | make_wav2.c:806 | 0x18b is the word of byte 0x00 at RD +1, is found there, and decodes to 0 |
| Lookup8b10b.DecodeOption | decoder.c:565-579 | The error-signalling `decode`: a result, equal to `decode`'s, exactly when some entry matches; none exactly when nothing does |
| Lookup8b10b.DecodeOptionRoundTrip | decoder.c:568-579 | Every code-group decodes to `Some` of its byte |
| Lookup8b10b.DecodeMissLooksLikeByteZero | decoder.c:577-578 | The comma (a miss) and byte 0x00's word both decode to 0; DecodeOption separates them |
| TelemEncoding.SYNC | make_wav_gen1.c:721 | `SYNC`, K28.5 at RD −1: 0x0fa, the same word as NOT_FRAME (SyncToggles) |
| TelemEncoding.StateCell.constructor | make_wav_gen1.c:729 | The `int32_t` cell `*state` points to, created holding the given value; `encode_8b10b` reads and writes it in place |
| TelemEncoding.Step | make_wav_gen1.c:733-745 | `encode_8b10b` returns a word in 0..1023 and leaves a state of 0 or 1 |
| TelemEncoding.Emit | make_wav_gen1.c:736-743 | For RD 0 or 1, the comma or table step gives a 10-bit word and a next state of 0 or 1 |
| TelemEncoding.EncodeSymbol | make_wav_gen1.c:728-746 | The method's returned word and stored state are those of `Step` on the old state |
| TelemEncoding.StepReadsLowBit | make_wav_gen1.c:735 | Only the low bit of the state, and only the low byte of data ≥ 0, are read |
| TelemEncoding.SyncToggles | make_wav_gen1.c:736-739 | A negative symbol toggles the state and sends 0x0fa (six 1-bits) at RD −1 or 0x305 (four 1-bits) at RD +1 |
| TelemEncoding.StepDecodes | make_wav_gen1.c:740-743 | The word sent for data ≥ 0 decodes back to `data & 0xff` |
| TelemEncoding.StepDisparity | make_wav_gen1.c:733-745 | Every word's disparity is twice the state change it causes |
| TelemEncoding.EncodeRun | make_wav_gen1.c:728-746 | A stream gives one 10-bit word per symbol and a final state of 0 or 1 |
| TelemEncoding.EncodeRunSnoc | make_wav_gen1.c:728-746 | Encoding one more symbol extends the run by one step |
| TelemEncoding.EncodeRunAppend | make_wav_gen1.c:728-746 | Encoding a concatenation is encoding the second part from the state the first part leaves |
| TelemEncoding.SumDisparity | make_wav_gen1.c:724-746 | The total disparity of n words lies in −10n..10n |
| TelemEncoding.RunStates | make_wav_gen1.c:744 | The RDs a stream passes through: one per symbol, plus the final one, each 0 or 1 after the start |
| TelemEncoding.RunStepAt | make_wav_gen1.c:733-745 | Word k of a run is the step from RD k, and RD k + 1 is that step's state |
| TelemEncoding.RunStatesEnd | make_wav_gen1.c:744 | The last RD of the trace is the state the run leaves |
| TelemEncoding.RunStepDisparity | make_wav_gen1.c:733-745 | Word k's disparity is twice the change from RD k to RD k + 1 |
| TelemEncoding.WordDisparity | make_wav_gen1.c:733-745 | A step from RD 0 or 1 has disparity twice its RD change |
| TelemEncoding.Telescope | make_wav_gen1.c:744 | Disparities that are twice consecutive RD changes add up to twice the total change |
| TelemEncoding.RunDisparity | make_wav_gen1.c:583-591 | DC balance: a stream's total disparity is twice the RD change from start to end |
| TelemEncoding.RunningSumBounded | make_wav_gen1.c:583-591 | From RD −1, the running digital sum at every word boundary is 0 or +2 |
| TelemEncoding.RunDecodes | make_wav_gen1.c:740-743 | Every data symbol of a stream decodes back from its word |
| Wav2Frame.HEADER | make_wav2.c:692 | The header initialiser `h`: 0x05, four 0x00, 0x10, two 0x00 (the same values as make_wav_gen1.c:889) |
| Wav2Frame.EncodeLoop | make_wav2.c:697-704 | The loop's `b10` words and final `rd` are those of `encode_8b10b` over the same bytes from the same RD; `rd` stays 0 or 1 (also make_wav_gen1.c:988-996) |
| Wav2Frame.RunPrefixStep | make_wav2.c:697-704 | The run of a prefix one byte longer is one more step |
| Wav2Frame.StepIsEntry | make_wav2.c:698-700 | The loop body's lookup and `encode_8b10b` agree on every byte and RD |
| Wav2Frame.EncodePayloadAndHeader | make_wav2.c:695-713 | The header loop starts from the RD the payload loop leaves, so `b10` then `h10` is the encoding of `b` then `h` from RD −1 |
| Wav2Frame.HeaderSteps | make_wav2.c:692 | The words of header bytes 0x00, 0x05 and 0x10 at each RD |
| Wav2Frame.HeaderFromRdMinus | make_wav2.c:706-713 | From RD −1 the header is sent as the eight given words and ends at RD +1 |
| Wav2Frame.HeaderFromRdPlus | make_wav2.c:706-713 | From RD +1 the header is sent as the eight given words and ends at RD −1 |
| Wav2Frame.HeaderAfterAnyPayload | make_wav2.c:695-713 | After any payload the header flips the RD and is one of those two word sequences |
| GaloisField.NN | make_wav_gen1.c:629 | `NN` = 255, the symbols of a code word and the order of alpha |
| GaloisField.A0 | make_wav_gen1.c:630 | `A0` = NN, the value standing for the log of zero (ZeroEntries, LogOfZeroOnly) |
| GaloisField.AlphaTo | make_wav_gen1.c:634-651 | `CCSDS_alpha_to[i]` is a byte; AlphaPowers and AlphaOfIndex state what the entries are |
| GaloisField.IndexOf | make_wav_gen1.c:654-671 | `CCSDS_index_of[x]` is a byte; IndexOfAlpha and AlphaOfIndex state that it inverts `CCSDS_alpha_to` |
| GaloisField.XTime | make_wav_gen1.c:635 | Multiplication by alpha stays within a byte |
| GaloisField.Add | make_wav_gen1.c:707-708 | `^` on two `unsigned char`s is a byte |
| GaloisField.AddZero | make_wav_gen1.c:701-702 | `c ^ parity[0]` is zero iff c equals parity[0]; zero is the identity |
| GaloisField.Xor87IsAdd | make_wav_gen1.c:635 | The arithmetic form of `s ^ 0x87` equals the bitwise XOR |
| GaloisField.AlphaOfIndex | make_wav_gen1.c:629-671 | `alpha_to[index_of[x]] == x` for every nonzero byte x |
| GaloisField.IndexOfAlpha | make_wav_gen1.c:629-671 | `index_of[alpha_to[i]] == i` for i in 0..254 |
| GaloisField.AlphaPowers | make_wav_gen1.c:634-651 | Each antilog entry is alpha (x, reduced by 0x87) times the previous one, so the table lists the powers of alpha over x^8+x^7+x^2+x+1 |
| GaloisField.ZeroEntries | make_wav_gen1.c:630 | `index_of[0] == A0` and `alpha_to[A0] == 0` |
| GaloisField.AlphaOrder | make_wav_gen1.c:634-651 | alpha^0 = 1 and alpha^255 = 1 |
| ReedSolomon.NP | make_wav_gen1.c:852 | `NP` = 32, the parity length `PARITY_LEN` and the register length `update_rs` uses |
| ReedSolomon.Poly | make_wav_gen1.c:676-679 | `CCSDS_poly[j]`: G0..G16 in log form, each below 255 |
| ReedSolomon.Gen | make_wav_gen1.c:673-679 | The whole degree-32 generator in log form |
| ReedSolomon.GenPalindrome | make_wav_gen1.c:673-675 | G(j) = G(32 − j) = `CCSDS_poly[j]`: the stored half determines the generator |
| ReedSolomon.Modnn | make_wav_gen1.c:682-688 | For x ≥ 0 the loop ends with x mod 255, in 0..254; below 255, x comes back unchanged |
| ReedSolomon.FoldStep | make_wav_gen1.c:684-686 | One loop iteration strictly decreases x, keeps it ≥ 0, and keeps its residue mod 255 |
| ReedSolomon.FoldKeepsResidue | make_wav_gen1.c:686 | `(y >> 8) + (y & 0xff)` is at most y and congruent to y mod 255 (256 ≡ 1) |
| ReedSolomon.Feedback | make_wav_gen1.c:701 | The feedback log is `A0` exactly when the data byte equals `parity[0]` |
| ReedSolomon.LogOfZeroOnly | make_wav_gen1.c:654-671 | Only 0 has the log `A0` |
| ReedSolomon.Tap | make_wav_gen1.c:702-717 | A zero feedback adds nothing to any cell |
| ReedSolomon.RsStep | make_wav_gen1.c:693-719 | The textbook encoder step keeps 32 byte cells |
| ReedSolomon.UpdateRs | make_wav_gen1.c:693-719 | The in-place update (half products applied twice, G16 once, memmove, last cell) leaves exactly the textbook step |
| ReedSolomon.AddProducts | make_wav_gen1.c:702-713 | The j-loop and the G16 line XOR product j into cells j and 32 − j for j in 1..15, and into cell 16 once |
| ReedSolomon.PolyProduct | make_wav_gen1.c:706 | One product `alpha_to[modnn(feedback + poly[j])]` serves both cells j − 1 and 31 − j of the shifted register |
| ReedSolomon.ProductAt | make_wav_gen1.c:706 | The reduced exponent is in range and its antilog is that shared product |
| ReedSolomon.TapsFromHalf | make_wav_gen1.c:703-712 | The textbook products are the palindromic half products |
| ReedSolomon.PairStep | make_wav_gen1.c:707-708 | One loop iteration adds pair j |
| ReedSolomon.MiddleStep | make_wav_gen1.c:711-712 | The G16 line adds the middle term |
| ReedSolomon.NoFeedbackNoTaps | make_wav_gen1.c:702 | With feedback `A0`, skipping the loop equals adding zero products |
| ReedSolomon.TapFromHalf | make_wav_gen1.c:706 | Each half product equals the textbook product for both cells it serves |
| ReedSolomon.LastTap | make_wav_gen1.c:717 | `alpha_to[feedback]` is the G0 product, zero when the feedback is `A0` |
| ReedSolomon.StepFromTaps | make_wav_gen1.c:715-717 | Products added, then shifted, with the last cell set, equals the textbook shift-and-add |
| ReedSolomon.NoFeedbackIsShift | make_wav_gen1.c:701-717 | The step is exactly a one-byte left shift with 0 appended iff c == parity[0] |
| ReedSolomon.PowerNonzero | make_wav_gen1.c:634-651 | alpha^i is never zero for i < 255 |
| ReedSolomon.RsRun | make_wav_gen1.c:944-960 | Feeding a byte stream keeps a register |
| ReedSolomon.Cleared | make_wav_gen1.c:694 | The cleared register is 32 zero bytes |
| ReedSolomon.ZeroDataZeroParity | make_wav_gen1.c:694 | A cleared register fed only zero bytes stays cleared |
| ReedSolomon.RsRunAppend | make_wav_gen1.c:944-960 | Feeding a concatenation is feeding the parts in turn |
| TelemetryFields.FieldA | make_wav_gen1.c:1274-1279 | The 12-bit value read back from an `encodeA` slot is below 0x1000 |
| TelemetryFields.FieldB | make_wav_gen1.c:1281-1286 | The 12-bit value read back from an `encodeB` slot is below 0x1000 |
| TelemetryFields.EncodedA | make_wav_gen1.c:1274-1279 | `encodeA` changes only cells index and index + 1, and leaves a byte in cell index |
| TelemetryFields.EncodedB | make_wav_gen1.c:1281-1286 | `encodeB` as written changes only cells index and index + 1 |
| TelemetryFields.EncodedBMasked | make_wav_gen1.c:1281-1286 | The masked `encodeB` changes only cells index and index + 1 |
| TelemetryFields.EncodeA | make_wav_gen1.c:1274-1279 | The in-place `encodeA` leaves the array equal to `EncodedA` of its old contents |
| TelemetryFields.EncodeB | make_wav_gen1.c:1281-1286 | The in-place `encodeB`, as written, leaves the array equal to `EncodedB` of its old contents |
| TelemetryFields.EncodeBMasked | make_wav_gen1.c:1281-1286 | The corrected in-place `encodeB` leaves the array equal to `EncodedBMasked` of its old contents |
| TelemetryFields.EncodeARoundTrip | make_wav_gen1.c:1274-1279 | A 12-bit value written by `encodeA` reads back, and the upper bits of the next cell are kept |
| TelemetryFields.EncodeBMaskedRoundTrip | make_wav_gen1.c:1281-1286 | A 12-bit value written by the masked `encodeB` reads back, and the low nibble of its first cell is kept |
| TelemetryFields.EncodeBMaskedKeepsBytes | make_wav_gen1.c:1281-1286 | The masked `encodeB` keeps every cell a byte |
| TelemetryFields.EncodeBLowBytes | make_wav_gen1.c:1281-1286 | The as-written and masked `encodeB` agree on the low byte of every cell |
| TelemetryFields.EncodeBSpills | make_wav_gen1.c:1283 | For 0x10 ≤ val < 0x1000, `encodeB` as written leaves cell index at 0x100 or above |
| TelemetryFields.MainNegXvSpills | make_wav_gen1.c:907-916 | `encodeA(b, 18, 295)` then `encodeB(b, 19, 45)` leaves b[19] = 0x2d1, not a byte; masked it is 0xd1 |
| TelemetryFields.PackPair | make_wav_gen1.c:907-916 | A pair of 12-bit values packed into three cleared cells by `encodeA` and the masked `encodeB` reads back, and every cell stays a byte |
| TelemetryFields.TwosToInt | make_wav_gen1.c:1288-1295 | The result is val or val − 2^len, the latter exactly when bit len − 1 is set; for a len-bit pattern it is the signed value in [−2^(len−1), 2^(len−1)) with the same low len bits |
| TelemetryFields.TwosToIntBelowIntMin | make_wav_gen1.c:1292 | For len = 30 and val = −2^31 + 2^29, where C's subtraction overflows `int`, the model's result −2^31 − 2^29 is outside the `int` range |
| TelemetryFields.TwosRoundTrip | make_wav_gen1.c:1288-1295 | Every value in [−2^(len−1), 2^(len−1)), reduced to its len-bit pattern, is sign-extended back to itself |

## Left out

- **Waveform and file I/O.**
  - `write_wave`, `write_to_buffer`, `write_little_endian`, `write_wav` and all of make_wav.c write a WAV file from floating-point sine samples. They are I/O and floating point.
  - The per-bit sample serialisation inside those loops is left out with them.
- **Randomness.** `d_random`, `srand` and `rand` are left out.
- **Frame assembly in `main`.** This covers filling `b` and `h`, interleaving into `rs_frame` and `data8`, the "skip last one for BPSK" case, and all `printf` tracing.
  - The encode loops themselves are modelled by `Wav2Frame`.
  - The RS feed of `main` is modelled only as `ReedSolomon.RsRun`.
- **`printAll10bwords`.** It only prints.
- **`assert(parity != NULL)` and `assert(state != NULL)`.** Dafny references are never null, so these need no precondition.
- `NP` is 32. Its definition is in make_wav.h, which is not part of this model. 32 is the value the comments of `update_rs` and `PARITY_LEN` give.
- Lookup8b10b.Decode: returns the table index 0..255. C's `(char)i` is the same bit pattern, but reads as negative for i ≥ 128 where `char` is signed; that sign is not modelled.
- Lookup8b10b.Decode: the `printf` calls of make_wav2.c's and make_wav_gen1.c's flip branch are left out. The search is the same in all three files.
- TelemEncoding.EncodeSymbol: `~SYNC` is the 32-bit unsigned complement. Only its low ten bits are returned, and only those are used by `Step`.
- TelemetryFields.EncodeA: the constant return value 0 of `encodeA` and `encodeB` is dropped.
- TelemetryFields.EncodeB: `>>` on `int` is modelled as a logical shift. This agrees with C's arithmetic shift on the low 8 and 16 bits that are kept.
- TelemetryFields.TwosToInt: `len` is limited to 1..30, and `val` to the 32-bit `int` range. Inside that range the model is still total where C is not.
  - For `val` in [INT_MIN, INT_MIN + 2^len) with bit `len` − 1 set, C's `val - (1 << len)` overflows `int` (undefined behaviour). The model returns the exact difference, below INT_MIN, and its ensures promise that value; TelemetryFields.TwosToIntBelowIntMin exhibits such an input.
  - For `len` = 31, `1 << len` overflows `int` in C (undefined behaviour), so it is not modelled.
  - For `len` = 32, `1 << 32` is undefined behaviour, so it is not modelled.
- GaloisField.IndexOf: `CCSDS_index_of` is only read at `c ^ parity[0]`, a byte, so the model takes only bytes.

## Findings

| source | as written | input that shows it | evidently intended | confidence | as-written member | corrected member |
|---|---|---|---|---|---|---|
| make_wav_gen1.c:1283 | `b[index] = b[index] \| (val << 4)` ORs the whole shifted 12-bit value into a cell meant to hold a byte. The bits above 0xff leak into the `short` cell. That cell is copied into `data8` and then used as a column of `Encode_8b10b[rd][...]` at make_wav_gen1.c:990-991, which reads past the 256 columns. | `main` calls `encodeA(b, 18, 295)` and then `encodeB(b, 19, 45)` (negXv = 45). b[19] becomes 0x2d1. negYv = 68 and negZv = 78 spill the same way. | `b[index] \| ((val << 4) & 0xf0)`, so each cell stays a byte and the value reads back through bits 4..7 and the next cell | not executed | TelemetryFields.MainNegXvSpills, TelemetryFields.EncodeBSpills | TelemetryFields.EncodeBMasked, TelemetryFields.PackPair |
| decoder.c:577-578 | `decode` returns 0 when no entry matches. The `throw new LookupException()` is commented out. | `decode(0x0fa, false)`, the comma, and `decode(0x274, false)`, byte 0x00 at RD −1, both return 0 | A miss is reported as an error distinct from every byte | not executed | Lookup8b10b.DecodeMissLooksLikeByteZero | Lookup8b10b.DecodeOption, Lookup8b10b.DecodeOptionRoundTrip |
