/**
 * The telemetry bit-packing helpers of make_wav_gen1.c: `encodeA` and
 * `encodeB`, which pack 12-bit telemetry values into the payload array `b`
 * of C `short`s, and `twosToInt`, which reads a `len`-bit two's complement
 * field as a signed integer.
 *
 * A `short` cell is held as its 16-bit pattern (`bv16`) and the `int` value
 * as its 32-bit two's complement pattern (`bv32`). Storing an `int` result
 * into a `short` keeps its low 16 bits. The low 16 bits of `val >> 8` and the
 * low 8 bits of `val >> 4` are the same for an arithmetic and a logical
 * shift, so the logical `>>` of `bv32` models both.
 *
 * Two 12-bit values share three cells: `encodeA` at `index` puts the low byte
 * of its value in cell `index` and the high nibble in the low nibble of cell
 * `index + 1`; `encodeB` at `index + 1` puts the low nibble of its value in
 * the high nibble of cell `index + 1` and its high byte in cell `index + 2`.
 */
module TelemetryFields {
  import opened Powers

  /** Every cell holds a byte, as the payload cells are meant to. */
  predicate ByteCells(s: seq<bv16>)
  {
    forall k :: 0 <= k < |s| ==> s[k] < 0x100
  }

  /** The 12-bit value `encodeA` packed at `index`: the byte there and the low nibble of the next. */
  function FieldA(s: seq<bv16>, index: int): (v: bv32)
    requires 0 <= index && index + 1 < |s|
    ensures v < 0x1000
  {
    (s[index] & 0xff) as bv32 | (((s[index + 1] & 0xf) as bv32) << 8)
  }

  /** The 12-bit value `encodeB` packed at `index`: the high nibble of that byte and the next byte. */
  function FieldB(s: seq<bv16>, index: int): (v: bv32)
    requires 0 <= index && index + 1 < |s|
    ensures v < 0x1000
  {
    ((s[index] >> 4) & 0xf) as bv32 | (((s[index + 1] & 0xff) as bv32) << 4)
  }

  /**
   * The cells after `encodeA(b, index, val)`: `b[index] = val & 0xff` and
   * `b[index + 1] = b[index + 1] | (val >> 8)`, each narrowed to a `short`.
   * No other cell changes.
   */
  function EncodedA(s: seq<bv16>, index: int, val: bv32): (r: seq<bv16>)
    requires 0 <= index && index + 1 < |s|
    ensures |r| == |s|
    ensures forall k :: 0 <= k < |s| && k != index && k != index + 1 ==> r[k] == s[k]
    ensures r[index] < 0x100
  {
    s[index := (val & 0xff) as bv16][index + 1 := s[index + 1] | ((val >> 8) & 0xffff) as bv16]
  }

  /**
   * The cells after `encodeB(b, index, val)` as written:
   * `b[index] = b[index] | (val << 4)`, narrowed to a `short`, and
   * `b[index + 1] = b[index + 1] | ((val >> 4) & 0xff)`. No other cell changes.
   */
  function EncodedB(s: seq<bv16>, index: int, val: bv32): (r: seq<bv16>)
    requires 0 <= index && index + 1 < |s|
    ensures |r| == |s|
    ensures forall k :: 0 <= k < |s| && k != index && k != index + 1 ==> r[k] == s[k]
  {
    s[index := s[index] | ((val << 4) & 0xffff) as bv16][index + 1 := s[index + 1] | ((val >> 4) & 0xff) as bv16]
  }

  /**
   * `encodeB` with the shifted value masked to the high nibble of the byte,
   * `b[index] = b[index] | ((val << 4) & 0xf0)`: the cell stays a byte.
   */
  function EncodedBMasked(s: seq<bv16>, index: int, val: bv32): (r: seq<bv16>)
    requires 0 <= index && index + 1 < |s|
    ensures |r| == |s|
    ensures forall k :: 0 <= k < |s| && k != index && k != index + 1 ==> r[k] == s[k]
  {
    s[index := s[index] | ((val << 4) & 0xf0) as bv16][index + 1 := s[index + 1] | ((val >> 4) & 0xff) as bv16]
  }

  /** `encodeA(b, index, val)`, which always returns 0. */
  method EncodeA(b: array<bv16>, index: int, val: bv32)
    requires 0 <= index && index + 1 < b.Length
    modifies b
    ensures b[..] == EncodedA(old(b[..]), index, val)
  {
    b[index] := (val & 0xff) as bv16;
    b[index + 1] := b[index + 1] | ((val >> 8) & 0xffff) as bv16;
  }

  /** `encodeB(b, index, val)` as written, which always returns 0. */
  method EncodeB(b: array<bv16>, index: int, val: bv32)
    requires 0 <= index && index + 1 < b.Length
    modifies b
    ensures b[..] == EncodedB(old(b[..]), index, val)
  {
    b[index] := b[index] | ((val << 4) & 0xffff) as bv16;
    b[index + 1] := b[index + 1] | ((val >> 4) & 0xff) as bv16;
  }

  /** `encodeB` with the high-nibble mask, keeping every cell a byte. */
  method EncodeBMasked(b: array<bv16>, index: int, val: bv32)
    requires 0 <= index && index + 1 < b.Length
    modifies b
    ensures b[..] == EncodedBMasked(old(b[..]), index, val)
  {
    var low := b[index] | ((val << 4) & 0xf0) as bv16;
    var high := b[index + 1] | ((val >> 4) & 0xff) as bv16;
    b[index] := low;
    b[index + 1] := high;
  }

  /**
   * A 12-bit value packed by `encodeA` over a clear low nibble reads back
   * unchanged, and the high nibble of the shared cell, where `encodeB` puts
   * its value, is left as it was.
   */
  lemma EncodeARoundTrip(s: seq<bv16>, index: int, val: bv32)
    requires 0 <= index && index + 1 < |s|
    requires val < 0x1000 && s[index + 1] & 0xf == 0
    ensures FieldA(EncodedA(s, index, val), index) == val
    ensures EncodedA(s, index, val)[index + 1] & 0xfff0 == s[index + 1] & 0xfff0
  {
  }

  /**
   * A 12-bit value packed by the masked `encodeB` over clear bits reads back
   * unchanged, and the low nibble of the first cell, where `encodeA` put its
   * high nibble, is left as it was.
   */
  lemma EncodeBMaskedRoundTrip(s: seq<bv16>, index: int, val: bv32)
    requires 0 <= index && index + 1 < |s|
    requires val < 0x1000 && s[index] & 0xf0 == 0 && s[index + 1] & 0xff == 0
    ensures FieldB(EncodedBMasked(s, index, val), index) == val
    ensures EncodedBMasked(s, index, val)[index] & 0xf == s[index] & 0xf
  {
  }

  /** The masked `encodeB` keeps byte cells bytes, so each is a valid column of the 8b/10b table. */
  lemma EncodeBMaskedKeepsBytes(s: seq<bv16>, index: int, val: bv32)
    requires 0 <= index && index + 1 < |s|
    requires ByteCells(s)
    ensures ByteCells(EncodedBMasked(s, index, val))
  {
  }

  /**
   * The written and the masked `encodeB` agree on the low byte of every
   * cell: they differ only by the bits the written one spills above bit 7.
   */
  lemma EncodeBLowBytes(s: seq<bv16>, index: int, val: bv32)
    requires 0 <= index && index + 1 < |s|
    ensures forall k :: 0 <= k < |s| ==>
      EncodedB(s, index, val)[k] & 0xff == EncodedBMasked(s, index, val)[k] & 0xff
  {
  }

  /**
   * As written, `encodeB` leaves a cell that is no longer a byte whenever the
   * value has a bit above its low nibble, the usual case for a 12-bit field.
   */
  lemma EncodeBSpills(s: seq<bv16>, index: int, val: bv32)
    requires 0 <= index && index + 1 < |s|
    requires 0x10 <= val < 0x1000
    ensures EncodedB(s, index, val)[index] >= 0x100
  {
  }

  /**
   * `main` packs posXv = 295 with `encodeA` at cell 18 and negXv = 45 with
   * `encodeB` at cell 19. Cell 18 starts at 0x04, but `encodeA` assigns it
   * rather than or-ing into it; cells 19 and 20 start at zero. Cell 19
   * becomes 0x2d1, which the later 8b/10b step uses as a column index of a
   * 256-column table, while the masked version leaves 0xd1.
   */
  lemma MainNegXvSpills(s: seq<bv16>)
    requires |s| == 3 && s[1] == 0 && s[2] == 0
    ensures EncodedB(EncodedA(s, 0, 295), 1, 45)[1] == 0x2d1
    ensures EncodedBMasked(EncodedA(s, 0, 295), 1, 45)[1] == 0xd1
    ensures !ByteCells(EncodedB(EncodedA(s, 0, 295), 1, 45))
  {
  }

  /**
   * Two 12-bit values packed side by side, `encodeA` at `index` and the
   * masked `encodeB` at `index + 1`, into three clear byte cells read back
   * unchanged from the same three cells, which stay bytes.
   */
  lemma PackPair(s: seq<bv16>, index: int, x: bv32, y: bv32)
    requires 0 <= index && index + 2 < |s|
    requires ByteCells(s)
    requires s[index] == 0 && s[index + 1] == 0 && s[index + 2] == 0
    requires x < 0x1000 && y < 0x1000
    ensures FieldA(EncodedBMasked(EncodedA(s, index, x), index + 1, y), index) == x
    ensures FieldB(EncodedBMasked(EncodedA(s, index, x), index + 1, y), index + 1) == y
    ensures ByteCells(EncodedBMasked(EncodedA(s, index, x), index + 1, y))
  {
    var a := EncodedA(s, index, x);
    EncodeARoundTrip(s, index, x);
    EncodeBMaskedRoundTrip(a, index + 1, y);
    EncodeBMaskedKeepsBytes(a, index + 1, y);
  }

  /** The `int` range of C. */
  predicate Int32(v: int)
  {
    -0x8000_0000 <= v < 0x8000_0000
  }

  /**
   * `twosToInt(val, len)`: when bit `len - 1` of `val` is set, `val - 2^len`,
   * else `val`. Bit `len - 1` of the two's complement pattern is set exactly
   * when `val` modulo `2^len` is at least `2^(len - 1)`. For a `len`-bit
   * pattern, the result is the signed number that pattern denotes.
   */
  function TwosToInt(val: int, len: int): (r: int)
    requires Int32(val)
    requires 1 <= len <= 30
    ensures r == val || r == val - Pow2(len)
    ensures r == val - Pow2(len) <==> val % Pow2(len) >= Pow2(len - 1)
    ensures 0 <= val < Pow2(len) ==>
      -(Pow2(len - 1) as int) <= r < Pow2(len - 1) && r % Pow2(len) == val
  {
    SignedField(val, Pow2(len - 1), Pow2(len));
    if val % Pow2(len) >= Pow2(len - 1) then val - Pow2(len) else val
  }

  /**
   * For a pattern below m = 2p: its remainder is itself, it is at least p
   * exactly when the sign bit is set, and subtracting m then gives a value in
   * [-p, 0) with the same remainder.
   */
  lemma SignedField(val: int, p: int, m: int)
    requires 1 <= p && m == 2 * p
    ensures 0 <= val < m ==> val % m == val
    ensures p <= val < m ==> -p <= val - m < 0 && (val - m) % m == val
  {
    if 0 <= val < m {
      ModSmall(val, m);
      ModWrap(val, m);
    }
  }

  /** A residue already in range is its own remainder. */
  lemma ModSmall(x: int, m: int)
    requires 0 <= x < m
    ensures x % m == x
  {
  }

  /** One modulus below a value in range has the same remainder. */
  lemma ModWrap(x: int, m: int)
    requires 0 <= x < m
    ensures (x - m) % m == x
  {
  }

  /** The widest field `twosToInt` accepts is 2^30 values wide. */
  lemma Pow2Thirty()
    ensures Pow2(30) == 0x4000_0000
  {
    assert Pow2(10) == 0x400;
    assert Pow2(20) == 0x10_0000;
  }

  /**
   * Near INT_MIN, C's `val - (1 << len)` leaves the `int` range, which is
   * undefined behaviour; the model returns the exact difference instead. With
   * len = 30 and val = -2^31 + 2^29, bit 29 is set and the result is
   * -2^31 - 2^29, below INT_MIN.
   */
  lemma TwosToIntBelowIntMin()
    ensures Int32(-0x8000_0000 + 0x2000_0000)
    ensures TwosToInt(-0x8000_0000 + 0x2000_0000, 30) == -0x8000_0000 - 0x2000_0000
    ensures !Int32(TwosToInt(-0x8000_0000 + 0x2000_0000, 30))
  {
    Pow2Thirty();
  }

  /**
   * Writing a signed value in `len` bits of two's complement and reading it
   * back with `twosToInt` gives the value again.
   */
  lemma TwosRoundTrip(x: int, len: int)
    requires 1 <= len <= 30
    requires -(Pow2(len - 1) as int) <= x < Pow2(len - 1)
    ensures Int32(x % Pow2(len))
    ensures TwosToInt(x % Pow2(len), len) == x
  {
    var m := Pow2(len);
    var p := Pow2(len - 1);
    assert m == 2 * p;
    Pow2Mono(len, 30);
    Pow2Thirty();
    if x >= 0 {
      ModSmall(x, m);
    } else {
      ModWrap(x + m, m);
    }
  }
}
