/**
 * The two encode loops of `main` in make_wav2.c: the payload `b` and then the
 * header `h` are turned into 10-bit channel words `b10` and `h10`, looking up
 * `Encode_8b10b[rd][byte]` directly and carrying the running disparity `rd`
 * from the first loop into the second.
 */
module Wav2Frame {
  import opened Table8b10b
  import opened TelemEncoding

  /** The header initialiser `h[HEADER_LEN]` of make_wav2.c. */
  const HEADER: seq<int> := [0x05, 0x00, 0x00, 0x00, 0x00, 0x10, 0x00, 0x00]

  /** Every element is a byte value, usable as a column of the table. */
  predicate Bytes(s: seq<int>)
  {
    forall k :: 0 <= k < |s| ==> 0 <= s[k] < 256
  }

  /**
   * One loop: `out[i] = Encode_8b10b[rd][in[i]] & 0x3ff`, then `rd` becomes
   * bit 10 of that entry; the words are those of `encode_8b10b` over the same
   * bytes from the same RD.
   */
  method EncodeLoop(input: array<int>, rd0: int) returns (out: array<int>, rd: int)
    requires rd0 == 0 || rd0 == 1
    requires Bytes(input[..])
    ensures fresh(out)
    ensures out[..] == EncodeRun(rd0, input[..]).0
    ensures rd == EncodeRun(rd0, input[..]).1
    ensures rd == 0 || rd == 1
  {
    out := new int[input.Length];
    rd := rd0;
    var i := 0;
    while i < input.Length
      invariant 0 <= i <= input.Length
      invariant rd == 0 || rd == 1
      invariant out[..i] == EncodeRun(rd0, input[..i]).0
      invariant rd == EncodeRun(rd0, input[..i]).1
    {
      var e := Encode8b10b(rd, input[i]);
      out[i] := Word(e);
      var nrd := NextRd(e);
      RunPrefixStep(rd0, input[..], i);
      StepIsEntry(rd, input[i]);
      assert out[..i + 1] == out[..i] + [out[i]];
      rd := nrd;
      i := i + 1;
    }
    assert input[..] == input[..input.Length];
    assert out[..] == out[..input.Length];
  }

  /** A prefix one symbol longer is the shorter prefix's run and one more step. */
  lemma RunPrefixStep(rd0: int, s: seq<int>, i: int)
    requires 0 <= i < |s|
    ensures EncodeRun(rd0, s[..i + 1]) ==
      (EncodeRun(rd0, s[..i]).0 + [Step(EncodeRun(rd0, s[..i]).1, s[i]).word],
       Step(EncodeRun(rd0, s[..i]).1, s[i]).state)
  {
    assert s[..i + 1] == s[..i] + [s[i]];
    EncodeRunSnoc(rd0, s[..i], s[i]);
  }

  /** For a byte and an RD of 0 or 1, the encoder's step is the table lookup the loop does. */
  lemma StepIsEntry(rd: int, byte: int)
    requires rd == 0 || rd == 1
    requires 0 <= byte < 256
    ensures Step(rd, byte) == Symbol(Word(Encode8b10b(rd, byte)), NextRd(Encode8b10b(rd, byte)))
  {
    assert rd % 2 == rd && byte % 256 == byte;
  }

  /**
   * Both loops of `main`: the payload from RD = -1, then the header from the
   * RD the payload left. Together they are one stream over payload and header.
   */
  method EncodePayloadAndHeader(b: array<int>, h: array<int>) returns (b10: array<int>, h10: array<int>, rd: int)
    requires Bytes(b[..]) && Bytes(h[..])
    ensures fresh(b10) && fresh(h10)
    ensures b10[..] == EncodeRun(0, b[..]).0
    ensures h10[..] == EncodeRun(EncodeRun(0, b[..]).1, h[..]).0
    ensures b10[..] + h10[..] == EncodeRun(0, b[..] + h[..]).0
    ensures rd == EncodeRun(0, b[..] + h[..]).1
    ensures rd == 0 || rd == 1
  {
    var rdb;
    b10, rdb := EncodeLoop(b, 0);
    h10, rd := EncodeLoop(h, rdb);
    EncodeRunAppend(0, b[..], h[..]);
  }

  /** The table steps the header's bytes take, from either RD. */
  lemma HeaderSteps()
    ensures Step(0, 0x00) == Symbol(0x274, 0)
    ensures Step(0, 0x05) == Symbol(0x29b, 1)
    ensures Step(0, 0x10) == Symbol(0x1b4, 0)
    ensures Step(1, 0x00) == Symbol(0x18b, 1)
    ensures Step(1, 0x05) == Symbol(0x294, 0)
    ensures Step(1, 0x10) == Symbol(0x24b, 1)
  {
  }

  /** The words HeaderFromRdMinus ends with, from position 4 of the header. */
  lemma HeaderFromRdMinusFrom4(h: seq<int>)
    requires h == HEADER
    ensures EncodeRun(1, h[4..]) == ([0x18b, 0x24b, 0x18b, 0x18b], 1)
  {
    HeaderSteps();
    var r8 := EncodeRun(1, h[8..]);
    assert h[8..] == [];
    assert h[7..][0] == h[7] == 0x00;
    assert h[7..][1..] == h[8..];
    var r7 := EncodeRun(1, h[7..]);
    assert r7 == ([0x18b] + r8.0, r8.1);
    assert h[6..][0] == h[6] == 0x00;
    assert h[6..][1..] == h[7..];
    var r6 := EncodeRun(1, h[6..]);
    assert r6 == ([0x18b] + r7.0, r7.1);
    assert h[5..][0] == h[5] == 0x10;
    assert h[5..][1..] == h[6..];
    var r5 := EncodeRun(1, h[5..]);
    assert r5 == ([0x24b] + r6.0, r6.1);
    assert h[4..][0] == h[4] == 0x00;
    assert h[4..][1..] == h[5..];
    var r4 := EncodeRun(1, h[4..]);
    assert r4 == ([0x18b] + r5.0, r5.1);
    assert r4.0 == [0x18b, 0x24b, 0x18b, 0x18b];
  }

  /**
   * The header's words from RD = -1: it opens with 0x29b, carries the FCS
   * placeholder 0x18b for every zero byte, and leaves RD = +1.
   */
  lemma HeaderFromRdMinus(h: seq<int>)
    requires h == HEADER
    ensures EncodeRun(0, h) == ([0x29b, 0x18b, 0x18b, 0x18b, 0x18b, 0x24b, 0x18b, 0x18b], 1)
  {
    HeaderSteps();
    HeaderFromRdMinusFrom4(h);
    var r4 := EncodeRun(1, h[4..]);
    assert h[3..][0] == h[3] == 0x00;
    assert h[3..][1..] == h[4..];
    var r3 := EncodeRun(1, h[3..]);
    assert r3 == ([0x18b] + r4.0, r4.1);
    assert h[2..][0] == h[2] == 0x00;
    assert h[2..][1..] == h[3..];
    var r2 := EncodeRun(1, h[2..]);
    assert r2 == ([0x18b] + r3.0, r3.1);
    assert h[1..][0] == h[1] == 0x00;
    assert h[1..][1..] == h[2..];
    var r1 := EncodeRun(1, h[1..]);
    assert r1 == ([0x18b] + r2.0, r2.1);
    assert h[0..][0] == h[0] == 0x05;
    assert h[0..][1..] == h[1..];
    var r0 := EncodeRun(0, h[0..]);
    assert r0 == ([0x29b] + r1.0, r1.1);
    assert h[0..] == h;
    assert r0.0 == [0x29b, 0x18b, 0x18b, 0x18b, 0x18b, 0x24b, 0x18b, 0x18b];
  }

  /** The words HeaderFromRdPlus ends with, from position 4 of the header. */
  lemma HeaderFromRdPlusFrom4(h: seq<int>)
    requires h == HEADER
    ensures EncodeRun(0, h[4..]) == ([0x274, 0x1b4, 0x274, 0x274], 0)
  {
    HeaderSteps();
    var r8 := EncodeRun(0, h[8..]);
    assert h[8..] == [];
    assert h[7..][0] == h[7] == 0x00;
    assert h[7..][1..] == h[8..];
    var r7 := EncodeRun(0, h[7..]);
    assert r7 == ([0x274] + r8.0, r8.1);
    assert h[6..][0] == h[6] == 0x00;
    assert h[6..][1..] == h[7..];
    var r6 := EncodeRun(0, h[6..]);
    assert r6 == ([0x274] + r7.0, r7.1);
    assert h[5..][0] == h[5] == 0x10;
    assert h[5..][1..] == h[6..];
    var r5 := EncodeRun(0, h[5..]);
    assert r5 == ([0x1b4] + r6.0, r6.1);
    assert h[4..][0] == h[4] == 0x00;
    assert h[4..][1..] == h[5..];
    var r4 := EncodeRun(0, h[4..]);
    assert r4 == ([0x274] + r5.0, r5.1);
    assert r4.0 == [0x274, 0x1b4, 0x274, 0x274];
  }

  /** The header's words from RD = +1, which leave RD = -1. */
  lemma HeaderFromRdPlus(h: seq<int>)
    requires h == HEADER
    ensures EncodeRun(1, h) == ([0x294, 0x274, 0x274, 0x274, 0x274, 0x1b4, 0x274, 0x274], 0)
  {
    HeaderSteps();
    HeaderFromRdPlusFrom4(h);
    var r4 := EncodeRun(0, h[4..]);
    assert h[3..][0] == h[3] == 0x00;
    assert h[3..][1..] == h[4..];
    var r3 := EncodeRun(0, h[3..]);
    assert r3 == ([0x274] + r4.0, r4.1);
    assert h[2..][0] == h[2] == 0x00;
    assert h[2..][1..] == h[3..];
    var r2 := EncodeRun(0, h[2..]);
    assert r2 == ([0x274] + r3.0, r3.1);
    assert h[1..][0] == h[1] == 0x00;
    assert h[1..][1..] == h[2..];
    var r1 := EncodeRun(0, h[1..]);
    assert r1 == ([0x274] + r2.0, r2.1);
    assert h[0..][0] == h[0] == 0x05;
    assert h[0..][1..] == h[1..];
    var r0 := EncodeRun(1, h[0..]);
    assert r0 == ([0x294] + r1.0, r1.1);
    assert h[0..] == h;
    assert r0.0 == [0x294, 0x274, 0x274, 0x274, 0x274, 0x1b4, 0x274, 0x274];
  }

  /**
   * Whatever RD the payload leaves, the header words `h10` are one of the two
   * fixed vectors, and the RD after the header is the opposite of the RD
   * before it.
   */
  lemma HeaderAfterAnyPayload(b: seq<int>)
    ensures var rd := EncodeRun(0, b).1;
      EncodeRun(rd, HEADER).1 == 1 - rd % 2 &&
      EncodeRun(rd, HEADER).0 ==
        if rd % 2 == 0 then [0x29b, 0x18b, 0x18b, 0x18b, 0x18b, 0x24b, 0x18b, 0x18b]
        else [0x294, 0x274, 0x274, 0x274, 0x274, 0x1b4, 0x274, 0x274]
  {
    var rd := EncodeRun(0, b).1;
    if |b| == 0 {
      HeaderFromRdMinus(HEADER);
    } else if rd == 0 {
      HeaderFromRdMinus(HEADER);
    } else {
      HeaderFromRdPlus(HEADER);
    }
  }
}
