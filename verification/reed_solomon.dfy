/**
 * The Reed-Solomon parity generator of make_wav_gen1.c: `modnn` and
 * `update_rs`, the (255,223) CCSDS 131.0-B code with 32 check symbols, kept
 * as a 32-byte shift register that every data byte updates in place.
 */
module ReedSolomon {
  import opened GaloisField

  /** `NP`, the number of parity bytes (`PARITY_LEN`). */
  const NP := 32

  /**
   * `CCSDS_poly[j]`: the generator coefficients G0 .. G16 in log form. The
   * source keeps only this half; G(32 - j) = G(j).
   */
  function Poly(j: int): (g: int)
    requires 0 <= j <= 16
    ensures 0 <= g < 255
  {
    match j
    case 0 => 0   case 1 => 249  case 2 => 59   case 3 => 66
    case 4 => 4   case 5 => 43   case 6 => 126  case 7 => 251
    case 8 => 97  case 9 => 30   case 10 => 3   case 11 => 213
    case 12 => 50 case 13 => 66  case 14 => 170 case 15 => 5
    case _ => 24
  }

  /**
   * The whole generator polynomial of degree 32, G0 .. G32, in log form, as
   * an encoder without the palindrome shortcut indexes it.
   */
  function Gen(k: int): (g: int)
    requires 0 <= k <= 32
    ensures 0 <= g < 255
  {
    match k
    case 0 => 0    case 1 => 249  case 2 => 59   case 3 => 66
    case 4 => 4    case 5 => 43   case 6 => 126  case 7 => 251
    case 8 => 97   case 9 => 30   case 10 => 3   case 11 => 213
    case 12 => 50  case 13 => 66  case 14 => 170 case 15 => 5
    case 16 => 24  case 17 => 5   case 18 => 170 case 19 => 66
    case 20 => 50  case 21 => 213 case 22 => 3   case 23 => 30
    case 24 => 97  case 25 => 251 case 26 => 126 case 27 => 43
    case 28 => 4   case 29 => 66  case 30 => 59  case 31 => 249
    case _ => 0
  }

  /**
   * The generator is palindromic, so its stored half determines it:
   * G(j) = G(32 - j) = `CCSDS_poly[j]` for j = 0 .. 16.
   */
  lemma GenPalindrome()
    ensures forall j :: 0 <= j <= 16 ==> Gen(j) == Poly(j) && Gen(32 - j) == Poly(j)
  {
  }

  /**
   * `modnn(x)`: while x >= 255, take 255 away and fold the high byte onto the
   * low one (256 = 1 modulo 255). Below 255, x comes back unchanged.
   */
  method Modnn(x: int) returns (r: int)
    ensures x >= 0 ==> r == x % NN
    ensures x < NN ==> r == x
    ensures x >= 0 ==> 0 <= r < NN
  {
    r := x;
    while r >= NN
      invariant x >= 0 ==> r >= 0 && r % NN == x % NN
      invariant x < NN ==> r == x
      decreases r
    {
      FoldStep(r);
      r := r - NN;
      r := r / 256 + r % 256;
    }
  }

  /**
   * One pass of the loop of `modnn` on r >= 255: taking 255 away and folding
   * the high byte keeps the residue and makes r smaller.
   */
  lemma FoldStep(r: int)
    requires r >= NN
    ensures 0 <= (r - NN) / 256 + (r - NN) % 256 < r
    ensures ((r - NN) / 256 + (r - NN) % 256) % NN == r % NN
  {
    var y := r - NN;
    FoldKeepsResidue(y);
    ResidueDropsMultiple(y, 1);
  }

  /** Folding the high byte of a non-negative number keeps its residue and does not grow it. */
  lemma FoldKeepsResidue(y: int)
    requires y >= 0
    ensures 0 <= y / 256 + y % 256 <= y
    ensures (y / 256 + y % 256) % NN == y % NN
  {
    var q, s := y / 256, y % 256;
    assert y == NN * q + (q + s);
    ResidueDropsMultiple(q + s, q);
  }

  /** Adding a multiple of 255 does not change the residue modulo 255. */
  lemma {:induction false} ResidueDropsMultiple(a: int, q: nat)
    ensures (NN * q + a) % NN == a % NN
    decreases q
  {
    if q > 0 {
      ResidueDropsMultiple(a, q - 1);
      assert NN * q + a == NN * (q - 1) + a + NN;
    }
  }

  /** A register: `NP` cells, each an `unsigned char`. */
  predicate Register(p: seq<int>)
  {
    |p| == NP && forall k :: 0 <= k < |p| ==> 0 <= p[k] < 256
  }

  /**
   * The log of the feedback symbol `c ^ parity[0]`; it is `A0` exactly when
   * the data byte equals the register's head.
   */
  function Feedback(head: int, c: int): (fb: int)
    requires 0 <= head < 256 && 0 <= c < 256
    ensures 0 <= fb < 256
    ensures (fb == A0) == (c == head)
  {
    AddZero(c, head);
    LogOfZeroOnly(Add(c, head));
    IndexOf(Add(c, head))
  }

  /** Only zero has the log `A0`. */
  lemma LogOfZeroOnly(x: int)
    requires 0 <= x < 256
    ensures (IndexOf(x) == A0) == (x == 0)
  {
    AlphaOfIndex();
  }

  /** The product alpha^a * alpha^b = alpha^((a + b) mod 255). */
  function Times(a: int, b: int): (t: int)
    requires 0 <= a < NN && 0 <= b < NN
    ensures 0 <= t < 256
  {
    AlphaTo((a + b) % NN)
  }

  /**
   * The term the feedback adds to cell k of the shifted register: the
   * feedback times the coefficient G(31 - k), and nothing when the feedback
   * is zero.
   */
  function Tap(fb: int, k: int): (t: int)
    requires 0 <= fb < 256 && 0 <= k < NP
    ensures 0 <= t < 256
    ensures fb == A0 ==> t == 0
  {
    if fb == A0 then 0 else Times(fb, Gen(31 - k))
  }

  /** The 32 products of the feedback with G31 .. G0, one per cell. */
  function Taps(fb: int): (t: seq<int>)
    requires 0 <= fb < 256
    ensures Register(t)
  {
    seq(NP, k requires 0 <= k < NP => Tap(fb, k))
  }

  /** The register moved one cell left, a zero shifted in, and the products added. */
  function ShiftAdd(p: seq<int>, t: seq<int>): (q: seq<int>)
    requires Register(p) && Register(t)
    ensures Register(q)
  {
    seq(NP, k requires 0 <= k < NP => Add(if k < NP - 1 then p[k + 1] else 0, t[k]))
  }

  /**
   * One step of the textbook CCSDS encoder shift register: cell k becomes
   * cell k + 1 (the last cell 0) plus the feedback times G(31 - k).
   */
  function RsStep(p: seq<int>, c: int): (q: seq<int>)
    requires Register(p) && 0 <= c < 256
    ensures Register(q)
  {
    ShiftAdd(p, Taps(Feedback(p[0], c)))
  }

  /**
   * `update_rs(parity, c)`: the palindrome lets one product serve cells j
   * and 32 - j for j = 1 .. 15, cell 16 takes G16 alone, the register moves
   * one byte left, and the feedback itself (G0 = 1) fills the last cell. The
   * result is the textbook step.
   */
  method UpdateRs(parity: array<int>, c: int)
    requires Register(parity[..]) && 0 <= c < 256
    modifies parity
    ensures parity[..] == RsStep(old(parity[..]), c)
  {
    ghost var p0 := parity[..];
    var feedback := IndexOf(Add(c, parity[0]));
    assert feedback == Feedback(p0[0], c);
    ghost var taps := Taps(feedback);
    if feedback != A0 {
      TapsFromHalf(feedback);
      AddProducts(parity, feedback, taps);
    } else {
      NoFeedbackNoTaps(p0, feedback);
    }
    ghost var p1 := parity[..];
    forall k | 0 <= k < NP - 1 {
      parity[k] := parity[k + 1];
    }
    LastTap(feedback);
    parity[NP - 1] := AlphaTo(feedback);
    StepFromTaps(p0, feedback, p1, parity[..]);
  }

  /**
   * The block of `update_rs` run when the feedback is nonzero: the loop over
   * G1 .. G15, each product added to cells j and 32 - j, then G16 added to
   * cell 16. Afterwards every cell from 1 on carries its tap; taps names
   * the products, which the source computes from the stored half.
   */
  method AddProducts(parity: array<int>, feedback: int, ghost taps: seq<int>)
    requires Register(parity[..]) && 0 <= feedback < NN
    requires HalfProducts(feedback, taps)
    modifies parity
    ensures parity[..] == Added(old(parity[..]), taps, NP / 2 + 1)
  {
    ghost var p0 := parity[..];
    AddedNone(p0, taps);
    var j := 1;
    while j < NP / 2
      invariant 1 <= j <= NP / 2
      invariant parity[..] == Added(p0, taps, j)
    {
      var t := PolyProduct(feedback, j, taps);
      ghost var q := parity[..];
      PairStep(p0, taps, j, q, t);
      parity[j] := Add(parity[j], t);
      parity[NP - j] := Add(parity[NP - j], t);
      j := j + 1;
    }
    var t := PolyProduct(feedback, j, taps);
    ghost var q := parity[..];
    MiddleStep(p0, taps, j, q, t);
    parity[j] := Add(parity[j], t);
  }

  /**
   * taps holds 32 bytes, and the entries for cells j - 1 and 31 - j are both
   * the product alpha^(fb + G(j)) that `update_rs` looks up for j = 1 .. 16.
   */
  ghost predicate HalfProducts(fb: int, taps: seq<int>)
    requires 0 <= fb < NN
  {
    Register(taps) &&
    forall j {:trigger Poly(j)} :: 1 <= j <= NP / 2 ==>
      taps[j - 1] == AlphaTo((fb + Poly(j)) % NN) && taps[NP - j - 1] == taps[j - 1]
  }

  /**
   * `CCSDS_alpha_to[modnn(feedback + CCSDS_poly[j])]`: the feedback times
   * G(j), which is the tap of cells j - 1 and 31 - j.
   */
  method PolyProduct(feedback: int, j: int, ghost taps: seq<int>) returns (t: int)
    requires 0 <= feedback < NN && 1 <= j <= NP / 2
    requires HalfProducts(feedback, taps)
    ensures t == taps[j - 1] && t == taps[NP - j - 1]
  {
    var m := Modnn(feedback + Poly(j));
    ProductAt(feedback, taps, j, m);
    t := AlphaTo(m);
  }

  /** The product looked up in pass j is the tap of cells j - 1 and 31 - j. */
  lemma ProductAt(fb: int, taps: seq<int>, j: int, m: int)
    requires 0 <= fb < NN && HalfProducts(fb, taps) && 1 <= j <= NP / 2
    requires fb + Poly(j) >= 0 ==> m == (fb + Poly(j)) % NN
    ensures 0 <= m < 256 && AlphaTo(m) == taps[j - 1] == taps[NP - j - 1]
  {
  }

  /** The 32 products are the ones `update_rs` computes from the stored half. */
  lemma TapsFromHalf(fb: int)
    requires 0 <= fb < NN
    ensures HalfProducts(fb, Taps(fb))
  {
    forall j | 1 <= j <= NP / 2
      ensures Taps(fb)[j - 1] == AlphaTo((fb + Poly(j)) % NN) == Taps(fb)[NP - j - 1]
    {
      TapFromHalf(fb, j);
    }
  }

  /**
   * The register while `update_rs` adds the products: cells 1 .. j - 1 and
   * 33 - j .. 31 have their taps added, the cells between are as they were.
   * At j = 17 every cell from 1 on has its tap.
   */
  function Added(p0: seq<int>, taps: seq<int>, j: int): (q: seq<int>)
    requires Register(p0) && Register(taps) && 1 <= j <= NP / 2 + 1
    ensures Register(q)
  {
    seq(NP, k requires 0 <= k < NP =>
      if 1 <= k < j || NP - j < k then Add(p0[k], taps[k - 1]) else p0[k])
  }

  /** Before the loop no product has been added. */
  lemma AddedNone(p0: seq<int>, taps: seq<int>)
    requires Register(p0) && Register(taps)
    ensures Added(p0, taps, 1) == p0
  {
  }

  /** One pass of the loop adds the product for G(j) to cells j and 32 - j. */
  lemma PairStep(p0: seq<int>, taps: seq<int>, j: int, q: seq<int>, t: int)
    requires Register(p0) && Register(taps) && 1 <= j < NP / 2
    requires q == Added(p0, taps, j) && t == taps[j - 1] == taps[NP - j - 1]
    ensures q[j := Add(q[j], t)][NP - j := Add(q[NP - j], t)] == Added(p0, taps, j + 1)
  {
    var x, y := Add(q[j], t), Add(q[NP - j], t);
    var r := q[j := x][NP - j := y];
    var a := Added(p0, taps, j + 1);
    assert q[j] == p0[j] && q[NP - j] == p0[NP - j];
    assert a[j] == x && a[NP - j] == y;
    forall k | 0 <= k < NP && k != j && k != NP - j
      ensures r[k] == a[k]
    {
    }
  }

  /** The product for G16 goes to cell 16 alone, and then every cell has its tap. */
  lemma MiddleStep(p0: seq<int>, taps: seq<int>, j: int, q: seq<int>, t: int)
    requires Register(p0) && Register(taps) && j == NP / 2
    requires q == Added(p0, taps, j) && t == taps[j - 1]
    ensures q[j := Add(q[j], t)] == Added(p0, taps, j + 1)
  {
    var x := Add(q[j], t);
    var r := q[j := x];
    var a := Added(p0, taps, j + 1);
    assert q[j] == p0[j];
    assert a[j] == x;
    forall k | 0 <= k < NP && k != j
      ensures r[k] == a[k]
    {
    }
  }

  /** Without feedback every tap is zero, so the untouched register already has them all. */
  lemma NoFeedbackNoTaps(p0: seq<int>, fb: int)
    requires Register(p0) && fb == A0
    ensures Added(p0, Taps(fb), NP / 2 + 1) == p0
  {
    forall k | 1 <= k < NP
      ensures p0[k] == Add(p0[k], Taps(fb)[k - 1])
    {
      AddZero(p0[k], Taps(fb)[k - 1]);
    }
  }

  /**
   * The product the source computes from the stored half, before the shift
   * into cells j and 32 - j, is the tap of shifted cells j - 1 and 31 - j.
   */
  lemma TapFromHalf(fb: int, j: int)
    requires 0 <= fb < NN && 1 <= j <= NP / 2
    ensures AlphaTo((fb + Poly(j)) % NN) == Tap(fb, j - 1) == Tap(fb, NP - j - 1)
  {
    GenPalindrome();
    assert Gen(31 - (j - 1)) == Poly(j) && Gen(31 - (NP - j - 1)) == Poly(j);
  }

  /** The cell shifted in gets the feedback itself, since G0 = 1 and alpha^255 = 0 stands for zero. */
  lemma LastTap(fb: int)
    requires 0 <= fb < 256
    ensures AlphaTo(fb) == Tap(fb, NP - 1)
  {
    if fb == A0 {
      assert AlphaTo(A0) == 0;
    } else {
      assert Gen(0) == 0;
      assert (fb + Gen(0)) % NN == fb;
    }
  }

  /** The register after the taps and the shift is the step. */
  lemma StepFromTaps(p0: seq<int>, fb: int, p1: seq<int>, q: seq<int>)
    requires Register(p0) && 0 <= fb < 256 && |p1| == NP && |q| == NP
    requires p1 == Added(p0, Taps(fb), NP / 2 + 1)
    requires forall k :: 0 <= k < NP - 1 ==> q[k] == p1[k + 1]
    requires q[NP - 1] == Tap(fb, NP - 1)
    ensures q == ShiftAdd(p0, Taps(fb))
  {
    var t := Taps(fb);
    var r := ShiftAdd(p0, t);
    forall k | 0 <= k < NP
      ensures q[k] == r[k]
    {
      if k == NP - 1 {
        AddZero(0, t[k]);
      }
    }
  }

  /**
   * With no feedback (the data byte equals the register's head) the step is
   * a plain left shift with a zero shifted in, and only then: otherwise the
   * last cell receives a nonzero power of alpha.
   */
  lemma NoFeedbackIsShift(p: seq<int>, c: int)
    requires Register(p) && 0 <= c < 256
    ensures (RsStep(p, c) == p[1..] + [0]) == (c == p[0])
  {
    var fb := Feedback(p[0], c);
    var t := Taps(fb);
    var q := RsStep(p, c);
    if c == p[0] {
      forall k | 0 <= k < NP
        ensures q[k] == (p[1..] + [0])[k]
      {
        AddZero(if k < NP - 1 then p[k + 1] else 0, t[k]);
      }
    } else {
      AddZero(0, t[NP - 1]);
      LastTap(fb);
      assert t[NP - 1] == Tap(fb, NP - 1);
      PowerNonzero(fb);
      assert q[NP - 1] == AlphaTo(fb) != 0;
    }
  }

  /** alpha^i is never zero for i below 255. */
  lemma PowerNonzero(i: int)
    requires 0 <= i < NN
    ensures AlphaTo(i) != 0
  {
    IndexOfAlpha();
    assert IndexOf(AlphaTo(i)) == i;
    assert IndexOf(0) == A0;
  }

  /** The register fed a whole stream of bytes, one step per byte. */
  function RsRun(p: seq<int>, data: seq<int>): (q: seq<int>)
    requires Register(p) && forall k :: 0 <= k < |data| ==> 0 <= data[k] < 256
    ensures Register(q)
    decreases |data|
  {
    if |data| == 0 then p else RsRun(RsStep(p, data[0]), data[1..])
  }

  /** The cleared register: `memset(parity, 0, ...)` before each frame. */
  function Cleared(): (p: seq<int>)
    ensures Register(p) && forall k :: 0 <= k < NP ==> p[k] == 0
  {
    seq(NP, k => 0)
  }

  /** A cleared register fed any number of zero bytes stays cleared: zero data has zero parity. */
  lemma {:induction false} ZeroDataZeroParity(data: seq<int>)
    requires forall k :: 0 <= k < |data| ==> data[k] == 0
    ensures RsRun(Cleared(), data) == Cleared()
    decreases |data|
  {
    if |data| > 0 {
      NoFeedbackIsShift(Cleared(), data[0]);
      assert Cleared()[1..] + [0] == Cleared();
      ZeroDataZeroParity(data[1..]);
    }
  }

  /** Feeding two streams one after the other is feeding their concatenation. */
  lemma {:induction false} RsRunAppend(p: seq<int>, a: seq<int>, b: seq<int>)
    requires Register(p)
    requires forall k :: 0 <= k < |a| ==> 0 <= a[k] < 256
    requires forall k :: 0 <= k < |b| ==> 0 <= b[k] < 256
    ensures RsRun(p, a + b) == RsRun(RsRun(p, a), b)
    decreases |a|
  {
    if |a| == 0 {
      assert a + b == b;
    } else {
      assert (a + b)[0] == a[0];
      assert (a + b)[1..] == a[1..] + b;
      RsRunAppend(RsStep(p, a[0]), a[1..], b);
    }
  }
}
