/**
 * The 8b/10b encoder of make_wav_gen1.c, `encode_8b10b`, which threads the
 * running disparity (RD) through a stream of symbols: a byte 0..255 is sent as
 * its code-group for the current RD, and a negative symbol as the K28.5 comma
 * that marks the end of a frame.
 */
module TelemEncoding {
  import opened Table8b10b
  import opened Lookup8b10b

  /** K28.5 at RD = -1. */
  const SYNC := 0x0fa

  /** A channel word together with the encoder state left after it. */
  datatype Symbol = Symbol(word: int, state: int)

  /** The `int32_t` the caller's `*state` points to. */
  class StateCell {
    var value: int

    constructor(v: int)
      ensures value == v
    {
      value := v;
    }
  }

  /**
   * The word `encode_8b10b` returns and the state it stores, given the state
   * it finds and the symbol. Only the low bit of the state is read.
   */
  function Step(state: int, data: int): (s: Symbol)
    ensures 0 <= s.word < 0x400
    ensures s.state == 0 || s.state == 1
  {
    Emit(state % 2, data)
  }

  /** The word and next state for the symbol data sent at RD st. */
  function Emit(st: int, data: int): (s: Symbol)
    requires st == 0 || st == 1
    ensures 0 <= s.word < 0x400
    ensures s.state == 0 || s.state == 1
  {
    if data < 0 then
      Symbol(if st == 0 then SYNC else 0x3ff - SYNC, 1 - st)
    else
      var e := Encode8b10b(st, data % 256);
      Symbol(Word(e), NextRd(e))
  }

  /**
   * `encode_8b10b(state, data)`: `*state & 0x1` is the RD; the comma or the
   * table entry is chosen, the new RD is stored through `state`, and the low
   * ten bits of the chosen value are returned. `~SYNC` is taken as a 32-bit
   * unsigned complement, as in the source.
   */
  method EncodeSymbol(state: StateCell, data: int) returns (w: int)
    modifies state
    ensures Symbol(w, state.value) == Step(old(state.value), data)
  {
    var st := state.value % 2;
    var word: int;
    if data < 0 {
      word := if st == 1 then 0xffff_ffff - SYNC else SYNC;
      st := 1 - st;
    } else {
      word := Encode8b10b(st, data % 256);
      EntryFields(word);
      st := word / 0x400 % 2;
    }
    state.value := st;
    w := word % 0x400;
  }

  /** The next state depends on the old state only through its low bit. */
  lemma StepReadsLowBit(state: int, data: int)
    ensures Step(state, data) == Step(state % 2, data)
    ensures data >= 0 ==> Step(state, data) == Step(state, data % 256)
  {
    assert (state % 2) % 2 == state % 2;
    if data >= 0 {
      assert (data % 256) % 256 == data % 256;
    }
  }

  /**
   * The end-of-frame comma always toggles the RD; it is 0x0fa, with six
   * 1-bits, at RD = -1 and its complement 0x305, with four, at RD = +1.
   */
  lemma SyncToggles(state: int)
    ensures Step(state, -1).state == 1 - state % 2
    ensures Step(state, -1).word == (if state % 2 == 0 then NOT_FRAME else FRAME)
    ensures Ones10(Step(state, -1).word) == (if state % 2 == 0 then 6 else 4)
  {
  }

  /** A data symbol's word decodes back to its low byte, at either RD. */
  lemma StepDecodes(state: int, data: int)
    requires data >= 0
    ensures DecodeOf(Step(state, data).word, false) == data % 256
  {
    DecodeRoundTrip(state % 2, data % 256);
  }

  /**
   * Every word, comma or data, has a disparity equal to twice the change of
   * the RD it causes.
   */
  lemma StepDisparity(state: int, data: int)
    ensures Disparity(Step(state, data).word) == 2 * (Step(state, data).state - state % 2)
  {
    var st := state % 2;
    if data >= 0 {
      var e := Encode8b10b(st, data % 256);
      EntryDisparity(st, data % 256);
      assert Step(state, data) == Symbol(Word(e), NextRd(e));
    } else {
      assert Step(state, data) == Symbol(if st == 0 then SYNC else 0x3ff - SYNC, 1 - st);
    }
  }

  /** The words sent for a stream of symbols from a given state, and the final state. */
  function EncodeRun(state: int, data: seq<int>): (r: (seq<int>, int))
    ensures |r.0| == |data|
    ensures forall k :: 0 <= k < |r.0| ==> 0 <= r.0[k] < 0x400
    ensures |data| > 0 ==> r.1 == 0 || r.1 == 1
    ensures |data| == 0 ==> r == ([], state)
    decreases |data|
  {
    if |data| == 0 then ([], state)
    else
      var s := Step(state, data[0]);
      var rest := EncodeRun(s.state, data[1..]);
      ([s.word] + rest.0, rest.1)
  }

  /** Encoding a stream one more symbol: the run is extended by one step. */
  lemma {:induction false} EncodeRunSnoc(state: int, data: seq<int>, x: int)
    ensures EncodeRun(state, data + [x]) ==
      (EncodeRun(state, data).0 + [Step(EncodeRun(state, data).1, x).word],
       Step(EncodeRun(state, data).1, x).state)
    decreases |data|
  {
    if |data| == 0 {
      assert data + [x] == [x];
      assert [x][1..] == [];
      var last := Step(state, x);
      assert EncodeRun(state, [x]).0 == [last.word] + [];
      assert [last.word] + [] == [] + [last.word];
    } else {
      var s := Step(state, data[0]);
      assert (data + [x])[0] == data[0];
      assert (data + [x])[1..] == data[1..] + [x];
      EncodeRunSnoc(s.state, data[1..], x);
      var rest := EncodeRun(s.state, data[1..]);
      var last := Step(rest.1, x);
      assert EncodeRun(state, data + [x]).0 == [s.word] + (rest.0 + [last.word]);
      assert [s.word] + (rest.0 + [last.word]) == ([s.word] + rest.0) + [last.word];
    }
  }

  /**
   * Encoding two streams one after the other, the second from the RD the
   * first leaves, is encoding their concatenation.
   */
  lemma {:induction false} EncodeRunAppend(state: int, a: seq<int>, b: seq<int>)
    ensures EncodeRun(state, a + b) ==
      (EncodeRun(state, a).0 + EncodeRun(EncodeRun(state, a).1, b).0,
       EncodeRun(EncodeRun(state, a).1, b).1)
    decreases |a|
  {
    if |a| == 0 {
      assert a + b == b;
      assert [] + EncodeRun(state, b).0 == EncodeRun(state, b).0;
    } else {
      var s := Step(state, a[0]);
      assert (a + b)[0] == a[0];
      assert (a + b)[1..] == a[1..] + b;
      EncodeRunAppend(s.state, a[1..], b);
      var rest := EncodeRun(s.state, a[1..]);
      var tail := EncodeRun(rest.1, b);
      assert EncodeRun(state, a + b).0 == [s.word] + (rest.0 + tail.0);
      assert [s.word] + (rest.0 + tail.0) == ([s.word] + rest.0) + tail.0;
    }
  }

  /** The sum of the disparities of a sequence of 10-bit words. */
  function SumDisparity(ws: seq<int>): (d: int)
    requires forall k :: 0 <= k < |ws| ==> 0 <= ws[k] < 0x400
    ensures -10 * |ws| <= d <= 10 * |ws|
  {
    if |ws| == 0 then 0 else Disparity(ws[0]) + SumDisparity(ws[1..])
  }

  /**
   * The RD before each symbol of a stream and, last, the RD after the
   * stream; every entry after the first is 0 or 1.
   */
  function RunStates(state: int, data: seq<int>): (rs: seq<int>)
    ensures |rs| == |data| + 1 && rs[0] == state
    ensures forall k :: 1 <= k < |rs| ==> rs[k] == 0 || rs[k] == 1
    decreases |data|
  {
    if |data| == 0 then [state]
    else [state] + RunStates(Step(state, data[0]).state, data[1..])
  }

  /** Word k of a run is the step taken from the RD before symbol k. */
  lemma {:induction false} RunStepAt(state: int, data: seq<int>, k: int)
    requires 0 <= k < |data|
    ensures EncodeRun(state, data).0[k] == Step(RunStates(state, data)[k], data[k]).word
    ensures RunStates(state, data)[k + 1] == Step(RunStates(state, data)[k], data[k]).state
    decreases k
  {
    var s := Step(state, data[0]);
    if k > 0 {
      RunStepAt(s.state, data[1..], k - 1);
    }
  }

  /** The last entry of RunStates is the RD the run leaves. */
  lemma {:induction false} RunStatesEnd(state: int, data: seq<int>)
    ensures RunStates(state, data)[|data|] == EncodeRun(state, data).1
    decreases |data|
  {
    if |data| > 0 {
      RunStatesEnd(Step(state, data[0]).state, data[1..]);
    }
  }

  /** The disparity of word k of a run is twice the change of RD it causes. */
  lemma RunStepDisparity(state: int, data: seq<int>, k: int)
    requires state == 0 || state == 1
    requires 0 <= k < |data|
    ensures Disparity(EncodeRun(state, data).0[k]) ==
      2 * (RunStates(state, data)[k + 1] - RunStates(state, data)[k])
  {
    var rs := RunStates(state, data);
    RunStepAt(state, data, k);
    WordDisparity(rs[k], data[k], EncodeRun(state, data).0[k], rs[k + 1]);
  }

  /** StepDisparity for a step from RD 0 or 1 whose word and next RD are named. */
  lemma WordDisparity(st: int, d: int, w: int, next: int)
    requires st == 0 || st == 1
    requires w == Step(st, d).word && next == Step(st, d).state
    ensures Disparity(w) == 2 * (next - st)
  {
    StepDisparity(st, d);
  }

  /**
   * A sum of disparities telescopes when each word's disparity is twice the
   * change between consecutive RDs.
   */
  lemma {:induction false} Telescope(ws: seq<int>, rds: seq<int>)
    requires forall k :: 0 <= k < |ws| ==> 0 <= ws[k] < 0x400
    requires |rds| == |ws| + 1
    requires forall k :: 0 <= k < |ws| ==> Disparity(ws[k]) == 2 * (rds[k + 1] - rds[k])
    ensures SumDisparity(ws) == 2 * (rds[|ws|] - rds[0])
    decreases |ws|
  {
    if |ws| > 0 {
      Telescope(ws[1..], rds[1..]);
    }
  }

  /**
   * DC balance of a whole stream: the words sent carry, in total, twice as
   * many more 1-bits than 0-bits as the RD rose from start to end.
   */
  lemma RunDisparity(state: int, data: seq<int>)
    requires state == 0 || state == 1
    ensures SumDisparity(EncodeRun(state, data).0) == 2 * (EncodeRun(state, data).1 - state)
  {
    var ws := EncodeRun(state, data).0;
    var rs := RunStates(state, data);
    forall k | 0 <= k < |ws|
      ensures Disparity(ws[k]) == 2 * (rs[k + 1] - rs[k])
    {
      RunStepDisparity(state, data, k);
    }
    RunStatesEnd(state, data);
    Telescope(ws, rs);
  }

  /**
   * The running digital sum at every word boundary of a stream started at
   * RD = -1 is 0 or +2: the line never drifts.
   */
  lemma RunningSumBounded(data: seq<int>, k: int)
    requires 0 <= k <= |data|
    ensures SumDisparity(EncodeRun(0, data).0[..k]) == 0 || SumDisparity(EncodeRun(0, data).0[..k]) == 2
  {
    EncodeRunAppend(0, data[..k], data[k..]);
    assert data[..k] + data[k..] == data;
    assert EncodeRun(0, data).0[..k] == EncodeRun(0, data[..k]).0;
    RunDisparity(0, data[..k]);
  }

  /** Every data symbol of a stream decodes back from the word sent for it. */
  lemma {:induction false} RunDecodes(state: int, data: seq<int>, k: int)
    requires 0 <= k < |data| && data[k] >= 0
    ensures DecodeOf(EncodeRun(state, data).0[k], false) == data[k] % 256
    decreases k
  {
    var s := Step(state, data[0]);
    if k == 0 {
      StepDecodes(state, data[0]);
    } else {
      RunDecodes(s.state, data[1..], k - 1);
    }
  }
}
