/**
 * The table lookups of decoder.c (the same functions appear in make_wav2.c and
 * make_wav_gen1.c): `decode`, `getNextRd`, `getRdSense10b` and `encode`.
 *
 * Each lookup optionally complements the 10-bit word (`flip`), then scans the
 * table row 0 first, byte 0 first, and reports a different field of the first
 * entry whose channel word equals the word searched for. The scans are methods;
 * each is proved equal to a function of `Locate`, the first match computed
 * through the index of CodeIndex8b10b.
 */
module Lookup8b10b {
  import opened Table8b10b
  import opened CodeIndex8b10b

  datatype Option<T> = None | Some(value: T)

  /** A table entry found by a lookup: its row (the RD it is sent at) and its byte. */
  datatype Hit = Hit(rd: int, index: int)

  /** The K28.5 comma sent at RD = -1, and its complement sent at RD = +1. */
  const NOT_FRAME := 0x0fa
  const FRAME := 0x305

  /** The word a lookup searches for: `~word & 0x3ff` when flip is set. */
  function Flip(word: int, flip: bool): (w: int)
    ensures flip ==> 0 <= w < 0x400 && w + word % 0x400 == 0x3ff
    ensures !flip ==> w == word
  {
    if flip then 0x3ff - word % 0x400 else word
  }

  /** Entry (rd, i) of the table has channel word w. */
  predicate Matches(w: int, rd: int, i: int)
    requires 0 <= rd < 2 && 0 <= i < 256
  {
    Word(Encode8b10b(rd, i)) == w
  }

  /** Entry (r, j) is scanned before entry (rd, i): rows in order, bytes in order. */
  predicate Before(r: int, j: int, rd: int, i: int)
  {
    r < rd || (r == rd && j < i)
  }

  /** The first entry, in scan order, whose channel word is w. */
  function Locate(w: int): (h: Option<Hit>)
    ensures h.Some? ==> 0 <= h.value.rd < 2 && 0 <= h.value.index < 256
    ensures h.Some? ==> Matches(w, h.value.rd, h.value.index)
  {
    var i := WordIndex(w);
    if i < 0 then None
    else
      EntryOfIndex(w);
      if Word(Encode8b10b(0, i)) == w then Some(Hit(0, i)) else Some(Hit(1, i))
  }

  /**
   * Locate finds exactly the first match: (rd, i) is reported if and only if
   * its word is w and no entry scanned before it has word w.
   */
  lemma LocateFirst(w: int, rd: int, i: int)
    requires 0 <= rd < 2 && 0 <= i < 256
    ensures Locate(w) == Some(Hit(rd, i)) <==>
      Matches(w, rd, i) &&
      forall r, j :: 0 <= r < 2 && 0 <= j < 256 && Before(r, j, rd, i) ==> !Matches(w, r, j)
  {
    if Locate(w) == Some(Hit(rd, i)) {
      forall r, j | 0 <= r < 2 && 0 <= j < 256 && Before(r, j, rd, i)
        ensures !Matches(w, r, j)
      {
        if Matches(w, r, j) {
          IndexOfEntry(r, j);
        }
      }
    }
    if Matches(w, rd, i) &&
      forall r, j :: 0 <= r < 2 && 0 <= j < 256 && Before(r, j, rd, i) ==> !Matches(w, r, j)
    {
      IndexOfEntry(rd, i);
      if rd == 1 {
        assert Before(0, i, 1, i);
      }
    }
  }

  /** Locate finds nothing if and only if no entry of the table has word w. */
  lemma LocateNone(w: int)
    ensures Locate(w).None? <==>
      forall r, j :: 0 <= r < 2 && 0 <= j < 256 ==> !Matches(w, r, j)
  {
    if Locate(w).None? {
      forall r, j | 0 <= r < 2 && 0 <= j < 256
        ensures !Matches(w, r, j)
      {
        IndexOfEntry(r, j);
      }
    }
  }

  /** What `decode` returns: the byte of the first match, or 0 when nothing matches. */
  function DecodeOf(word: int, flip: bool): (c: int)
    ensures 0 <= c < 256
  {
    match Locate(Flip(word, flip))
    case Some(h) => h.index
    case None => 0
  }

  /** What `getNextRd` returns: bit 10 of the first match, or -99. */
  function NextRdOf(word: int, flip: bool): (s: int)
    ensures s == 0 || s == 1 || s == -99
  {
    match Locate(Flip(word, flip))
    case Some(h) => NextRd(Encode8b10b(h.rd, h.index))
    case None => -99
  }

  /** What `getRdSense10b` returns: the row of the first match, or -99. */
  function RdSenseOf(word: int, flip: bool): (r: int)
    ensures r == 0 || r == 1 || r == -99
  {
    match Locate(Flip(word, flip))
    case Some(h) => h.rd
    case None => -99
  }

  /** `decode(word, flip)`: the scan for the first entry with the searched word. */
  method Decode(word: int, flip: bool) returns (c: int)
    ensures c == DecodeOf(word, flip)
  {
    var w := word;
    if flip {
      w := 0x3ff - w % 0x400;
    }
    var rd := 0;
    while rd < 2
      invariant 0 <= rd <= 2
      invariant forall r, j :: 0 <= r < rd && 0 <= j < 256 ==> !Matches(w, r, j)
    {
      var i := 0;
      while i < 256
        invariant 0 <= i <= 256
        invariant forall r, j :: 0 <= r < rd && 0 <= j < 256 ==> !Matches(w, r, j)
        invariant forall j :: 0 <= j < i ==> !Matches(w, rd, j)
      {
        var testValue := Encode8b10b(rd, i);
        if Word(testValue) == w {
          LocateFirst(w, rd, i);
          return i;
        }
        i := i + 1;
      }
      rd := rd + 1;
    }
    LocateNone(w);
    return 0;
  }

  /** `getNextRd(word, flip)`: the same scan, returning bit 10 of the match. */
  method GetNextRd(word: int, flip: bool) returns (s: int)
    ensures s == NextRdOf(word, flip)
  {
    var w := word;
    if flip {
      w := 0x3ff - w % 0x400;
    }
    var rd := 0;
    while rd < 2
      invariant 0 <= rd <= 2
      invariant forall r, j :: 0 <= r < rd && 0 <= j < 256 ==> !Matches(w, r, j)
    {
      var i := 0;
      while i < 256
        invariant 0 <= i <= 256
        invariant forall r, j :: 0 <= r < rd && 0 <= j < 256 ==> !Matches(w, r, j)
        invariant forall j :: 0 <= j < i ==> !Matches(w, rd, j)
      {
        var testValue := Encode8b10b(rd, i);
        if Word(testValue) == w {
          LocateFirst(w, rd, i);
          var state := NextRd(testValue);
          return state;
        }
        i := i + 1;
      }
      rd := rd + 1;
    }
    LocateNone(w);
    return -99;
  }

  /** `getRdSense10b(word, flip)`: the same scan, returning the row of the match. */
  method GetRdSense10b(word: int, flip: bool) returns (r: int)
    ensures r == RdSenseOf(word, flip)
  {
    var w := word;
    if flip {
      w := 0x3ff - w % 0x400;
    }
    var rd := 0;
    while rd < 2
      invariant 0 <= rd <= 2
      invariant forall r, j :: 0 <= r < rd && 0 <= j < 256 ==> !Matches(w, r, j)
    {
      var i := 0;
      while i < 256
        invariant 0 <= i <= 256
        invariant forall r, j :: 0 <= r < rd && 0 <= j < 256 ==> !Matches(w, r, j)
        invariant forall j :: 0 <= j < i ==> !Matches(w, rd, j)
      {
        var testValue := Encode8b10b(rd, i);
        if Word(testValue) == w {
          LocateFirst(w, rd, i);
          return rd;
        }
        i := i + 1;
      }
      rd := rd + 1;
    }
    LocateNone(w);
    return -99;
  }

  /** `encode(word)`: the whole RD = -1 entry of a byte, bit 10 included, which decodes back. */
  function Encode(word: int): (e: int)
    requires 0 <= word < 256
    ensures 0 <= e < 0x800
    ensures DecodeOf(Word(e), false) == word
    ensures NextRdOf(Word(e), false) == e / 0x400
  {
    LocateEncoded(0, word);
    EntryFields(Encode8b10b(0, word));
    Encode8b10b(0, word)
  }

  /**
   * The word sent for byte b at RD rd is found at byte b, in row rd, or in
   * row 0 when the two rows share that word.
   */
  lemma LocateEncoded(rd: int, b: int)
    requires 0 <= rd < 2 && 0 <= b < 256
    ensures Locate(Word(Encode8b10b(rd, b))).Some?
    ensures Locate(Word(Encode8b10b(rd, b))).value.index == b
    ensures Locate(Word(Encode8b10b(rd, b))).value.rd == rd ||
      (rd == 1 && Locate(Word(Encode8b10b(rd, b))).value.rd == 0 &&
       Word(Encode8b10b(0, b)) == Word(Encode8b10b(1, b)))
  {
    IndexOfEntry(rd, b);
  }

  /** Decoding inverts encoding, at either RD. */
  lemma DecodeRoundTrip(rd: int, b: int)
    requires 0 <= rd < 2 && 0 <= b < 256
    ensures DecodeOf(Word(Encode8b10b(rd, b)), false) == b
  {
    LocateEncoded(rd, b);
  }

  /** A word received complemented decodes to its byte when flip is set. */
  lemma DecodeFlippedRoundTrip(rd: int, b: int)
    requires 0 <= rd < 2 && 0 <= b < 256
    ensures DecodeOf(0x3ff - Word(Encode8b10b(rd, b)), true) == b
  {
    assert Flip(0x3ff - Word(Encode8b10b(rd, b)), true) == Word(Encode8b10b(rd, b));
    LocateEncoded(rd, b);
  }

  /** Setting flip is the same as searching for the complemented low ten bits. */
  lemma FlipIsComplement(word: int)
    ensures DecodeOf(word, true) == DecodeOf(0x3ff - word % 0x400, false)
    ensures NextRdOf(word, true) == NextRdOf(0x3ff - word % 0x400, false)
    ensures RdSenseOf(word, true) == RdSenseOf(0x3ff - word % 0x400, false)
    ensures Flip(Flip(word, true), true) == word % 0x400
  {
  }

  /** Within a row the 256 channel words are pairwise distinct. */
  lemma RowWordsDistinct(rd: int, i: int, j: int)
    requires 0 <= rd < 2 && 0 <= i < 256 && 0 <= j < 256
    ensures Word(Encode8b10b(rd, i)) == Word(Encode8b10b(rd, j)) <==> i == j
  {
    IndexOfEntry(rd, i);
    IndexOfEntry(rd, j);
  }

  /** A word found in both rows encodes the same byte in both. */
  lemma RowsAgreeOnByte(i: int, j: int)
    requires 0 <= i < 256 && 0 <= j < 256
    requires Word(Encode8b10b(0, i)) == Word(Encode8b10b(1, j))
    ensures i == j
  {
    IndexOfEntry(0, i);
    IndexOfEntry(1, j);
  }

  /**
   * A word shared by the two rows is balanced (five 1-bits) and leaves the
   * RD unchanged in both rows, so its row cannot be told from the word alone.
   */
  lemma SharedWordsBalanced(b: int)
    requires 0 <= b < 256
    requires Word(Encode8b10b(0, b)) == Word(Encode8b10b(1, b))
    ensures Ones10(Word(Encode8b10b(0, b))) == 5
    ensures NextRd(Encode8b10b(0, b)) == 0 && NextRd(Encode8b10b(1, b)) == 1
  {
    EntryDisparity(0, b);
    EntryDisparity(1, b);
  }

  /**
   * `getNextRd` and `getRdSense10b` recover the encoder's RD exactly when the
   * word was sent at RD = -1 or is not shared with row 0; a balanced word sent
   * at RD = +1 is reported as sent at RD = -1, with next RD -1.
   */
  lemma RdRecovered(rd: int, b: int)
    requires 0 <= rd < 2 && 0 <= b < 256
    ensures RdSenseOf(Word(Encode8b10b(rd, b)), false) == rd <==>
      rd == 0 || Word(Encode8b10b(0, b)) != Word(Encode8b10b(1, b))
    ensures NextRdOf(Word(Encode8b10b(rd, b)), false) == NextRd(Encode8b10b(rd, b)) <==>
      rd == 0 || Word(Encode8b10b(0, b)) != Word(Encode8b10b(1, b))
  {
    LocateEncoded(rd, b);
    if rd == 1 && Word(Encode8b10b(0, b)) == Word(Encode8b10b(1, b)) {
      SharedWordsBalanced(b);
    }
  }

  /** FRAME is the 10-bit complement of NOT_FRAME. */
  lemma FrameIsFlippedNotFrame()
    ensures FRAME == Flip(NOT_FRAME, true) && NOT_FRAME == Flip(FRAME, true)
  {
  }

  /** Neither comma is a data code-group: every lookup misses on both. */
  lemma CommasMiss()
    ensures Locate(NOT_FRAME) == None && Locate(FRAME) == None
    ensures NextRdOf(NOT_FRAME, false) == -99 && NextRdOf(FRAME, false) == -99
    ensures RdSenseOf(NOT_FRAME, false) == -99 && RdSenseOf(FRAME, false) == -99
    ensures DecodeOf(NOT_FRAME, false) == 0 && DecodeOf(FRAME, false) == 0
  {
  }

  /** The FCS placeholder 0x18b is byte 0x00 sent at RD = +1. */
  lemma FcsPlaceholder()
    ensures Word(Encode8b10b(1, 0x00)) == 0x18b
    ensures Locate(0x18b) == Some(Hit(1, 0x00))
    ensures DecodeOf(0x18b, false) == 0
  {
  }

  /**
   * `decode` as its commented-out `LookupException` intends: the byte of the
   * first match, or no result when no entry matches.
   */
  function DecodeOption(word: int, flip: bool): (c: Option<int>)
    ensures c.Some? ==> 0 <= c.value < 256 && c.value == DecodeOf(word, flip)
    ensures c.None? <==> forall r, j :: 0 <= r < 2 && 0 <= j < 256 ==> !Matches(Flip(word, flip), r, j)
  {
    LocateNone(Flip(word, flip));
    match Locate(Flip(word, flip))
    case Some(h) => Some(h.index)
    case None => None
  }

  /** Every code-group decodes to its byte, and only code-groups decode. */
  lemma DecodeOptionRoundTrip(rd: int, b: int)
    requires 0 <= rd < 2 && 0 <= b < 256
    ensures DecodeOption(Word(Encode8b10b(rd, b)), false) == Some(b)
  {
    LocateEncoded(rd, b);
  }

  /**
   * As written, `decode` answers 0 both for the comma 0x0fa, which matches
   * no entry, and for the code-group of byte 0x00: the two are
   * indistinguishable to the caller. DecodeOption tells them apart.
   */
  lemma DecodeMissLooksLikeByteZero()
    ensures Locate(NOT_FRAME).None? && Locate(Word(Encode8b10b(0, 0x00))).Some?
    ensures DecodeOf(NOT_FRAME, false) == DecodeOf(Word(Encode8b10b(0, 0x00)), false) == 0
    ensures DecodeOption(NOT_FRAME, false) == None
    ensures DecodeOption(Word(Encode8b10b(0, 0x00)), false) == Some(0)
  {
    CommasMiss();
    DecodeRoundTrip(0, 0x00);
    DecodeOptionRoundTrip(0, 0x00);
  }
}
