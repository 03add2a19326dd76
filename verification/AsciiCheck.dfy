/** The word-at-a-time check that a string is ASCII (`DoIsStringASCII`). */
module AsciiCheck {

  type Byte = bv8
  type Word = bv64

  const NON_ASCII_MASK: Word := 0x8080_8080_8080_8080
  const CHARS_PER_WORD := 8
  const BATCH_COUNT := 16

  /** The plain meaning. */
  predicate IsAscii(text: seq<Byte>) {
    forall i :: 0 <= i < |text| ==> text[i] < 0x80
  }

  predicate Clean(bits: Word) {
    bits & NON_ASCII_MASK == 0
  }

  /** A character widened to a word, with the sign extension of a platform where `char` is signed. */
  function Widened(c: Byte, signed: bool): Word {
    if signed && c >= 0x80 then (c as Word) | 0xFFFF_FFFF_FFFF_FF00 else c as Word
  }

  /** The eight bytes from a position on, in the order of a little-endian or big-endian machine. */
  function WordAt(text: seq<Byte>, p: nat, littleEndian: bool): Word
    requires p + CHARS_PER_WORD <= |text|
  {
    if littleEndian then
      Packed(text[p], text[p + 1], text[p + 2], text[p + 3], text[p + 4], text[p + 5], text[p + 6], text[p + 7])
    else
      Packed(text[p + 7], text[p + 6], text[p + 5], text[p + 4], text[p + 3], text[p + 2], text[p + 1], text[p])
  }

  function Packed(b0: Byte, b1: Byte, b2: Byte, b3: Byte, b4: Byte, b5: Byte, b6: Byte, b7: Byte): Word {
    (b0 as Word) | (b1 as Word << 8) | (b2 as Word << 16) | (b3 as Word << 24) |
    (b4 as Word << 32) | (b5 as Word << 40) | (b6 as Word << 48) | (b7 as Word << 56)
  }

  lemma OrIsZero(x: Word, y: Word)
    ensures x | y == 0 <==> x == 0 && y == 0
  {
  }

  lemma MaskOr(a: Word, b: Word, mask: Word)
    ensures (a | b) & mask == (a & mask) | (b & mask)
  {
  }

  lemma CleanOr(a: Word, b: Word)
    ensures Clean(a | b) <==> Clean(a) && Clean(b)
  {
    MaskOr(a, b, NON_ASCII_MASK);
    OrIsZero(a & NON_ASCII_MASK, b & NON_ASCII_MASK);
  }

  lemma CleanByte(c: Byte, signed: bool)
    ensures Clean(Widened(c, signed)) <==> c < 0x80
  {
  }

  lemma CleanPacked(b0: Byte, b1: Byte, b2: Byte, b3: Byte, b4: Byte, b5: Byte, b6: Byte, b7: Byte)
    ensures Clean(Packed(b0, b1, b2, b3, b4, b5, b6, b7)) <==>
            b0 < 0x80 && b1 < 0x80 && b2 < 0x80 && b3 < 0x80 && b4 < 0x80 && b5 < 0x80 && b6 < 0x80 && b7 < 0x80
  {
  }

  /** The bits gathered so far are clean exactly when the text scanned since `from` is ASCII. */
  predicate Gathered(bits: Word, text: seq<Byte>, from: nat, p: nat)
    requires from <= p <= |text|
  {
    Clean(bits) <==> IsAscii(text[from..p])
  }

  lemma AddByte(bits: Word, text: seq<Byte>, from: nat, p: nat, signed: bool)
    requires from <= p < |text| && Gathered(bits, text, from, p)
    ensures Gathered(bits | Widened(text[p], signed), text, from, p + 1)
  {
    CleanOr(bits, Widened(text[p], signed));
    CleanByte(text[p], signed);
    assert text[from..p + 1] == text[from..p] + [text[p]];
    AsciiConcat(text[from..p], [text[p]]);
  }

  lemma CleanWord(text: seq<Byte>, p: nat, littleEndian: bool)
    requires p + CHARS_PER_WORD <= |text|
    ensures Clean(WordAt(text, p, littleEndian)) <==> IsAscii(text[p..p + CHARS_PER_WORD])
  {
    var t := text[p..p + 8];
    if littleEndian {
      CleanPacked(t[0], t[1], t[2], t[3], t[4], t[5], t[6], t[7]);
    } else {
      CleanPacked(t[7], t[6], t[5], t[4], t[3], t[2], t[1], t[0]);
    }
  }

  lemma AddWord(bits: Word, text: seq<Byte>, from: nat, p: nat, littleEndian: bool)
    requires from <= p && p + CHARS_PER_WORD <= |text| && Gathered(bits, text, from, p)
    ensures Gathered(bits | WordAt(text, p, littleEndian), text, from, p + CHARS_PER_WORD)
  {
    CleanOr(bits, WordAt(text, p, littleEndian));
    CleanWord(text, p, littleEndian);
    assert text[from..p + 8] == text[from..p] + text[p..p + 8];
    AsciiConcat(text[from..p], text[p..p + 8]);
  }

  lemma AsciiConcat(a: seq<Byte>, b: seq<Byte>)
    ensures IsAscii(a + b) <==> IsAscii(a) && IsAscii(b)
  {
    assert forall i :: 0 <= i < |a| ==> a[i] == (a + b)[i];
    assert forall i :: 0 <= i < |b| ==> b[i] == (a + b)[|a| + i];
  }

  /** Scans single characters until the address is aligned (`toAlignment`) or the text ends. */
  method ScanBytes(text: seq<Byte>, from: nat, start: nat, bits: Word, address: nat, signed: bool, toAlignment: bool)
    returns (p: nat, r: Word)
    requires from <= start <= |text| && Gathered(bits, text, from, start)
    ensures start <= p <= |text| && Gathered(r, text, from, p)
    ensures p < |text| ==> toAlignment && (address + p) % CHARS_PER_WORD == 0
  {
    p, r := start, bits;
    while (!toAlignment || (address + p) % CHARS_PER_WORD != 0) && p < |text|
      invariant start <= p <= |text| && Gathered(r, text, from, p)
    {
      AddByte(r, text, from, p, signed);
      r := r | Widened(text[p], signed);
      p := p + 1;
    }
  }

  /** A word is only ever loaded from inside the text, and from an aligned address. */
  method LoadWord(text: seq<Byte>, p: nat, address: nat, littleEndian: bool) returns (word: Word)
    requires p + CHARS_PER_WORD <= |text| && (address + p) % CHARS_PER_WORD == 0
    ensures word == WordAt(text, p, littleEndian)
    ensures Clean(word) <==> IsAscii(text[p..p + CHARS_PER_WORD])
  {
    CleanWord(text, p, littleEndian);
    word := WordAt(text, p, littleEndian);
  }

  method ScanBatch(text: seq<Byte>, start: nat, address: nat, littleEndian: bool) returns (p: nat, r: Word)
    requires start + BATCH_COUNT * CHARS_PER_WORD <= |text| && (address + start) % CHARS_PER_WORD == 0
    ensures p == start + BATCH_COUNT * CHARS_PER_WORD && Gathered(r, text, start, p)
  {
    p, r := start, 0;
    var i := 0;
    while i < BATCH_COUNT
      invariant 0 <= i <= BATCH_COUNT && p == start + i * CHARS_PER_WORD && Gathered(r, text, start, p)
    {
      AddWord(r, text, start, p, littleEndian);
      var word := LoadWord(text, p, address, littleEndian);
      r := r | word;
      p := p + CHARS_PER_WORD;
      i := i + 1;
    }
  }

  method ScanWords(text: seq<Byte>, start: nat, address: nat, littleEndian: bool) returns (p: nat, r: Word)
    requires start <= |text| && (start < |text| ==> (address + start) % CHARS_PER_WORD == 0)
    ensures start <= p <= |text| && Gathered(r, text, start, p)
  {
    p, r := start, 0;
    while p <= |text| - CHARS_PER_WORD
      invariant start <= p <= |text| && Gathered(r, text, start, p)
      invariant p < |text| ==> (address + p) % CHARS_PER_WORD == 0
    {
      AddWord(r, text, start, p, littleEndian);
      var word := LoadWord(text, p, address, littleEndian);
      r := r | word;
      p := p + CHARS_PER_WORD;
    }
  }

  /** Checks whole batches and stops at the first that is not ASCII. */
  method ScanBatches(text: seq<Byte>, start: nat, address: nat, littleEndian: bool) returns (p: nat, clean: bool)
    requires start <= |text| && (start < |text| ==> (address + start) % CHARS_PER_WORD == 0)
    ensures start <= p <= |text| && (p < |text| ==> (address + p) % CHARS_PER_WORD == 0)
    ensures clean <==> IsAscii(text[start..p])
  {
    p := start;
    while p <= |text| - BATCH_COUNT * CHARS_PER_WORD
      invariant start <= p <= |text| && (p < |text| ==> (address + p) % CHARS_PER_WORD == 0)
      invariant IsAscii(text[start..p])
    {
      var next, bits := ScanBatch(text, p, address, littleEndian);
      assert text[start..next] == text[start..p] + text[p..next];
      AsciiConcat(text[start..p], text[p..next]);
      p := next;
      if bits & NON_ASCII_MASK != 0 { return p, false; }
    }
    clean := true;
  }

  lemma AsciiSplit(text: seq<Byte>, p: nat, q: nat)
    requires p <= q <= |text|
    ensures IsAscii(text) <==> IsAscii(text[..p]) && IsAscii(text[p..q]) && IsAscii(text[q..])
  {
    assert text == text[..p] + (text[p..q] + text[q..]);
    AsciiConcat(text[..p], text[p..q] + text[q..]);
    AsciiConcat(text[p..q], text[q..]);
  }

  /**
   * The fast check agrees with the plain one for every length and content, wherever the text starts in
   * memory, on machines of either byte order and with either kind of `char`.
   */
  method IsStringAscii(text: seq<Byte>, address: nat, signed: bool, littleEndian: bool) returns (ascii: bool)
    ensures ascii <==> IsAscii(text)
  {
    if |text| == 0 { return true; }
    var p, bits := ScanBytes(text, 0, 0, 0, address, signed, true);
    AsciiSplit(text, p, p);
    if bits & NON_ASCII_MASK != 0 { return false; }

    var q, clean := ScanBatches(text, p, address, littleEndian);
    AsciiSplit(text, p, q);
    if !clean { return false; }

    var next;
    next, bits := ScanWords(text, q, address, littleEndian);
    next, bits := ScanBytes(text, q, next, bits, address, signed, false);
    assert text[q..next] == text[q..];
    return bits & NON_ASCII_MASK == 0;
  }
}
