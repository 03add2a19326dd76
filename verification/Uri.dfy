/** Percent-escaping of bytes, as in section 2.1 of RFC 3986 (`Escape`, `UnescapeURLComponent`). */
module Uri {
  import opened Collections

  type Byte = bv8
  type Bytes = seq<Byte>

  const PERCENT: Byte := 0x25
  const SPACE: Byte := 0x20
  const PLUS: Byte := 0x2B
  const SLASH: Byte := 0x2F
  const BACKSLASH: Byte := 0x5C

  // Hexadecimal digits.

  const NOT_HEX: Byte := 0xFF

  function IntToHex(i: Byte): Byte
    requires i < 16
  {
    if i < 10 then 0x30 + i else 0x41 + (i - 10)
  }

  /** The value of a digit; `NOT_HEX` stands for the source's -1. */
  function HexToInt(c: Byte): Byte {
    if 0x30 <= c <= 0x39 then c - 0x30
    else if 0x41 <= c <= 0x46 then c - 0x41 + 10
    else if 0x61 <= c <= 0x66 then c - 0x61 + 10
    else NOT_HEX
  }

  predicate IsHex(c: Byte) {
    HexToInt(c) != NOT_HEX
  }

  // Escaping.

  /** Which bytes to escape: 256 bits in eight words. */
  type Charmap = words: seq<bv32> | |words| == 8 witness [0, 0, 0, 0, 0, 0, 0, 0]

  predicate Bit(word: bv32, c: Byte) {
    word & (1 << (c & 31)) != 0
  }

  predicate Contains(charmap: Charmap, c: Byte) {
    Bit(charmap[(c >> 5) as int], c)
  }

  const QUERY: Charmap := [0xffffffff, 0xfc00987d, 0x78000001, 0xb8000001,
                           0xffffffff, 0xffffffff, 0xffffffff, 0xffffffff]

  const PATH: Charmap := [0xffffffff, 0xd400002d, 0x78000000, 0xb8000001,
                          0xffffffff, 0xffffffff, 0xffffffff, 0xffffffff]

  predicate Alphanumeric(c: Byte) {
    0x30 <= c <= 0x39 || 0x41 <= c <= 0x5A || 0x61 <= c <= 0x7A
  }

  /** `!'()*-._~`, the marks a query value may hold as they are. */
  predicate Mark(c: Byte) {
    c == 0x21 || 0x27 <= c <= 0x2A || c == 0x2D || c == 0x2E || c == 0x5F || c == 0x7E
  }

  /** Non-printable, not seven-bit, or one of ` "#%:<>?[\]^`{|}`. */
  predicate BadInPath(c: Byte) {
    || c <= 0x20 || c >= 0x7F || c == 0x22 || c == 0x23 || c == 0x25 || c == 0x3A || c == 0x3C
    || c == 0x3E || c == 0x3F || 0x5B <= c <= 0x5E || c == 0x60 || 0x7B <= c <= 0x7D
  }

  lemma WordOf(c: Byte)
    ensures c < 32 ==> (c >> 5) as int == 0
    ensures 32 <= c < 64 ==> (c >> 5) as int == 1
    ensures 64 <= c < 96 ==> (c >> 5) as int == 2
    ensures 96 <= c < 128 ==> (c >> 5) as int == 3
    ensures 128 <= c ==> (c >> 5) as int >= 4
  {
  }

  lemma AllBits(c: Byte)
    ensures Bit(0xffffffff, c)
  {
  }

  lemma QueryBits(c: Byte)
    ensures 32 <= c < 64 ==> (Bit(0xfc00987d, c) <==> !Alphanumeric(c) && !Mark(c))
    ensures 64 <= c < 96 ==> (Bit(0x78000001, c) <==> !Alphanumeric(c) && !Mark(c))
    ensures 96 <= c < 128 ==> (Bit(0xb8000001, c) <==> !Alphanumeric(c) && !Mark(c))
  {
  }

  lemma PathBits(c: Byte)
    ensures 32 <= c < 64 ==> (Bit(0xd400002d, c) <==> BadInPath(c))
    ensures 64 <= c < 96 ==> (Bit(0x78000000, c) <==> BadInPath(c))
    ensures 96 <= c < 128 ==> (Bit(0xb8000001, c) <==> BadInPath(c))
  {
  }

  /** The two tables hold what the source's comments say they hold. */
  lemma QueryCharmap(c: Byte)
    ensures Contains(QUERY, c) <==> !Alphanumeric(c) && !Mark(c)
  {
    WordOf(c);
    AllBits(c);
    QueryBits(c);
  }

  lemma PathCharmap(c: Byte)
    ensures Contains(PATH, c) <==> BadInPath(c)
  {
    WordOf(c);
    AllBits(c);
    PathBits(c);
  }

  /** What the first byte of a text becomes. */
  function EscapedFirst(text: Bytes, charmap: Charmap, usePlus: bool, keepEscaped: bool): Bytes
    requires text != []
  {
    var c := text[0];
    if usePlus && c == SPACE then [PLUS]
    else if keepEscaped && c == PERCENT && |text| > 2 && IsHex(text[1]) && IsHex(text[2]) then [PERCENT]
    else if Contains(charmap, c) then [PERCENT, IntToHex(c >> 4), IntToHex(c & 0xF)]
    else [c]
  }

  function Escaped(text: Bytes, charmap: Charmap, usePlus: bool, keepEscaped: bool): Bytes {
    if text == [] then []
    else EscapedFirst(text, charmap, usePlus, keepEscaped) + Escaped(text[1..], charmap, usePlus, keepEscaped)
  }

  lemma EscapedFrom(text: Bytes, i: nat, charmap: Charmap, usePlus: bool, keepEscaped: bool)
    requires i < |text|
    ensures Escaped(text[i..], charmap, usePlus, keepEscaped) ==
            EscapedFirst(text[i..], charmap, usePlus, keepEscaped)
            + Escaped(text[i + 1..], charmap, usePlus, keepEscaped)
  {
    assert text[i..][1..] == text[i + 1..];
  }

  /** One turn of the loop: what the byte at a position becomes. */
  method EscapeAt(text: Bytes, i: nat, charmap: Charmap, usePlus: bool, keepEscaped: bool) returns (piece: Bytes)
    requires i < |text|
    ensures piece == EscapedFirst(text[i..], charmap, usePlus, keepEscaped)
  {
    var c := text[i];
    if usePlus && c == SPACE {
      piece := [PLUS];
    } else if keepEscaped && c == PERCENT && i + 2 < |text| && IsHex(text[i + 1]) && IsHex(text[i + 2]) {
      piece := [PERCENT];
    } else if Contains(charmap, c) {
      piece := [PERCENT, IntToHex(c >> 4), IntToHex(c & 0xF)];
    } else {
      piece := [c];
    }
  }

  method Escape(text: Bytes, charmap: Charmap, usePlus: bool, keepEscaped: bool) returns (escaped: Bytes)
    ensures escaped == Escaped(text, charmap, usePlus, keepEscaped)
  {
    escaped := [];
    var i := 0;
    while i < |text|
      invariant 0 <= i <= |text|
      invariant escaped + Escaped(text[i..], charmap, usePlus, keepEscaped)
             == Escaped(text, charmap, usePlus, keepEscaped)
    {
      var piece := EscapeAt(text, i, charmap, usePlus, keepEscaped);
      EscapedFrom(text, i, charmap, usePlus, keepEscaped);
      Reassociate(escaped, piece, Escaped(text[i + 1..], charmap, usePlus, keepEscaped));
      escaped := escaped + piece;
      i := i + 1;
    }
    assert text[|text|..] == [];
  }

  // Unescaping.

  const SPACES: bv32 := 1
  const PATH_SEPARATORS: bv32 := 2

  /** Whether the rules let an escape of this byte be undone. */
  predicate Allowed(c: Byte, rules: bv32) {
    && (c == SPACE ==> rules & SPACES != 0)
    && (c == SLASH || c == BACKSLASH ==> rules & PATH_SEPARATORS != 0)
  }

  function Value(high: Byte, low: Byte): Byte {
    (HexToInt(high) << 4) | HexToInt(low)
  }

  /** Whether the text begins with an escape that is to be undone. */
  predicate Undone(text: Bytes, rules: bv32) {
    && |text| > 2 && text[0] == PERCENT && IsHex(text[1]) && IsHex(text[2])
    && Allowed(Value(text[1], text[2]), rules)
  }

  function Unescaped(text: Bytes, rules: bv32): Bytes {
    if text == [] then []
    else if Undone(text, rules) then [Value(text[1], text[2])] + Unescaped(text[3..], rules)
    else [text[0]] + Unescaped(text[1..], rules)
  }

  /** One turn of the loop: the byte produced at a position, and the next position. */
  method UnescapeAt(text: Bytes, i: nat, rules: bv32) returns (c: Byte, next: nat)
    requires i < |text|
    ensures Undone(text[i..], rules) ==> i + 3 <= |text| && next == i + 3 && c == Value(text[i + 1], text[i + 2])
    ensures !Undone(text[i..], rules) ==> next == i + 1 && c == text[i]
  {
    if text[i] == PERCENT && i + 2 < |text| {
      var high, low := HexToInt(text[i + 1]), HexToInt(text[i + 2]);
      if high != NOT_HEX && low != NOT_HEX {
        c := (high << 4) | low;
        var shouldUnescape := true;
        if c == SPACE && rules & SPACES == 0 { shouldUnescape := false; }
        if (c == SLASH || c == BACKSLASH) && rules & PATH_SEPARATORS == 0 { shouldUnescape := false; }
        if shouldUnescape { return c, i + 3; }
      }
    }
    return text[i], i + 1;
  }

  method UnescapeURLComponent(text: Bytes, rules: bv32) returns (result: Bytes)
    ensures result == Unescaped(text, rules)
  {
    result := [];
    var i := 0;
    while i < |text|
      invariant 0 <= i <= |text|
      invariant result + Unescaped(text[i..], rules) == Unescaped(text, rules)
    {
      var c, next := UnescapeAt(text, i, rules);
      assert text[i..][next - i..] == text[next..];
      assert Unescaped(text[i..], rules) == [c] + Unescaped(text[next..], rules);
      Reassociate(result, [c], Unescaped(text[next..], rules));
      result := result + [c];
      i := next;
    }
    assert text[|text|..] == [];
  }

  // Laws of the digits.

  lemma HexRoundTrip(c: Byte)
    ensures c >> 4 < 16 && c & 0xF < 16
    ensures IsHex(IntToHex(c >> 4)) && IsHex(IntToHex(c & 0xF))
    ensures Value(IntToHex(c >> 4), IntToHex(c & 0xF)) == c
  {
  }

  lemma HexIsPlain(c: Byte)
    requires IsHex(c)
    ensures c != PERCENT && c != SPACE
  {
  }

  /** `0123456789ABCDEF` and `0123456789abcdef`. */
  const UPPER: Bytes := [0x30, 0x31, 0x32, 0x33, 0x34, 0x35, 0x36, 0x37, 0x38, 0x39, 0x41, 0x42, 0x43, 0x44, 0x45, 0x46]
  const LOWER: Bytes := [0x30, 0x31, 0x32, 0x33, 0x34, 0x35, 0x36, 0x37, 0x38, 0x39, 0x61, 0x62, 0x63, 0x64, 0x65, 0x66]

  predicate EitherCase(d: Byte) { d in UPPER || d in LOWER }

  /** The digit i, in either case. */
  predicate IsDigit(d: Byte, i: Byte) { i < 16 && (d == UPPER[i as int] || d == LOWER[i as int]) }

  lemma DigitIs(d: Byte, i: Byte)
    requires IsDigit(d, i)
    ensures HexToInt(d) == i && IsHex(d)
  {
    var n := i as int;
    assert n == 0 || n == 1 || n == 2 || n == 3 || n == 4 || n == 5 || n == 6 || n == 7
        || n == 8 || n == 9 || n == 10 || n == 11 || n == 12 || n == 13 || n == 14 || n == 15;
  }

  lemma WrittenDigit(i: Byte)
    requires i < 16
    ensures IntToHex(i) == UPPER[i as int]
  {
    var n := i as int;
    assert n == 0 || n == 1 || n == 2 || n == 3 || n == 4 || n == 5 || n == 6 || n == 7
        || n == 8 || n == 9 || n == 10 || n == 11 || n == 12 || n == 13 || n == 14 || n == 15;
  }

  lemma HexIsDigit(d: Byte)
    ensures IsHex(d) <==> EitherCase(d)
  {
    if IsHex(d) {
      if d <= 0x39 {
        assert d == UPPER[0] || d == UPPER[1] || d == UPPER[2] || d == UPPER[3] || d == UPPER[4]
            || d == UPPER[5] || d == UPPER[6] || d == UPPER[7] || d == UPPER[8] || d == UPPER[9];
      } else if d <= 0x46 {
        assert d == UPPER[10] || d == UPPER[11] || d == UPPER[12]
            || d == UPPER[13] || d == UPPER[14] || d == UPPER[15];
      } else {
        assert d == LOWER[10] || d == LOWER[11] || d == LOWER[12]
            || d == LOWER[13] || d == LOWER[14] || d == LOWER[15];
      }
    }
  }

  lemma NibblesOf(i: Byte, j: Byte)
    requires i < 16 && j < 16
    ensures (i << 4) | j == 16 * i + j
    ensures (16 * i + j) as int == 16 * i as int + j as int
  {
  }

  /** An escape of this byte stays as it is: a space, or a slash or backslash, that the rules do not mention. */
  predicate Held(c: Byte, rules: bv32) {
    || (c == 0x20 && rules & 1 == 0)
    || ((c == 0x2F || c == 0x5C) && rules & 2 == 0)
  }

  /** What an escape means, whoever wrote it: `%` and the digits i and j, in any case, are the byte 16 i + j. */
  lemma ForeignEscape(high: Byte, low: Byte, i: Byte, j: Byte, rest: Bytes, rules: bv32)
    requires IsDigit(high, i) && IsDigit(low, j)
    ensures (16 * i + j) as int == 16 * i as int + j as int
    ensures Unescaped([0x25, high, low] + rest, rules) ==
            if Held(16 * i + j, rules) then [0x25] + Unescaped([high, low] + rest, rules)
            else [16 * i + j] + Unescaped(rest, rules)
  {
    NibblesOf(i, j);
    DigitPair(high, low, i, j);
    HeldIs(16 * i + j, rules);
    var text := [0x25, high, low] + rest;
    assert text[3..] == rest && text[1..] == [high, low] + rest;
  }

  lemma DigitPair(high: Byte, low: Byte, i: Byte, j: Byte)
    requires IsDigit(high, i) && IsDigit(low, j)
    ensures IsHex(high) && IsHex(low) && Value(high, low) == 16 * i + j
  {
    DigitIs(high, i);
    DigitIs(low, j);
    NibblesOf(i, j);
  }

  lemma HeldIs(c: Byte, rules: bv32)
    ensures Held(c, rules) <==> !Allowed(c, rules)
  {
  }

  /** Every byte that does not begin an escape stays. */
  lemma NoEscape(text: Bytes, rules: bv32)
    requires text != []
    requires text[0] != 0x25 || |text| < 3 || !EitherCase(text[1]) || !EitherCase(text[2])
    ensures Unescaped(text, rules) == [text[0]] + Unescaped(text[1..], rules)
  {
    if |text| >= 3 {
      HexIsDigit(text[1]);
      HexIsDigit(text[2]);
    }
  }

  /** The two upper-case digits of a byte. */
  function Digits(c: Byte): Bytes { [UPPER[(c / 16) as int], UPPER[(c % 16) as int]] }

  lemma WrittenFirst(text: Bytes, kept: bool, charmap: Charmap, usePlus: bool, keepEscaped: bool)
    requires text != [] && (kept <==> |text| > 2 && IsHex(text[1]) && IsHex(text[2]))
    ensures EscapedFirst(text, charmap, usePlus, keepEscaped) ==
            if usePlus && text[0] == 0x20 then [0x2B]
            else if keepEscaped && text[0] == 0x25 && kept then [0x25]
            else if Contains(charmap, text[0]) then [0x25] + Digits(text[0])
            else [text[0]]
  {
    WrittenPair(text[0]);
  }

  /** What escaping writes for a byte c: `+`, a kept `%`, `%` and two upper-case digits, or the byte itself. */
  lemma WrittenEscape(c: Byte, rest: Bytes, charmap: Charmap, usePlus: bool, keepEscaped: bool)
    ensures var kept := |rest| >= 2 && EitherCase(rest[0]) && EitherCase(rest[1]);
            Escaped([c] + rest, charmap, usePlus, keepEscaped) ==
            (if usePlus && c == 0x20 then [0x2B]
             else if keepEscaped && c == 0x25 && kept then [0x25]
             else if Contains(charmap, c) then [0x25] + Digits(c)
             else [c]) + Escaped(rest, charmap, usePlus, keepEscaped)
  {
    var text := [c] + rest;
    assert text[1..] == rest;
    var kept := |rest| >= 2 && EitherCase(rest[0]) && EitherCase(rest[1]);
    if |rest| >= 2 {
      HexIsDigit(rest[0]);
      HexIsDigit(rest[1]);
    }
    WrittenFirst(text, kept, charmap, usePlus, keepEscaped);
  }

  lemma WrittenPair(c: Byte)
    ensures c >> 4 < 16 && c & 0xF < 16 && c / 16 < 16 && c % 16 < 16
    ensures IntToHex(c >> 4) == UPPER[(c / 16) as int] && IntToHex(c & 0xF) == UPPER[(c % 16) as int]
  {
    DivideByte(c);
    WrittenDigit(c >> 4);
    WrittenDigit(c & 0xF);
  }

  lemma DivideByte(c: Byte)
    ensures c / 16 == c >> 4 && c % 16 == c & 0xF && c / 16 < 16 && c % 16 < 16
  {
  }

  // Main results.

  /** An escape is undone exactly when that is allowed. */
  lemma UndoEscape(c: Byte, rest: Bytes, rules: bv32)
    ensures c >> 4 < 16 && c & 0xF < 16
    ensures var text := [PERCENT, IntToHex(c >> 4), IntToHex(c & 0xF)] + rest;
            if Allowed(c, rules) then Unescaped(text, rules) == [c] + Unescaped(rest, rules)
            else Unescaped(text, rules) == [PERCENT, IntToHex(c >> 4), IntToHex(c & 0xF)] + Unescaped(rest, rules)
  {
    HexRoundTrip(c);
    var h, l := IntToHex(c >> 4), IntToHex(c & 0xF);
    HexIsPlain(h);
    HexIsPlain(l);
    var text := [PERCENT, h, l] + rest;
    assert text[3..] == rest && text[1..] == [h, l] + rest;
    assert ([h, l] + rest)[1..] == [l] + rest && ([l] + rest)[1..] == rest;
    assert Undone(text, rules) <==> Allowed(c, rules);
    if !Allowed(c, rules) {
      assert Unescaped([l] + rest, rules) == [l] + Unescaped(rest, rules);
      assert Unescaped([h, l] + rest, rules) == [h] + Unescaped([l] + rest, rules);
    }
  }

  predicate AllAllowed(text: Bytes, charmap: Charmap, rules: bv32) {
    forall i :: 0 <= i < |text| && Contains(charmap, text[i]) ==> Allowed(text[i], rules)
  }

  /** What one escaped byte is turned back into. */
  function Restored(c: Byte, charmap: Charmap, rules: bv32): Bytes {
    if Contains(charmap, c) && !Allowed(c, rules) then EscapedFirst([c], charmap, false, false) else [c]
  }

  lemma RestoreFirst(text: Bytes, rest: Bytes, charmap: Charmap, rules: bv32)
    requires Contains(charmap, PERCENT) && text != []
    ensures Unescaped(EscapedFirst(text, charmap, false, false) + rest, rules)
         == Restored(text[0], charmap, rules) + Unescaped(rest, rules)
  {
    var c := text[0];
    if Contains(charmap, c) {
      UndoEscape(c, rest, rules);
    } else {
      assert ([c] + rest)[1..] == rest;
    }
  }

  lemma RestoredIs(c: Byte, charmap: Charmap, rules: bv32)
    ensures Contains(charmap, c) && !Allowed(c, rules) ==> c != PERCENT && Restored(c, charmap, rules)[0] == PERCENT
    ensures !(Contains(charmap, c) && !Allowed(c, rules)) ==> Restored(c, charmap, rules) == [c]
  {
  }

  lemma AllAllowedFirst(text: Bytes, charmap: Charmap, rules: bv32)
    requires text != []
    ensures AllAllowed(text, charmap, rules) <==>
            !(Contains(charmap, text[0]) && !Allowed(text[0], rules)) && AllAllowed(text[1..], charmap, rules)
  {
    assert forall i :: 0 <= i < |text| - 1 ==> text[1..][i] == text[i + 1];
    if AllAllowed(text[1..], charmap, rules) {
      forall i | 0 < i < |text| && Contains(charmap, text[i]) ensures Allowed(text[i], rules) {
        assert text[i] == text[1..][i - 1];
      }
    }
  }

  lemma RestoredSplit(text: Bytes, first: Bytes, rest: Bytes)
    requires text != [] && first != []
    requires first == [text[0]] || first[0] != text[0]
    ensures first + rest == text <==> first == [text[0]] && rest == text[1..]
  {
    assert text == [text[0]] + text[1..];
    if first + rest == text {
      assert (first + rest)[0] == first[0] && (first + rest)[|first|..] == rest;
    }
  }

  /** Unescaping restores a text exactly when the rules allow every escape in it to be undone. */
  lemma {:induction false} RoundTrip(text: Bytes, charmap: Charmap, rules: bv32)
    requires Contains(charmap, PERCENT)
    ensures Unescaped(Escaped(text, charmap, false, false), rules) == text <==> AllAllowed(text, charmap, rules)
  {
    if text != [] {
      var rest := Escaped(text[1..], charmap, false, false);
      RestoreFirst(text, rest, charmap, rules);
      RestoredIs(text[0], charmap, rules);
      AllAllowedFirst(text, charmap, rules);
      RoundTrip(text[1..], charmap, rules);
      RestoredSplit(text, Restored(text[0], charmap, rules), Unescaped(rest, rules));
    }
  }

  const ALL_RULES: bv32 := SPACES | PATH_SEPARATORS

  lemma AnythingAllowed(c: Byte)
    ensures Allowed(c, ALL_RULES)
  {
  }

  /** With both rules on, both ways of escaping are inverted on every text. */
  lemma QueryRoundTrip(text: Bytes)
    ensures Unescaped(Escaped(text, QUERY, false, false), ALL_RULES) == text
  {
    QueryCharmap(PERCENT);
    forall i | 0 <= i < |text| ensures Allowed(text[i], ALL_RULES) { AnythingAllowed(text[i]); }
    RoundTrip(text, QUERY, ALL_RULES);
  }

  lemma PathRoundTrip(text: Bytes, rules: bv32)
    ensures Unescaped(Escaped(text, PATH, false, false), rules) == text <==>
            (SPACE in text ==> rules & SPACES != 0) && (BACKSLASH in text ==> rules & PATH_SEPARATORS != 0)
  {
    PathCharmap(PERCENT);
    PathCharmap(SPACE);
    PathCharmap(SLASH);
    PathCharmap(BACKSLASH);
    RoundTrip(text, PATH, rules);
  }

  // Which tables work for every text.

  ghost predicate Invertible(charmap: Charmap, rules: bv32) {
    forall text :: Unescaped(Escaped(text, charmap, false, false), rules) == text
  }

  lemma HexPairs(d: Byte, rules: bv32)
    requires IsHex(d)
    ensures Allowed(Value(d, d), rules)
  {
  }

  /** A `%` left as it is and followed by two digits left as they are is taken for an escape. */
  lemma BarePercentFails(charmap: Charmap, rules: bv32, d: Byte)
    requires !Contains(charmap, PERCENT) && IsHex(d) && !Contains(charmap, d)
    ensures Unescaped(Escaped([PERCENT, d, d], charmap, false, false), rules) != [PERCENT, d, d]
  {
    var text := [PERCENT, d, d];
    assert text[1..] == [d, d] && [d, d][1..] == [d] && [d][1..] == [];
    assert Escaped([d], charmap, false, false) == [d];
    assert Escaped([d, d], charmap, false, false) == [d, d];
    assert Escaped(text, charmap, false, false) == text;
    HexPairs(d, rules);
    assert text[3..] == [];
  }

  lemma ForbiddenFails(charmap: Charmap, rules: bv32, c: Byte)
    requires Contains(charmap, c) && !Allowed(c, rules)
    ensures Unescaped(Escaped([c], charmap, false, false), rules) != [c]
  {
    assert [c][1..] == [];
    UndoEscape(c, [], rules);
    assert EscapedFirst([c], charmap, false, false) + [] == EscapedFirst([c], charmap, false, false);
  }

  lemma NoDigitFirst(text: Bytes, charmap: Charmap)
    requires forall d :: IsHex(d) ==> Contains(charmap, d)
    ensures var escaped := Escaped(text, charmap, false, false); escaped != [] ==> !IsHex(escaped[0])
  {
    if text != [] { assert EscapedFirst(text, charmap, false, false) != []; }
  }

  /** With every digit escaped, a bare `%` is never followed by one. */
  lemma {:induction false} NoDigitLeft(text: Bytes, charmap: Charmap, rules: bv32)
    requires !Contains(charmap, PERCENT) && (forall d :: IsHex(d) ==> Contains(charmap, d))
    requires forall c :: Contains(charmap, c) ==> Allowed(c, rules)
    ensures Unescaped(Escaped(text, charmap, false, false), rules) == text
  {
    if text != [] {
      var c, rest := text[0], Escaped(text[1..], charmap, false, false);
      NoDigitLeft(text[1..], charmap, rules);
      NoDigitFirst(text[1..], charmap);
      assert text == [c] + text[1..];
      if Contains(charmap, c) {
        UndoEscape(c, rest, rules);
      } else {
        assert ([c] + rest)[1..] == rest;
      }
    }
  }

  lemma WorksForAll(text: Bytes, charmap: Charmap, rules: bv32)
    requires Contains(charmap, PERCENT) || (forall d :: IsHex(d) ==> Contains(charmap, d))
    requires forall c :: Contains(charmap, c) ==> Allowed(c, rules)
    ensures Unescaped(Escaped(text, charmap, false, false), rules) == text
  {
    if Contains(charmap, PERCENT) {
      RoundTrip(text, charmap, rules);
    } else {
      NoDigitLeft(text, charmap, rules);
    }
  }

  /** The exact condition: every escape may be undone, and `%` or else every digit is escaped. */
  lemma WhichCharmapsWork(charmap: Charmap, rules: bv32)
    ensures Invertible(charmap, rules) <==>
            && (forall c :: Contains(charmap, c) ==> Allowed(c, rules))
            && (Contains(charmap, PERCENT) || forall d :: IsHex(d) ==> Contains(charmap, d))
  {
    if c :| Contains(charmap, c) && !Allowed(c, rules) {
      ForbiddenFails(charmap, rules, c);
    } else if d :| !Contains(charmap, PERCENT) && IsHex(d) && !Contains(charmap, d) {
      BarePercentFails(charmap, rules, d);
    } else {
      forall text ensures Unescaped(Escaped(text, charmap, false, false), rules) == text {
        WorksForAll(text, charmap, rules);
      }
    }
  }

  // The form of escaped text.

  /** Every `%` begins a complete escape. */
  predicate WellEscaped(text: Bytes) {
    forall i :: 0 <= i < |text| && text[i] == PERCENT ==> i + 2 < |text| && IsHex(text[i + 1]) && IsHex(text[i + 2])
  }

  lemma WellEscapedConcat(a: Bytes, b: Bytes)
    requires WellEscaped(a) && WellEscaped(b)
    ensures WellEscaped(a + b)
  {
    var ab := a + b;
    forall i | 0 <= i < |ab| && ab[i] == PERCENT ensures i + 2 < |ab| && IsHex(ab[i + 1]) && IsHex(ab[i + 2]) {
      if i < |a| { assert a[i] == PERCENT; } else { assert b[i - |a|] == PERCENT; }
    }
  }

  lemma FirstWellEscaped(text: Bytes, charmap: Charmap, usePlus: bool)
    requires Contains(charmap, PERCENT) && text != []
    ensures var piece := EscapedFirst(text, charmap, usePlus, false); |piece| <= 3 && WellEscaped(piece)
  {
    HexRoundTrip(text[0]);
    HexIsPlain(IntToHex(text[0] >> 4));
    HexIsPlain(IntToHex(text[0] & 0xF));
  }

  lemma {:induction false} EscapedForm(text: Bytes, charmap: Charmap, usePlus: bool)
    requires Contains(charmap, PERCENT)
    ensures |Escaped(text, charmap, usePlus, false)| <= 3 * |text|
    ensures WellEscaped(Escaped(text, charmap, usePlus, false))
  {
    if text != [] {
      FirstWellEscaped(text, charmap, usePlus);
      EscapedForm(text[1..], charmap, usePlus);
      WellEscapedConcat(EscapedFirst(text, charmap, usePlus, false), Escaped(text[1..], charmap, usePlus, false));
    }
  }

  // The optional arguments.

  /** `+` for a space is not undone, so a query value with plus comes back with `+` for every space. */
  function Plussed(text: Bytes): Bytes {
    seq(|text|, i requires 0 <= i < |text| => if text[i] == SPACE then PLUS else text[i])
  }

  lemma {:induction false} PlusRoundTrip(text: Bytes)
    ensures Unescaped(Escaped(text, QUERY, true, false), ALL_RULES) == Plussed(text)
  {
    if text != [] {
      var c, rest := text[0], Escaped(text[1..], QUERY, true, false);
      PlusRoundTrip(text[1..]);
      QueryCharmap(PERCENT);
      assert Plussed(text) == Plussed([c]) + Plussed(text[1..]);
      if c == SPACE {
        assert ([PLUS] + rest)[1..] == rest;
      } else {
        AnythingAllowed(c);
        RestoreFirst(text, rest, QUERY, ALL_RULES);
        RestoredIs(c, QUERY, ALL_RULES);
      }
    }
  }

  ghost predicate NothingToEscape(text: Bytes, charmap: Charmap) {
    forall i :: 0 <= i < |text| && text[i] != PERCENT ==> !Contains(charmap, text[i])
  }

  lemma {:induction false} KeptAsIs(text: Bytes, charmap: Charmap)
    requires WellEscaped(text) && NothingToEscape(text, charmap)
    ensures Escaped(text, charmap, false, true) == text
  {
    if text != [] {
      var rest := text[1..];
      forall i | 0 <= i < |rest| && rest[i] == PERCENT
        ensures i + 2 < |rest| && IsHex(rest[i + 1]) && IsHex(rest[i + 2])
      {
        assert text[i + 1] == PERCENT;
      }
      assert forall i :: 0 <= i < |rest| ==> rest[i] == text[i + 1];
      KeptAsIs(rest, charmap);
      assert EscapedFirst(text, charmap, false, true) == [text[0]];
    }
  }

  lemma {:induction false} EscapedHasNothingToEscape(text: Bytes, charmap: Charmap)
    requires forall d :: IsHex(d) ==> !Contains(charmap, d)
    ensures NothingToEscape(Escaped(text, charmap, false, false), charmap)
  {
    if text != [] {
      HexRoundTrip(text[0]);
      EscapedHasNothingToEscape(text[1..], charmap);
      assert NothingToEscape(EscapedFirst(text, charmap, false, false), charmap);
    }
  }

  /** Escaping once more, keeping what is escaped, changes nothing. */
  lemma EscapingTwice(text: Bytes, charmap: Charmap)
    requires Contains(charmap, PERCENT) && forall d :: IsHex(d) ==> !Contains(charmap, d)
    ensures var once := Escaped(text, charmap, false, false); Escaped(once, charmap, false, true) == once
  {
    EscapedForm(text, charmap, false);
    EscapedHasNothingToEscape(text, charmap);
    KeptAsIs(Escaped(text, charmap, false, false), charmap);
  }
}
