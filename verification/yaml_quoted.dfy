/**
 Quoted scalars: what the emitter's two quoted-scalar writers put out, and what the scanner reads
 back.

 The first part gives the text that a value produces as a function of its scalar values and the
 pen position; the second part gives the scanner as functions of the remaining input.  The round
 trips hold for every value of Unicode scalar values, every width and every line break setting.
 */
module YamlQuoted {
  import opened Bytes
  import opened YamlBytes

  datatype Break = CrBreak | LnBreak | CrLnBreak

  function LineBreak(b: Break): Text {
    match b
    case CrBreak => [0x0D]
    case LnBreak => [0x0A]
    case CrLnBreak => [0x0D, 0x0A]
  }

  /** `indent` is the emitter's indentation while it writes the scalar. */
  datatype Settings =
    Settings(indent: int, bestWidth: int, lineBreak: Break, unicode: bool, allowBreaks: bool)

  datatype Pen = Pen(column: int, whitespace: bool, indention: bool)

  const QUOTE: byte := 0x22
  const APOSTROPHE: byte := 0x27
  const BACKSLASH: byte := 0x5C

  function Spaces(n: int): Text {
    seq(if n < 0 then 0 else n, _ => 0x20)
  }

  // ---------------------------------------------------------------------------------------------
  // Writing

  predicate BreaksLine(pen: Pen, cfg: Settings) {
    !pen.indention || pen.column > cfg.indent || (pen.column == cfg.indent && !pen.whitespace)
  }

  function IndentText(pen: Pen, cfg: Settings): Text {
    if BreaksLine(pen, cfg) then LineBreak(cfg.lineBreak) + Spaces(cfg.indent)
    else Spaces(cfg.indent - pen.column)
  }

  function IndentPen(pen: Pen, cfg: Settings): Pen {
    var column := if BreaksLine(pen, cfg) then 0 else pen.column;
    Pen(if column < cfg.indent then cfg.indent else column, true, true)
  }

  function HexDigit(d: int): byte
    requires 0 <= d < 16
  {
    if d < 10 then 0x30 + d else 0x41 + d - 10
  }

  function HexDigits(v: nat, n: nat): Text {
    if n == 0 then [] else HexDigits(v / 16, n - 1) + [HexDigit(v % 16)]
  }

  /** The letter of a one-letter escape, if the character has one. */
  function ShortEscape(c: Scalar): int {
    if c == 0x00 then 0x30 else if c == 0x07 then 0x61 else if c == 0x08 then 0x62
    else if c == 0x09 then 0x74 else if c == 0x0A then 0x6E else if c == 0x0B then 0x76
    else if c == 0x0C then 0x66 else if c == 0x0D then 0x72 else if c == 0x1B then 0x65
    else if c == 0x22 then 0x22 else if c == 0x5C then 0x5C else if c == 0x85 then 0x4E
    else if c == 0xA0 then 0x5F else if c == 0x2028 then 0x4C else if c == 0x2029 then 0x50
    else -1
  }

  function Escape(c: Scalar): Text {
    if ShortEscape(c) >= 0 then [BACKSLASH, ShortEscape(c)]
    else if c <= 0xFF then [BACKSLASH, 0x78] + HexDigits(c, 2)
    else if c <= 0xFFFF then [BACKSLASH, 0x75] + HexDigits(c, 4)
    else [BACKSLASH, 0x55] + HexDigits(c, 8)
  }

  /** `bom` says that the value starts with a byte order mark, which makes every character escape. */
  predicate MustEscape(c: Scalar, unicode: bool, bom: bool) {
    || !PrintableScalar(c) || (!unicode && c > 0x7F) || bom || BreakScalar(c)
    || c == 0x22 || c == 0x5C
  }

  /** Whether a space is replaced by a line break in a double-quoted scalar. */
  predicate FoldsDouble(cs: seq<Scalar>, first: bool, spaces: bool, pen: Pen, cfg: Settings) {
    cfg.allowBreaks && !spaces && pen.column > cfg.bestWidth && !first && |cs| > 1
  }

  function DoubleBody(cs: seq<Scalar>, first: bool, spaces: bool, pen: Pen, cfg: Settings, bom: bool): Text {
    if cs == [] then []
    else
      var c := cs[0];
      if MustEscape(c, cfg.unicode, bom) then
        Escape(c) + DoubleBody(cs[1..], false, false, pen.(column := pen.column + |Escape(c)|), cfg, bom)
      else if c == 0x20 then
        if FoldsDouble(cs, first, spaces, pen, cfg) then
          var after := IndentPen(pen, cfg);
          if cs[1] == 0x20 then
            IndentText(pen, cfg) + [BACKSLASH]
            + DoubleBody(cs[1..], false, true, after.(column := after.column + 1), cfg, bom)
          else IndentText(pen, cfg) + DoubleBody(cs[1..], false, true, after, cfg, bom)
        else [0x20] + DoubleBody(cs[1..], false, true, pen.(column := pen.column + 1), cfg, bom)
      else
        Encode(c) + DoubleBody(cs[1..], false, false, pen.(column := pen.column + 1), cfg, bom)
  }

  // ---------------------------------------------------------------------------------------------
  // Scanning

  datatype Scan = Done(value: Text, rest: Text) | Bad

  function Drop(r: Text, n: nat): Text {
    if n <= |r| then r[n..] else []
  }

  function Take(r: Text, n: nat): Text {
    if n <= |r| then r[..n] else r
  }

  function BreakWidth(r: Text, i: nat): nat {
    if At(r, i) == 0x0D && At(r, i + 1) == 0x0A then 2 else Width(At(r, i))
  }

  /** A line break is read as a line feed, except that the Unicode separators stay as they are. */
  function BreakText(r: Text): Text {
    if At(r, 0) == 0xE2 then [0xE2, 0x80, At(r, 2)] else [0x0A]
  }

  predicate Marks(r: Text, c: byte) {
    At(r, 0) == c && At(r, 1) == c && At(r, 2) == c && IsBlankz(r, 3)
  }

  predicate DocumentIndicator(r: Text, column: nat) {
    column == 0 && (Marks(r, 0x2D) || Marks(r, 0x2E))
  }

  function HexValue(t: Text): int {
    if t == [] then 0 else HexValue(t[..|t| - 1]) * 16 + AsHex(t[|t| - 1])
  }

  function CodeLength(letter: byte): nat {
    if letter == 0x78 then 2 else if letter == 0x75 then 4 else if letter == 0x55 then 8 else 0
  }

  /** The text of a one-letter escape, empty for an unknown letter. */
  function LetterText(letter: byte): Text {
    if letter == 0x30 then [0x00] else if letter == 0x61 then [0x07] else if letter == 0x62 then [0x08]
    else if letter == 0x74 || letter == 0x09 then [0x09] else if letter == 0x6E then [0x0A]
    else if letter == 0x76 then [0x0B] else if letter == 0x66 then [0x0C]
    else if letter == 0x72 then [0x0D] else if letter == 0x65 then [0x1B]
    else if letter == 0x20 then [0x20] else if letter == 0x22 then [0x22]
    else if letter == 0x27 then [0x27] else if letter == 0x5C then [0x5C]
    else if letter == 0x4E then [0xC2, 0x85] else if letter == 0x5F then [0xC2, 0xA0]
    else if letter == 0x4C then [0xE2, 0x80, 0xA8] else if letter == 0x50 then [0xE2, 0x80, 0xA9]
    else []
  }

  predicate AllHex(r: Text, n: nat) {
    n + 2 <= |r| && forall k | 2 <= k < n + 2 :: IsHex(r[k])
  }

  predicate ScalarCode(v: int) {
    0 <= v <= 0x10FFFF && !(0xD800 <= v <= 0xDFFF)
  }

  /** The number of bytes of the escape sequence at the front, zero if it is malformed. */
  function EscapeLength(r: Text): nat {
    var n := CodeLength(At(r, 1));
    if n == 0 then if LetterText(At(r, 1)) == [] then 0 else 2
    else if AllHex(r, n) && ScalarCode(HexValue(r[2..n + 2])) then n + 2
    else 0
  }

  function EscapeText(r: Text): Text
    requires EscapeLength(r) > 0
  {
    var n := CodeLength(At(r, 1));
    if n == 0 then LetterText(At(r, 1)) else Encode(HexValue(r[2..n + 2]))
  }

  function Closing(single: bool): byte {
    if single then APOSTROPHE else QUOTE
  }

  /** Between words: the input left, the column, and the blanks and breaks collected so far. */
  datatype Gap =
    Gap(r: Text, column: nat, whitespaces: Text, leadingBreak: Text, trailingBreaks: Text, leadingBlanks: bool)

  predicate InGap(g: Gap) {
    IsBlank(g.r, 0) || IsBreak(g.r, 0)
  }

  function NextGap(g: Gap): Gap {
    if IsBlank(g.r, 0) then
      var h := g.(r := Drop(g.r, 1), column := g.column + 1);
      if g.leadingBlanks then h else h.(whitespaces := g.whitespaces + Take(g.r, 1))
    else
      var h := g.(r := Drop(g.r, BreakWidth(g.r, 0)), column := 0);
      if g.leadingBlanks then h.(trailingBreaks := g.trailingBreaks + BreakText(g.r))
      else h.(whitespaces := [], leadingBreak := g.leadingBreak + BreakText(g.r), leadingBlanks := true)
  }

  /** Joins whitespace, or folds line breaks. */
  function Joined(g: Gap): Text {
    if !g.leadingBlanks then g.whitespaces
    else if g.leadingBreak != [] && g.leadingBreak[0] == 0x0A then
      if g.trailingBreaks == [] then [0x20] else g.trailingBreaks
    else g.leadingBreak + g.trailingBreaks
  }

  lemma NextGapShrinks(g: Gap)
    requires InGap(g)
    ensures |NextGap(g).r| < |g.r|
  {}

  function ScanLine(r: Text, column: nat, s: Text, single: bool): Scan
    decreases |r|, 3
  {
    if DocumentIndicator(r, column) || IsZ(r, 0) then Bad else ScanWord(r, column, s, single)
  }

  function ScanWord(r: Text, column: nat, s: Text, single: bool): Scan
    decreases |r|, 2
  {
    if IsBlankz(r, 0) then AfterWord(Gap(r, column, [], [], [], false), s, single)
    else if single && At(r, 0) == APOSTROPHE && At(r, 1) == APOSTROPHE then
      ScanWord(Drop(r, 2), column + 2, s + [APOSTROPHE], single)
    else if At(r, 0) == Closing(single) then AfterWord(Gap(r, column, [], [], [], false), s, single)
    else if !single && At(r, 0) == BACKSLASH && IsBreak(r, 1) then
      AfterWord(Gap(Drop(r, 1 + BreakWidth(r, 1)), 0, [], [], [], true), s, single)
    else if !single && At(r, 0) == BACKSLASH then
      if EscapeLength(r) == 0 then Bad
      else ScanWord(Drop(r, EscapeLength(r)), column + EscapeLength(r), s + EscapeText(r), single)
    else if Width(At(r, 0)) == 0 then Bad
    else ScanWord(Drop(r, Width(At(r, 0))), column + 1, s + Take(r, Width(At(r, 0))), single)
  }

  /** At the end of the input this already is the failure that the next line would report. */
  function AfterWord(g: Gap, s: Text, single: bool): Scan
    decreases |g.r|, if g.leadingBlanks then 4 else 1
  {
    if At(g.r, 0) == Closing(single) then Done(s, Drop(g.r, 1))
    else if InGap(g) then
      NextGapShrinks(g);
      ScanBlanks(NextGap(g), s, single)
    else if g.leadingBlanks then ScanLine(g.r, g.column, s + Joined(g), single)
    else Bad
  }

  function ScanBlanks(g: Gap, s: Text, single: bool): Scan
    decreases |g.r|, 4
  {
    if InGap(g) then
      NextGapShrinks(g);
      ScanBlanks(NextGap(g), s, single)
    else ScanLine(g.r, g.column, s + Joined(g), single)
  }

  /** Scans a quoted scalar whose left quote is the first byte. */
  function ScanQuoted(r: Text, column: nat, single: bool): Scan {
    ScanLine(Drop(r, 1), column + 1, [], single)
  }

  // ---------------------------------------------------------------------------------------------
  // Reading back what was written: single steps

  function Pow16(n: nat): int {
    if n == 0 then 1 else 16 * Pow16(n - 1)
  }

  lemma {:induction false} HexRoundTrip(v: nat, n: nat)
    requires v < Pow16(n)
    ensures |HexDigits(v, n)| == n && HexValue(HexDigits(v, n)) == v
    ensures forall k | 0 <= k < n :: IsHex(HexDigits(v, n)[k])
  {
    if n == 0 {
    } else {
      HexRoundTrip(v / 16, n - 1);
      var t := HexDigits(v, n);
      assert t[..n - 1] == HexDigits(v / 16, n - 1);
      assert AsHex(HexDigit(v % 16)) == v % 16;
      forall k | 0 <= k < n ensures IsHex(t[k]) {
        if k < n - 1 { assert t[k] == HexDigits(v / 16, n - 1)[k]; }
      }
    }
  }

  lemma Pow16Values()
    ensures Pow16(2) == 0x100 && Pow16(4) == 0x10000 && Pow16(8) == 0x100000000
  {
    assert Pow16(3) == 0x1000;
    assert Pow16(5) == 0x100000 && Pow16(6) == 0x1000000 && Pow16(7) == 0x10000000;
  }

  lemma {:induction false} HexEscape(c: Scalar, letter: byte, n: nat, t: Text)
    requires n > 0 && CodeLength(letter) == n && c < Pow16(n)
    ensures var e := [BACKSLASH, letter] + HexDigits(c, n);
            EscapeLength(e + t) == |e| == n + 2 && EscapeText(e + t) == Encode(c)
  {
    hide Encode, Pow16;
    HexRoundTrip(c, n);
    hide HexDigits, HexValue;
    var e := [BACKSLASH, letter] + HexDigits(c, n);
    var r := e + t;
    assert r[1] == letter;
    assert r[2..n + 2] == HexDigits(c, n);
    forall k | 2 <= k < n + 2 ensures IsHex(r[k]) {
      assert r[k] == HexDigits(c, n)[k - 2];
    }
  }

  lemma {:induction false} EscapeReads(c: Scalar, t: Text)
    ensures EscapeLength(Escape(c) + t) == |Escape(c)| >= 2
    ensures EscapeText(Escape(c) + t) == Encode(c)
    ensures Escape(c)[0] == BACKSLASH && !IsBreak(Escape(c) + t, 1)
  {
    Pow16Values();
    hide Pow16, HexDigits, HexValue;
    var r := Escape(c) + t;
    if ShortEscape(c) >= 0 {
      assert r[0] == BACKSLASH && r[1] == ShortEscape(c);
    } else if c <= 0xFF {
      HexEscape(c, 0x78, 2, t);
      assert r[1] == 0x78;
    } else if c <= 0xFFFF {
      HexEscape(c, 0x75, 4, t);
      assert r[1] == 0x75;
    } else {
      HexEscape(c, 0x55, 8, t);
      assert r[1] == 0x55;
    }
  }

  lemma {:induction false} ScanEscape(c: Scalar, t: Text, column: nat, s: Text)
    ensures ScanWord(Escape(c) + t, column, s, false)
         == ScanWord(t, column + |Escape(c)|, s + Encode(c), false)
  {
    hide Encode, Escape, EscapeLength, EscapeText, ScanBlanks, ScanLine, AfterWord;
    EscapeReads(c, t);
    assert (Escape(c) + t)[|Escape(c)|..] == t;
  }

  /** A character that stands for itself inside quotes. */
  predicate SelfStanding(c: Scalar, single: bool) {
    && c != 0 && c != 0x20 && c != 0x09 && !BreakScalar(c)
    && (if single then c != 0x27 else c != 0x22 && c != 0x5C)
  }

  lemma EncodeHolds(c: Scalar, t: Text)
    ensures Holds(Encode(c) + t, 0, c) && 1 <= |Encode(c)| <= 4
  {
    hide Encode;
    EncodeLength(c);
    assert (Encode(c) + t)[0..|Encode(c)|] == Encode(c);
  }

  lemma EncodeLength(c: Scalar)
    ensures 1 <= |Encode(c)| <= 4
  {}

  lemma {:induction false} ScanPlain(c: Scalar, t: Text, column: nat, s: Text, single: bool)
    requires SelfStanding(c, single)
    ensures ScanWord(Encode(c) + t, column, s, single) == ScanWord(t, column + 1, s + Encode(c), single)
  {
    var r := Encode(c) + t;
    EncodeHolds(c, t);
    Classes(r, 0, c);
    hide Encode, ScanBlanks, ScanLine, AfterWord, IsBreak, Width, At;
    PlainStep(r, |Encode(c)|, column, s, single);
    assert r[|Encode(c)|..] == t && r[..|Encode(c)|] == Encode(c);
  }

  lemma PlainStep(r: Text, w: nat, column: nat, s: Text, single: bool)
    requires 0 < w <= |r| && Width(At(r, 0)) == w && !IsBlankz(r, 0)
    requires if single then At(r, 0) != 0x27 else At(r, 0) != 0x22 && At(r, 0) != 0x5C
    ensures ScanWord(r, column, s, single) == ScanWord(r[w..], column + 1, s + r[..w], single)
  {
    hide ScanBlanks, ScanLine, AfterWord, IsBlankz;
  }

  lemma {:induction false} SkipSpaces(n: nat, t: Text, g: Gap, s: Text, single: bool)
    requires g.r == Spaces(n) + t && g.leadingBlanks && !InGap(g.(r := t))
    ensures ScanBlanks(g, s, single) == ScanLine(t, g.column + n, s + Joined(g), single)
  {
    hide ScanLine;
    if n == 0 {
      assert g.r == t;
    } else {
      assert g.r[0] == 0x20;
      assert g.r[1..] == Spaces(n - 1) + t;
      SkipSpaces(n - 1, t, NextGap(g), s, single);
    }
  }

  lemma BreakReads(b: Break, t: Text)
    requires b.CrBreak? ==> At(t, 0) != 0x0A
    ensures var r := LineBreak(b) + t;
            IsBreak(r, 0) && !IsBlank(r, 0) && BreakWidth(r, 0) == |LineBreak(b)| && BreakText(r) == [0x0A]
            && Drop(r, BreakWidth(r, 0)) == t
  {
    var r := LineBreak(b) + t;
    assert r[|LineBreak(b)|..] == t;
    if b.CrBreak? && t != [] { assert r[1] == t[0]; }
  }

  /** The start of a gap, wherever the word before it ended. */
  lemma {:induction false} EnterGap(r: Text, column: nat, s: Text, single: bool)
    requires IsBlank(r, 0) || IsBreak(r, 0)
    ensures ScanWord(r, column, s, single) == ScanBlanks(NextGap(Gap(r, column, [], [], [], false)), s, single)
  {
    hide ScanBlanks, ScanLine, NextGap;
  }

  /** A folded space: a line break and indentation read back as one space. */
  lemma {:induction false} ScanFold(b: Break, n: nat, t: Text, column: nat, s: Text, single: bool)
    requires n > 0 && !IsBlankz(t, 0)
    ensures ScanWord(LineBreak(b) + Spaces(n) + t, column, s, single) == ScanWord(t, n, s + [0x20], single)
  {
    hide ScanWord, ScanBlanks, LineBreak, AfterWord, IsBreak;
    var u := Spaces(n) + t;
    var r := LineBreak(b) + u;
    assert r == LineBreak(b) + Spaces(n) + t;
    assert u[0] == 0x20;
    BreakReads(b, u);
    EnterGap(r, column, s, single);
    var g := NextGap(Gap(r, column, [], [], [], false));
    assert g == Gap(u, 0, [], [0x0A], [], true);
    SkipSpaces(n, t, g, s, single);
  }

  // ---------------------------------------------------------------------------------------------
  // The double-quoted round trip

  /** After a fold the pen stands at the indentation, and past it once a character was written. */
  predicate PenFits(pen: Pen, spaces: bool, cfg: Settings) {
    pen.indention ==> pen.column >= cfg.indent && (!spaces ==> pen.column > cfg.indent)
  }

  function Tail(body: Text, quote: byte, rest: Text): Text {
    body + [quote] + rest
  }

  lemma Regroup(piece: Text, body: Text, quote: byte, rest: Text)
    ensures Tail(piece + body, quote, rest) == piece + Tail(body, quote, rest)
  {}

  lemma FirstOf(c: Scalar, t: Text)
    requires c != 0 && c != 0x20 && c != 0x09 && !BreakScalar(c)
    ensures !IsBlankz(Encode(c) + t, 0)
  {
    EncodeHolds(c, t);
    Classes(Encode(c) + t, 0, c);
  }

  lemma FirstOfEscape(c: Scalar, t: Text)
    ensures !IsBlankz(Escape(c) + t, 0)
  {
    EscapeReads(c, []);
    hide Escape;
    assert (Escape(c) + t)[0] == BACKSLASH;
  }

  /** Where a word starts, the written text does not start with a blank, a break or the end. */
  lemma {:induction false} BodyStarts(cs: seq<Scalar>, first: bool, spaces: bool, pen: Pen, cfg: Settings, bom: bool,
                                      rest: Text)
    requires cs == [] || cs[0] != 0x20 || MustEscape(cs[0], cfg.unicode, bom)
    ensures !IsBlankz(Tail(DoubleBody(cs, first, spaces, pen, cfg, bom), QUOTE, rest), 0)
  {
    hide Escape, Encode, IsBlankz;
    if cs == [] {
      QuoteFirst(QUOTE, rest);
      assert Tail([], QUOTE, rest) == [QUOTE] + rest;
    } else if MustEscape(cs[0], cfg.unicode, bom) {
      var body := DoubleBody(cs[1..], false, false, pen.(column := pen.column + |Escape(cs[0])|), cfg, bom);
      Regroup(Escape(cs[0]), body, QUOTE, rest);
      FirstOfEscape(cs[0], Tail(body, QUOTE, rest));
    } else {
      var body := DoubleBody(cs[1..], false, false, pen.(column := pen.column + 1), cfg, bom);
      Regroup(Encode(cs[0]), body, QUOTE, rest);
      FirstOf(cs[0], Tail(body, QUOTE, rest));
    }
  }

  lemma QuoteFirst(quote: byte, t: Text)
    requires quote == QUOTE || quote == APOSTROPHE || quote == BACKSLASH
    ensures !IsBlankz([quote] + t, 0)
  {
    assert ([quote] + t)[0] == quote;
  }

  lemma {:induction false} CloseQuote(rest: Text, column: nat, s: Text)
    ensures ScanWord([QUOTE] + rest, column, s, false) == Done(s, rest)
  {
    var r := [QUOTE] + rest;
    assert r[0] == QUOTE && r[1..] == rest;
  }

  /** Reading on from inside a word yields the rest of the value. */
  lemma {:induction false} DoubleWord(cs: seq<Scalar>, first: bool, spaces: bool, pen: Pen, cfg: Settings, bom: bool,
                                      rest: Text, column: nat, s: Text)
    requires cfg.indent >= 1 && column >= 1 && PenFits(pen, spaces, cfg)
    ensures ScanWord(Tail(DoubleBody(cs, first, spaces, pen, cfg, bom), QUOTE, rest), column, s, false)
         == Done(s + Utf8(cs), rest)
    decreases |cs|, 1
  {
    hide ScanWord, Escape, Encode;
    if cs == [] {
      CloseQuote(rest, column, s);
      assert Tail([], QUOTE, rest) == [QUOTE] + rest;
      assert s + [] == s;
    } else if MustEscape(cs[0], cfg.unicode, bom) {
      var after := pen.(column := pen.column + |Escape(cs[0])|);
      EscapeReads(cs[0], []);
      var body := DoubleBody(cs[1..], false, false, after, cfg, bom);
      Regroup(Escape(cs[0]), body, QUOTE, rest);
      ScanEscape(cs[0], Tail(body, QUOTE, rest), column, s);
      DoubleWord(cs[1..], false, false, after, cfg, bom, rest, column + |Escape(cs[0])|, s + Encode(cs[0]));
      assert s + Encode(cs[0]) + Utf8(cs[1..]) == s + Utf8(cs);
    } else if cs[0] != 0x20 {
      var after := pen.(column := pen.column + 1);
      var body := DoubleBody(cs[1..], false, false, after, cfg, bom);
      Regroup(Encode(cs[0]), body, QUOTE, rest);
      ScanPlain(cs[0], Tail(body, QUOTE, rest), column, s, false);
      DoubleWord(cs[1..], false, false, after, cfg, bom, rest, column + 1, s + Encode(cs[0]));
      assert s + Encode(cs[0]) + Utf8(cs[1..]) == s + Utf8(cs);
    } else if FoldsDouble(cs, first, spaces, pen, cfg) {
      DoubleFold(cs, first, spaces, pen, cfg, bom, rest, column, s);
    } else {
      DoubleSpace(cs, first, spaces, pen, cfg, bom, rest, column, s);
    }
  }

  lemma {:induction false} DoubleSpace(cs: seq<Scalar>, first: bool, spaces: bool, pen: Pen, cfg: Settings, bom: bool,
                                       rest: Text, column: nat, s: Text)
    requires cfg.indent >= 1 && column >= 1 && PenFits(pen, spaces, cfg)
    requires cs != [] && cs[0] == 0x20 && !MustEscape(cs[0], cfg.unicode, bom)
    requires !FoldsDouble(cs, first, spaces, pen, cfg)
    ensures ScanWord(Tail(DoubleBody(cs, first, spaces, pen, cfg, bom), QUOTE, rest), column, s, false)
         == Done(s + Utf8(cs), rest)
    decreases |cs|, 0
  {
    hide ScanWord, Escape, Encode, MustEscape, FoldsDouble, ScanBlanks, Utf8;
    var after := pen.(column := pen.column + 1);
    var body := DoubleBody(cs[1..], false, true, after, cfg, bom);
    Regroup([0x20], body, QUOTE, rest);
    EnterSpace(Tail(body, QUOTE, rest), column, s, false);
    DoubleGap(cs[1..], after, cfg, bom, rest, column + 1, s, [0x20]);
    SpaceFirst(cs, s);
  }

  lemma SpaceGap(g: Gap, t: Text)
    requires g.r == [0x20] + t && !g.leadingBlanks
    ensures InGap(g) && NextGap(g) == g.(r := t, column := g.column + 1, whitespaces := g.whitespaces + [0x20])
    ensures IsBlank(g.r, 0)
  {
    assert g.r[0] == 0x20 && g.r[1..] == t && g.r[..1] == [0x20];
  }

  lemma SpaceText(cs: seq<Scalar>, s: Text, ws: Text)
    requires cs != [] && cs[0] == 0x20
    ensures s + (ws + [0x20]) + Utf8(cs[1..]) == s + ws + Utf8(cs)
  {
    assert Encode(0x20) == [0x20];
  }

  lemma SpaceFirst(cs: seq<Scalar>, s: Text)
    requires cs != [] && cs[0] == 0x20
    ensures s + [0x20] + Utf8(cs[1..]) == s + Utf8(cs)
  {
    assert Encode(0x20) == [0x20];
  }

  /** Reading on from inside a run of spaces yields the run and the rest of the value. */
  lemma {:induction false} DoubleGap(cs: seq<Scalar>, pen: Pen, cfg: Settings, bom: bool, rest: Text,
                                     column: nat, s: Text, ws: Text)
    requires cfg.indent >= 1 && column >= 1 && PenFits(pen, true, cfg)
    ensures ScanBlanks(Gap(Tail(DoubleBody(cs, false, true, pen, cfg, bom), QUOTE, rest), column, ws, [], [], false),
                       s, false)
         == Done(s + ws + Utf8(cs), rest)
    decreases |cs|, 2
  {
    hide ScanWord, Escape, Encode, AfterWord, IsBlankz;
    var r := Tail(DoubleBody(cs, false, true, pen, cfg, bom), QUOTE, rest);
    var g := Gap(r, column, ws, [], [], false);
    if cs != [] && cs[0] == 0x20 && !MustEscape(cs[0], cfg.unicode, bom) {
      var after := pen.(column := pen.column + 1);
      var body := DoubleBody(cs[1..], false, true, after, cfg, bom);
      Regroup([0x20], body, QUOTE, rest);
      SpaceGap(g, Tail(body, QUOTE, rest));
      assert ScanBlanks(g, s, false) == ScanBlanks(NextGap(g), s, false);
      DoubleGap(cs[1..], after, cfg, bom, rest, column + 1, s, ws + [0x20]);
      SpaceText(cs, s, ws);
    } else {
      BodyStarts(cs, false, true, pen, cfg, bom, rest);
      WordAfterGap(g, s, false);
      DoubleWord(cs, false, true, pen, cfg, bom, rest, column, s + ws);
    }
  }

  lemma WordAfterGap(g: Gap, s: Text, single: bool)
    requires !IsBlankz(g.r, 0) && g.column >= 1
    ensures ScanBlanks(g, s, single) == ScanWord(g.r, g.column, s + Joined(g), single)
  {
    hide ScanWord;
  }

  lemma {:induction false} DoubleFold(cs: seq<Scalar>, first: bool, spaces: bool, pen: Pen, cfg: Settings, bom: bool,
                                      rest: Text, column: nat, s: Text)
    requires cfg.indent >= 1 && column >= 1 && PenFits(pen, spaces, cfg)
    requires cs != [] && cs[0] == 0x20 && !MustEscape(cs[0], cfg.unicode, bom)
    requires FoldsDouble(cs, first, spaces, pen, cfg)
    ensures ScanWord(Tail(DoubleBody(cs, first, spaces, pen, cfg, bom), QUOTE, rest), column, s, false)
         == Done(s + Utf8(cs), rest)
    decreases |cs|, 0
  {
    hide ScanWord, Escape, Encode;
    var after := IndentPen(pen, cfg);
    var fold := LineBreak(cfg.lineBreak) + Spaces(cfg.indent);
    assert IndentText(pen, cfg) == fold && after == Pen(cfg.indent, true, true);
    SpaceFirst(cs, s);
    if cs[1] == 0x20 {
      var over := after.(column := after.column + 1);
      assert !MustEscape(cs[1], cfg.unicode, bom) && !FoldsDouble(cs[1..], false, true, over, cfg);
      var last := over.(column := over.column + 1);
      var body := DoubleBody(cs[2..], false, true, last, cfg, bom);
      assert cs[1..][1..] == cs[2..];
      assert DoubleBody(cs[1..], false, true, over, cfg, bom) == [0x20] + body;
      EscapedSpace(fold, body, rest, column, cfg, s);
      DoubleWord(cs[2..], false, true, last, cfg, bom, rest, cfg.indent + 2, s + [0x20] + [0x20]);
      SpaceFirst(cs[1..], s + [0x20]);
    } else {
      var body := DoubleBody(cs[1..], false, true, after, cfg, bom);
      Regroup(fold, body, QUOTE, rest);
      BodyStarts(cs[1..], false, true, after, cfg, bom, rest);
      ScanFold(cfg.lineBreak, cfg.indent, Tail(body, QUOTE, rest), column, s, false);
      DoubleWord(cs[1..], false, true, after, cfg, bom, rest, cfg.indent, s + [0x20]);
    }
  }

  /** A fold in front of a further space, which is escaped to survive. */
  lemma {:induction false} EscapedSpace(fold: Text, body: Text, rest: Text, column: nat, cfg: Settings, s: Text)
    requires cfg.indent >= 1 && fold == LineBreak(cfg.lineBreak) + Spaces(cfg.indent)
    ensures ScanWord(Tail(fold + [BACKSLASH] + ([0x20] + body), QUOTE, rest), column, s, false)
         == ScanWord(Tail(body, QUOTE, rest), cfg.indent + 2, s + [0x20] + [0x20], false)
  {
    hide ScanWord;
    var t := Tail(body, QUOTE, rest);
    var u := [BACKSLASH, 0x20] + t;
    assert Tail(fold + [BACKSLASH] + ([0x20] + body), QUOTE, rest) == fold + u;
    QuoteFirst(BACKSLASH, [0x20] + t);
    assert [BACKSLASH] + ([0x20] + t) == u;
    ScanFold(cfg.lineBreak, cfg.indent, u, column, s, false);
    BackslashSpace(t, cfg.indent, s + [0x20]);
  }

  lemma BackslashSpace(t: Text, column: nat, s: Text)
    ensures ScanWord([BACKSLASH, 0x20] + t, column, s, false) == ScanWord(t, column + 2, s + [0x20], false)
  {
    hide ScanBlanks, ScanLine, AfterWord;
    var r := [BACKSLASH, 0x20] + t;
    assert r[0] == BACKSLASH && r[1] == 0x20 && r[2..] == t;
  }

  /** What the double-quoted writer puts out, from its left quote on. */
  function DoubleQuoted(cs: seq<Scalar>, pen: Pen, cfg: Settings): Text {
    [QUOTE] + DoubleBody(cs, true, false, pen.(indention := false), cfg, IsBom(Utf8(cs))) + [QUOTE]
  }

  /** Every value of Unicode scalar values survives being double-quoted and scanned. */
  lemma {:induction false} DoubleQuotedRoundTrip(cs: seq<Scalar>, pen: Pen, cfg: Settings, rest: Text, column: nat)
    requires cfg.indent >= 1
    ensures ScanQuoted(DoubleQuoted(cs, pen, cfg) + rest, column, false) == Done(Utf8(cs), rest)
  {
    hide ScanWord, DoubleBody, Utf8;
    var bom := IsBom(Utf8(cs));
    var start := pen.(indention := false);
    var body := DoubleBody(cs, true, false, start, cfg, bom);
    var t := Tail(body, QUOTE, rest);
    assert (DoubleQuoted(cs, pen, cfg) + rest)[1..] == t;
    DoubleWord(cs, true, false, start, cfg, bom, rest, column + 1, []);
    assert [] + Utf8(cs) == Utf8(cs);
    NotAtEnd(t, column + 1, [], false);
  }

  /** A scan that succeeds from inside a line succeeds from the start of it. */
  lemma NotAtEnd(t: Text, column: nat, s: Text, single: bool)
    requires column >= 1 && ScanWord(t, column, s, single).Done?
    ensures ScanLine(t, column, s, single) == ScanWord(t, column, s, single)
  {}

  // ---------------------------------------------------------------------------------------------
  // The single-quoted writer

  predicate FoldsSingle(cs: seq<Scalar>, first: bool, spaces: bool, pen: Pen, cfg: Settings) {
    cfg.allowBreaks && !spaces && pen.column > cfg.bestWidth && !first && |cs| > 1 && cs[1] != 0x20
  }

  function BreakPiece(c: Scalar, breaks: bool, cfg: Settings): Text {
    if c != 0x0A then Encode(c)
    else if breaks then LineBreak(cfg.lineBreak)
    else LineBreak(cfg.lineBreak) + LineBreak(cfg.lineBreak)
  }

  function PlainPiece(c: Scalar): Text {
    if c == 0x27 then [APOSTROPHE, APOSTROPHE] else Encode(c)
  }

  function PlainPen(c: Scalar, pen: Pen): Pen {
    Pen(pen.column + (if c == 0x27 then 2 else 1), pen.whitespace, false)
  }

  function SingleBody(cs: seq<Scalar>, first: bool, spaces: bool, breaks: bool, pen: Pen, cfg: Settings): Text {
    if cs == [] then []
    else
      var c := cs[0];
      if c == 0x20 then
        if FoldsSingle(cs, first, spaces, pen, cfg) then
          IndentText(pen, cfg) + SingleBody(cs[1..], false, true, breaks, IndentPen(pen, cfg), cfg)
        else [0x20] + SingleBody(cs[1..], false, true, breaks, pen.(column := pen.column + 1), cfg)
      else if BreakScalar(c) then
        BreakPiece(c, breaks, cfg) + SingleBody(cs[1..], false, spaces, true, Pen(0, pen.whitespace, true), cfg)
      else if breaks then
        IndentText(pen, cfg) + PlainPiece(c)
        + SingleBody(cs[1..], false, false, false, PlainPen(c, IndentPen(pen, cfg)), cfg)
      else PlainPiece(c) + SingleBody(cs[1..], false, false, false, PlainPen(c, pen), cfg)
  }

  function SingleQuoted(cs: seq<Scalar>, pen: Pen, cfg: Settings): Text {
    [APOSTROPHE] + SingleBody(cs, true, false, false, pen.(indention := false), cfg) + [APOSTROPHE]
  }

  /** The values the emitter's analysis lets into single quotes. */
  predicate SingleAllowed(cs: seq<Scalar>, unicode: bool) {
    && (forall i | 0 <= i < |cs| :: PrintableScalar(cs[i]) && (unicode || cs[i] <= 0x7F))
    && (forall i | 0 < i < |cs| :: !(BreakScalar(cs[i - 1]) && cs[i] == 0x20))
    && (forall i | 0 < i < |cs| :: !(cs[i - 1] == 0x20 && BreakScalar(cs[i])))
  }

  lemma AllowedTail(cs: seq<Scalar>, unicode: bool)
    requires cs != [] && SingleAllowed(cs, unicode)
    ensures SingleAllowed(cs[1..], unicode) && PrintableScalar(cs[0])
    ensures |cs| > 1 && cs[0] == 0x20 ==> !BreakScalar(cs[1])
    ensures |cs| > 1 && BreakScalar(cs[0]) ==> cs[1] != 0x20
  {
    var t := cs[1..];
    forall i | 0 < i < |t| ensures !(BreakScalar(t[i - 1]) && t[i] == 0x20) {
      assert t[i] == cs[i + 1] && t[i - 1] == cs[i];
      assert !(BreakScalar(cs[i + 1 - 1]) && cs[i + 1] == 0x20);
    }
    forall i | 0 < i < |t| ensures !(t[i - 1] == 0x20 && BreakScalar(t[i])) {
      assert !(cs[i + 1 - 1] == 0x20 && BreakScalar(cs[i + 1]));
    }
    if |cs| > 1 { assert cs[1 - 1] == cs[0]; }
  }

  // ---------------------------------------------------------------------------------------------
  // The single-quoted round trip

  predicate PlainNext(cs: seq<Scalar>) {
    cs == [] || (cs[0] != 0x20 && !BreakScalar(cs[0]))
  }

  /** What follows the closing quote must not be a quote as well. */
  predicate Closed(rest: Text) {
    At(rest, 0) != APOSTROPHE
  }

  lemma {:induction false} CloseApostrophe(rest: Text, column: nat, s: Text)
    requires Closed(rest)
    ensures ScanWord([APOSTROPHE] + rest, column, s, true) == Done(s, rest)
  {
    var r := [APOSTROPHE] + rest;
    assert r[0] == APOSTROPHE && r[1..] == rest;
    if rest != [] { assert r[1] == rest[0]; }
  }

  lemma {:induction false} ScanPlainPiece(c: Scalar, t: Text, column: nat, s: Text)
    requires PrintableScalar(c) && c != 0x20 && !BreakScalar(c)
    ensures ScanWord(PlainPiece(c) + t, column, s, true)
         == ScanWord(t, column + (if c == 0x27 then 2 else 1), s + Encode(c), true)
  {
    hide ScanWord;
    if c == 0x27 {
      DoubledApostrophe(t, column, s);
      assert Encode(0x27) == [APOSTROPHE];
    } else {
      ScanPlain(c, t, column, s, true);
    }
  }

  lemma DoubledApostrophe(t: Text, column: nat, s: Text)
    ensures ScanWord([APOSTROPHE, APOSTROPHE] + t, column, s, true) == ScanWord(t, column + 2, s + [APOSTROPHE], true)
  {
    hide ScanBlanks, ScanLine, AfterWord;
    var r := [APOSTROPHE, APOSTROPHE] + t;
    assert r[0] == APOSTROPHE && r[1] == APOSTROPHE && r[2..] == t;
  }

  lemma FirstOfPlain(c: Scalar, t: Text)
    requires PrintableScalar(c) && c != 0x20 && !BreakScalar(c)
    ensures !IsBlankz(PlainPiece(c) + t, 0)
  {
    if c == 0x27 {
      QuoteFirst(APOSTROPHE, [APOSTROPHE] + t);
      assert [APOSTROPHE] + ([APOSTROPHE] + t) == PlainPiece(c) + t;
    } else {
      FirstOf(c, t);
    }
  }

  lemma {:induction false} SingleStarts(cs: seq<Scalar>, first: bool, spaces: bool, pen: Pen, cfg: Settings, rest: Text)
    requires PlainNext(cs) && (cs != [] ==> PrintableScalar(cs[0]))
    ensures !IsBlankz(Tail(SingleBody(cs, first, spaces, false, pen, cfg), APOSTROPHE, rest), 0)
  {
    hide IsBlankz, PlainPiece;
    if cs == [] {
      QuoteFirst(APOSTROPHE, rest);
      assert Tail([], APOSTROPHE, rest) == [APOSTROPHE] + rest;
    } else {
      var body := SingleBody(cs[1..], false, false, false, PlainPen(cs[0], pen), cfg);
      Regroup(PlainPiece(cs[0]), body, APOSTROPHE, rest);
      FirstOfPlain(cs[0], Tail(body, APOSTROPHE, rest));
    }
  }

  /** The first word of a value whose next character is plain: the spaces flag plays no part. */
  lemma {:induction false} SingleWord(cs: seq<Scalar>, first: bool, spaces: bool, pen: Pen, cfg: Settings,
                                      rest: Text, column: nat, s: Text)
    requires cfg.indent >= 1 && column >= 1 && Closed(rest) && SingleAllowed(cs, cfg.unicode)
    requires if spaces then PlainNext(cs) else !pen.indention
    ensures ScanWord(Tail(SingleBody(cs, first, spaces, false, pen, cfg), APOSTROPHE, rest), column, s, true)
         == Done(s + Utf8(cs), rest)
    decreases |cs|, 1
  {
    hide ScanWord, SingleAllowed, Encode, PlainPiece;
    if cs == [] {
      CloseApostrophe(rest, column, s);
      assert Tail([], APOSTROPHE, rest) == [APOSTROPHE] + rest;
      assert s + [] == s;
    } else {
      AllowedTail(cs, cfg.unicode);
      if cs[0] == 0x20 {
        SingleSpace(cs, first, pen, cfg, rest, column, s);
      } else if BreakScalar(cs[0]) {
        SingleFirstBreak(cs, first, pen, cfg, rest, column, s);
      } else {
        var after := PlainPen(cs[0], pen);
        var body := SingleBody(cs[1..], false, false, false, after, cfg);
        Regroup(PlainPiece(cs[0]), body, APOSTROPHE, rest);
        ScanPlainPiece(cs[0], Tail(body, APOSTROPHE, rest), column, s);
        SingleWord(cs[1..], false, false, after, cfg, rest, column + (if cs[0] == 0x27 then 2 else 1),
                   s + Encode(cs[0]));
        assert s + Encode(cs[0]) + Utf8(cs[1..]) == s + Utf8(cs);
      }
    }
  }

  lemma {:induction false} SingleSpace(cs: seq<Scalar>, first: bool, pen: Pen, cfg: Settings,
                                       rest: Text, column: nat, s: Text)
    requires cfg.indent >= 1 && column >= 1 && Closed(rest) && SingleAllowed(cs, cfg.unicode)
    requires cs != [] && cs[0] == 0x20 && !pen.indention
    ensures ScanWord(Tail(SingleBody(cs, first, false, false, pen, cfg), APOSTROPHE, rest), column, s, true)
         == Done(s + Utf8(cs), rest)
    decreases |cs|, 0
  {
    hide *;
    AllowedTail(cs, cfg.unicode);
    SpaceFirst(cs, s);
    SpaceBody(cs, first, pen, cfg);
    if FoldsSingle(cs, first, false, pen, cfg) {
      var after := IndentPen(pen, cfg);
      var fold := LineBreak(cfg.lineBreak) + Spaces(cfg.indent);
      var body := SingleBody(cs[1..], false, true, false, after, cfg);
      Regroup(fold, body, APOSTROPHE, rest);
      SingleStarts(cs[1..], false, true, after, cfg, rest);
      ScanFold(cfg.lineBreak, cfg.indent, Tail(body, APOSTROPHE, rest), column, s, true);
      SingleWord(cs[1..], false, true, after, cfg, rest, cfg.indent, s + [0x20]);
    } else {
      var after := pen.(column := pen.column + 1);
      var body := SingleBody(cs[1..], false, true, false, after, cfg);
      Regroup([0x20], body, APOSTROPHE, rest);
      EnterSpace(Tail(body, APOSTROPHE, rest), column, s, true);
      SingleGap(cs[1..], after, cfg, rest, column + 1, s, [0x20]);
    }
  }

  /** The two ways a space is written. */
  lemma SpaceBody(cs: seq<Scalar>, first: bool, pen: Pen, cfg: Settings)
    requires cs != [] && cs[0] == 0x20 && !pen.indention && SingleAllowed(cs, cfg.unicode)
    ensures SingleBody(cs, first, false, false, pen, cfg)
         == if FoldsSingle(cs, first, false, pen, cfg) then
              LineBreak(cfg.lineBreak) + Spaces(cfg.indent)
              + SingleBody(cs[1..], false, true, false, IndentPen(pen, cfg), cfg)
            else [0x20] + SingleBody(cs[1..], false, true, false, pen.(column := pen.column + 1), cfg)
    ensures FoldsSingle(cs, first, false, pen, cfg) ==> PlainNext(cs[1..])
    ensures cs[1..] == [] || (!BreakScalar(cs[1..][0]) && PrintableScalar(cs[1..][0]))
  {}

  lemma EnterSpace(t: Text, column: nat, s: Text, single: bool)
    ensures ScanWord([0x20] + t, column, s, single) == ScanBlanks(Gap(t, column + 1, [0x20], [], [], false), s, single)
  {
    hide ScanWord, ScanBlanks;
    var r := [0x20] + t;
    var g := Gap(r, column, [], [], [], false);
    SpaceGap(g, t);
    assert g.whitespaces + [0x20] == [0x20];
    EnterGap(r, column, s, single);
  }

  lemma {:induction false} SingleGap(cs: seq<Scalar>, pen: Pen, cfg: Settings, rest: Text, column: nat, s: Text,
                                     ws: Text)
    requires cfg.indent >= 1 && column >= 1 && Closed(rest) && SingleAllowed(cs, cfg.unicode)
    requires cs == [] || !BreakScalar(cs[0])
    ensures ScanBlanks(Gap(Tail(SingleBody(cs, false, true, false, pen, cfg), APOSTROPHE, rest), column, ws, [], [],
                           false), s, true)
         == Done(s + ws + Utf8(cs), rest)
    decreases |cs|, 2
  {
    if cs != [] { AllowedTail(cs, cfg.unicode); }
    hide ScanWord, SingleAllowed, Encode, AfterWord, IsBlankz, PlainPiece;
    var g := Gap(Tail(SingleBody(cs, false, true, false, pen, cfg), APOSTROPHE, rest), column, ws, [], [], false);
    if cs != [] && cs[0] == 0x20 {
      var after := pen.(column := pen.column + 1);
      var body := SingleBody(cs[1..], false, true, false, after, cfg);
      Regroup([0x20], body, APOSTROPHE, rest);
      SpaceGap(g, Tail(body, APOSTROPHE, rest));
      assert ScanBlanks(g, s, true) == ScanBlanks(NextGap(g), s, true);
      SingleGap(cs[1..], after, cfg, rest, column + 1, s, ws + [0x20]);
      SpaceText(cs, s, ws);
    } else {
      SingleStarts(cs, false, true, pen, cfg, rest);
      WordAfterGap(g, s, true);
      SingleWord(cs, false, true, pen, cfg, rest, column, s + ws);
    }
  }

  /** After a line break the written text never starts with a line feed of its own accord. */
  lemma {:induction false} BreakTailFirst(cs: seq<Scalar>, pen: Pen, cfg: Settings, rest: Text)
    requires cfg.indent >= 1 && pen.column == 0 && pen.indention && cfg.lineBreak.CrBreak?
    requires SingleAllowed(cs, cfg.unicode) && (cs == [] || cs[0] != 0x20)
    ensures At(Tail(SingleBody(cs, false, false, true, pen, cfg), APOSTROPHE, rest), 0) != 0x0A
  {
    var t := Tail(SingleBody(cs, false, false, true, pen, cfg), APOSTROPHE, rest);
    if cs == [] {
      assert t[0] == APOSTROPHE;
    } else {
      AllowedTail(cs, cfg.unicode);
      if BreakScalar(cs[0]) {
        var piece := BreakPiece(cs[0], true, cfg);
        assert |piece| > 0 && piece[0] != 0x0A;
        assert t[0] == piece[0];
      } else {
        assert IndentText(pen, cfg) == Spaces(cfg.indent);
        assert Spaces(cfg.indent)[0] == 0x20;
        assert t[0] == 0x20;
      }
    }
  }

  function Broken(leading: Text, trailing: Text): Text {
    if leading != [] && leading[0] == 0x0A then trailing else leading + trailing
  }

  /** Reading on from inside a run of line breaks yields the run and the rest of the value. */
  lemma {:induction false} SingleBreaks(cs: seq<Scalar>, pen: Pen, cfg: Settings, rest: Text, s: Text, lb: Text,
                                        tb: Text)
    requires cfg.indent >= 1 && Closed(rest) && SingleAllowed(cs, cfg.unicode)
    requires pen.column == 0 && pen.indention && (cs == [] || cs[0] != 0x20)
    requires lb != [] && (lb[0] == 0x0A ==> tb != [])
    ensures ScanBlanks(Gap(Tail(SingleBody(cs, false, false, true, pen, cfg), APOSTROPHE, rest), 0, [], lb, tb, true),
                       s, true)
         == Done(s + Broken(lb, tb) + Utf8(cs), rest)
    decreases |cs|, 2
  {
    hide ScanWord, SingleAllowed, Encode, AfterWord, IsBlankz, PlainPiece;
    var g := Gap(Tail(SingleBody(cs, false, false, true, pen, cfg), APOSTROPHE, rest), 0, [], lb, tb, true);
    if cs == [] {
      assert g.r == [APOSTROPHE] + rest;
      LineOfQuote(g, s);
      CloseApostrophe(rest, 0, s + Broken(lb, tb));
      assert s + Broken(lb, tb) + [] == s + Broken(lb, tb);
    } else if BreakScalar(cs[0]) {
      SingleNextBreak(cs, pen, cfg, rest, s, lb, tb);
    } else {
      AllowedTail(cs, cfg.unicode);
      var after := IndentPen(pen, cfg);
      var body := SingleBody(cs, false, true, false, after, cfg);
      var tail := SingleBody(cs[1..], false, false, false, PlainPen(cs[0], after), cfg);
      assert IndentText(pen, cfg) == Spaces(cfg.indent) && after.column == cfg.indent;
      assert Spaces(cfg.indent) + PlainPiece(cs[0]) + tail == Spaces(cfg.indent) + body;
      Regroup(Spaces(cfg.indent), body, APOSTROPHE, rest);
      SingleStarts(cs, false, true, after, cfg, rest);
      IndentedWord(g, cfg.indent, Tail(body, APOSTROPHE, rest), s);
      SingleWord(cs, false, true, after, cfg, rest, cfg.indent, s + Broken(lb, tb));
    }
  }

  lemma {:induction false} IndentedWord(g: Gap, n: nat, t: Text, s: Text)
    requires g.r == Spaces(n) + t && g.leadingBlanks && g.column == 0 && n >= 1 && !IsBlankz(t, 0)
    requires g.leadingBreak != [] && (g.leadingBreak[0] == 0x0A ==> g.trailingBreaks != [])
    ensures ScanBlanks(g, s, true) == ScanWord(t, n, s + Broken(g.leadingBreak, g.trailingBreaks), true)
  {
    hide ScanWord, ScanBlanks;
    SkipSpaces(n, t, g, s, true);
  }

  lemma LineOfQuote(g: Gap, s: Text)
    requires g.r != [] && g.r[0] == APOSTROPHE && g.leadingBlanks
    requires g.leadingBreak != [] && (g.leadingBreak[0] == 0x0A ==> g.trailingBreaks != [])
    ensures ScanBlanks(g, s, true) == ScanWord(g.r, g.column, s + Broken(g.leadingBreak, g.trailingBreaks), true)
  {
    hide ScanWord;
  }

  /** The encoding of a Unicode separator is read as a line break that stays as it is. */
  lemma SeparatorReads(c: Scalar, t: Text)
    requires c == 0x2028 || c == 0x2029
    ensures var r := Encode(c) + t;
            IsBreak(r, 0) && !IsBlank(r, 0) && BreakWidth(r, 0) == |Encode(c)| && BreakText(r) == Encode(c)
            && Drop(r, BreakWidth(r, 0)) == t && Encode(c)[0] == 0xE2
  {
    var r := Encode(c) + t;
    assert Encode(c) == [0xE2, 0x80, if c == 0x2028 then 0xA8 else 0xA9];
    assert r[3..] == t && r[0] == 0xE2 && r[1] == 0x80 && r[2] == Encode(c)[2];
  }

  lemma {:induction false} NextBreakGap(c: Scalar, t: Text, cfg: Settings, g: Gap)
    requires c == 0x0A || c == 0x2028 || c == 0x2029
    requires c == 0x0A && cfg.lineBreak.CrBreak? ==> At(t, 0) != 0x0A
    requires g.r == BreakPiece(c, true, cfg) + t
    ensures InGap(g) && IsBreak(g.r, 0)
    ensures NextGap(g)
            == if g.leadingBlanks then g.(r := t, column := 0, trailingBreaks := g.trailingBreaks + Encode(c))
                          else Gap(t, 0, [], g.leadingBreak + Encode(c), g.trailingBreaks, true)
  {
    hide IsBreak, IsBlank, BreakWidth, BreakText;
    if c == 0x0A {
      BreakReads(cfg.lineBreak, t);
      assert Encode(0x0A) == [0x0A];
    } else {
      SeparatorReads(c, t);
    }
  }

  lemma BreaksAllowed(c: Scalar)
    requires PrintableScalar(c) && BreakScalar(c)
    ensures c == 0x0A || c == 0x2028 || c == 0x2029
  {}

  lemma {:induction false} SingleNextBreak(cs: seq<Scalar>, pen: Pen, cfg: Settings, rest: Text, s: Text, lb: Text,
                                           tb: Text)
    requires cfg.indent >= 1 && Closed(rest) && SingleAllowed(cs, cfg.unicode)
    requires pen.column == 0 && pen.indention && cs != [] && BreakScalar(cs[0])
    requires lb != [] && (lb[0] == 0x0A ==> tb != [])
    ensures ScanBlanks(Gap(Tail(SingleBody(cs, false, false, true, pen, cfg), APOSTROPHE, rest), 0, [], lb, tb, true),
                       s, true)
         == Done(s + Broken(lb, tb) + Utf8(cs), rest)
    decreases |cs|, 1
  {
    AllowedTail(cs, cfg.unicode);
    BreaksAllowed(cs[0]);
    hide ScanWord, SingleAllowed, AfterWord, IsBlankz, ScanLine, IsBreak, IsBlank, BreakPiece, NextGap, InGap, Encode;
    var c := cs[0];
    var after := Pen(0, pen.whitespace, true);
    var body := SingleBody(cs[1..], false, false, true, after, cfg);
    var piece := BreakPiece(c, true, cfg);
    var t := Tail(body, APOSTROPHE, rest);
    Regroup(piece, body, APOSTROPHE, rest);
    if cfg.lineBreak.CrBreak? { BreakTailFirst(cs[1..], after, cfg, rest); }
    NextBreakGap(c, t, cfg, Gap(piece + t, 0, [], lb, tb, true));
    EncodeLength(c);
    SingleBreaks(cs[1..], after, cfg, rest, s, lb, tb + Encode(c));
    BrokenSnoc(cs, s, lb, tb);
  }

  lemma BrokenSnoc(cs: seq<Scalar>, s: Text, lb: Text, tb: Text)
    requires cs != [] && lb != []
    ensures s + Broken(lb, tb + Encode(cs[0])) + Utf8(cs[1..]) == s + Broken(lb, tb) + Utf8(cs)
  {
    hide Encode;
    assert Broken(lb, tb + Encode(cs[0])) == Broken(lb, tb) + Encode(cs[0]);
  }

  /** The first line break of a run; a line feed is written twice so that it is not folded away. */
  lemma {:induction false} FirstBreakGap(c: Scalar, t: Text, cfg: Settings, column: nat, s: Text)
    requires c == 0x0A || c == 0x2028 || c == 0x2029
    requires c == 0x0A && cfg.lineBreak.CrBreak? ==> At(t, 0) != 0x0A
    ensures ScanWord(BreakPiece(c, false, cfg) + t, column, s, true)
         == ScanBlanks(Gap(t, 0, [], Encode(c), if c == 0x0A then [0x0A] else [], true), s, true)
  {
    var first := BreakPiece(c, true, cfg);
    var u := if c == 0x0A then first + t else t;
    var r := BreakPiece(c, false, cfg) + t;
    assert r == first + u;
    assert c == 0x0A && cfg.lineBreak.CrBreak? ==> u[0] == 0x0D;
    assert Encode(0x0A) == [0x0A];
    hide ScanWord, IsBreak, IsBlank, BreakPiece, NextGap, InGap, Encode, AfterWord, ScanLine;
    var g := Gap(r, column, [], [], [], false);
    NextBreakGap(c, u, cfg, g);
    EnterGap(r, column, s, true);
    assert g.leadingBreak + Encode(c) == Encode(c);
    var h := Gap(u, 0, [], Encode(c), [], true);
    assert NextGap(g) == h;
    if c == 0x0A {
      NextBreakGap(c, t, cfg, h);
      assert h.trailingBreaks + Encode(c) == [0x0A];
    }
  }

  lemma {:induction false} SingleFirstBreak(cs: seq<Scalar>, first: bool, pen: Pen, cfg: Settings,
                                            rest: Text, column: nat, s: Text)
    requires cfg.indent >= 1 && column >= 1 && Closed(rest) && SingleAllowed(cs, cfg.unicode)
    requires cs != [] && BreakScalar(cs[0])
    ensures ScanWord(Tail(SingleBody(cs, first, false, false, pen, cfg), APOSTROPHE, rest), column, s, true)
         == Done(s + Utf8(cs), rest)
    decreases |cs|, 0
  {
    AllowedTail(cs, cfg.unicode);
    BreaksAllowed(cs[0]);
    hide ScanWord, ScanBlanks, SingleAllowed, BreakPiece, Encode, Broken;
    var c := cs[0];
    FirstBroken(c);
    var after := Pen(0, pen.whitespace, true);
    var body := SingleBody(cs[1..], false, false, true, after, cfg);
    var t := Tail(body, APOSTROPHE, rest);
    Regroup(BreakPiece(c, false, cfg), body, APOSTROPHE, rest);
    if cfg.lineBreak.CrBreak? { BreakTailFirst(cs[1..], after, cfg, rest); }
    FirstBreakGap(c, t, cfg, column, s);
    var tb: Text := if c == 0x0A then [0x0A] else [];
    SingleBreaks(cs[1..], after, cfg, rest, s, Encode(c), tb);
    assert s + Encode(c) + Utf8(cs[1..]) == s + Utf8(cs);
  }

  lemma FirstBroken(c: Scalar)
    requires c == 0x0A || c == 0x2028 || c == 0x2029
    ensures var tb: Text := if c == 0x0A then [0x0A] else [];
            Encode(c) != [] && (Encode(c)[0] == 0x0A ==> tb != []) && Broken(Encode(c), tb) == Encode(c)
  {
    assert Encode(0x0A) == [0x0A];
    assert Encode(0x2028)[0] == 0xE2 && Encode(0x2029)[0] == 0xE2;
  }

  /** What a single-quoted scalar leaves never starts with a quote: it would be part of the value. */
  lemma {:induction false} WordLeavesClosed(r: Text, column: nat, s: Text)
    ensures var d := ScanWord(r, column, s, true); d.Done? ==> Closed(d.rest)
    decreases |r|, 2
  {
    hide Width, IsBlankz, EscapeLength, EscapeText;
    var g := Gap(r, column, [], [], [], false);
    BlankIsNoQuote(r);
    if IsBlankz(r, 0) {
      GapLeavesClosed(g, s);
    } else if At(r, 0) == APOSTROPHE && At(r, 1) == APOSTROPHE {
      WordLeavesClosed(Drop(r, 2), column + 2, s + [APOSTROPHE]);
    } else if At(r, 0) == APOSTROPHE {
      assert At(Drop(r, 1), 0) == At(r, 1);
    } else if Width(At(r, 0)) != 0 {
      WordLeavesClosed(Drop(r, Width(At(r, 0))), column + 1, s + Take(r, Width(At(r, 0))));
    }
  }

  lemma BlankIsNoQuote(r: Text)
    ensures IsBlankz(r, 0) ==> At(r, 0) != APOSTROPHE
    ensures r == [] ==> IsBlankz(r, 0)
  {}

  lemma {:induction false} GapLeavesClosed(g: Gap, s: Text)
    requires At(g.r, 0) != APOSTROPHE && !g.leadingBlanks
    ensures var d := AfterWord(g, s, true); d.Done? ==> Closed(d.rest)
    decreases |g.r|, 1
  {
    hide InGap, NextGap, ScanBlanks;
    if InGap(g) {
      NextGapShrinks(g);
      BlanksLeaveClosed(NextGap(g), s);
    }
  }

  lemma {:induction false} BlanksLeaveClosed(g: Gap, s: Text)
    ensures var d := ScanBlanks(g, s, true); d.Done? ==> Closed(d.rest)
    decreases |g.r|, 4
  {
    hide InGap, NextGap, ScanWord, Joined;
    if InGap(g) {
      NextGapShrinks(g);
      BlanksLeaveClosed(NextGap(g), s);
    } else {
      WordLeavesClosed(g.r, g.column, s + Joined(g));
    }
  }

  lemma {:induction false} SingleReadBack(cs: seq<Scalar>, pen: Pen, cfg: Settings, rest: Text, column: nat)
    requires cfg.indent >= 1 && SingleAllowed(cs, cfg.unicode) && Closed(rest)
    ensures ScanQuoted(SingleQuoted(cs, pen, cfg) + rest, column, true) == Done(Utf8(cs), rest)
  {
    hide ScanWord, SingleBody, Utf8, SingleAllowed;
    var start := pen.(indention := false);
    var body := SingleBody(cs, true, false, false, start, cfg);
    var t := Tail(body, APOSTROPHE, rest);
    assert (SingleQuoted(cs, pen, cfg) + rest)[1..] == t;
    SingleWord(cs, true, false, start, cfg, rest, column + 1, []);
    assert [] + Utf8(cs) == Utf8(cs);
    NotAtEnd(t, column + 1, [], true);
  }

  /** Every value the analysis admits survives being single-quoted and scanned, exactly if no further
      quote follows: that would turn the closing quote into an apostrophe of the value. */
  lemma {:induction false} SingleQuotedRoundTrip(cs: seq<Scalar>, pen: Pen, cfg: Settings, rest: Text, column: nat)
    requires cfg.indent >= 1 && SingleAllowed(cs, cfg.unicode)
    ensures ScanQuoted(SingleQuoted(cs, pen, cfg) + rest, column, true) == Done(Utf8(cs), rest) <==> Closed(rest)
  {
    hide ScanWord, SingleBody, Utf8, SingleAllowed, SingleQuoted, DocumentIndicator, IsZ;
    WordLeavesClosed(Drop(SingleQuoted(cs, pen, cfg) + rest, 1), column + 1, []);
    if Closed(rest) { SingleReadBack(cs, pen, cfg, rest, column); }
  }

  /** For instance, the empty value with a quote behind it is three quotes, an open scalar. */
  lemma {:induction false} QuoteBehindQuote(pen: Pen, cfg: Settings, column: nat)
    ensures ScanQuoted(SingleQuoted([], pen, cfg) + [APOSTROPHE], column, true) == Bad
  {
    var r := [APOSTROPHE, APOSTROPHE];
    assert Drop(SingleQuoted([], pen, cfg) + [APOSTROPHE], 1) == r;
    DoubledApostrophe([], column + 1, []);
    assert [APOSTROPHE, APOSTROPHE] + [] == r;
    assert ScanWord([], column + 3, [APOSTROPHE], true) == Bad;
  }
}
