/**
 Quoted scalars as anybody may write them, beyond what the emitter's writers put out: every escape with
 digits in either case, tabs, line breaks of every kind, empty lines, and escaped line breaks.

 A text is a list of pieces.  What the pieces mean is said without the scanner, and the scanner reads
 every such text as what it means.
 */
module YamlQuotedTexts {
  import opened Bytes
  import opened YamlBytes
  import opened YamlQuoted
  import opened YamlFlowScanner

  // ---------------------------------------------------------------------------------------------
  // Pieces and what they mean

  const LOWER := "0123456789abcdef"
  const UPPER := "0123456789ABCDEF"

  predicate IsDigit(b: byte, d: int) {
    0 <= d < 16 && (b == LOWER[d] as int || b == UPPER[d] as int)
  }

  /** The text is a numeral of base sixteen for `v`, with letters in either case. */
  predicate Numeral(t: Text, v: nat) {
    if t == [] then v == 0 else Numeral(t[..|t| - 1], v / 16) && IsDigit(t[|t| - 1], v % 16)
  }

  /** The characters behind a backslash, and what they stand for. */
  const ESCAPES: seq<(char, Scalar)> :=
    [('0', 0), ('a', 7), ('b', 8), ('t', 9), ('\t', 9), ('n', 10), ('v', 11), ('f', 12), ('r', 13), ('e', 27),
     (' ', 32), ('"', 34), ('\'', 39), ('\\', 92), ('N', 0x85), ('_', 0xA0), ('L', 0x2028), ('P', 0x2029)]

  datatype Eol = Lf | Cr | CrLf | Nel | Ls | Ps

  function EolText(e: Eol): Text {
    match e
    case Lf => [0x0A]
    case Cr => [0x0D]
    case CrLf => [0x0D, 0x0A]
    case Nel => [0xC2, 0x85]
    case Ls => [0xE2, 0x80, 0xA8]
    case Ps => [0xE2, 0x80, 0xA9]
  }

  /** What is kept of a line break: a line feed, except for the separators of Unicode. */
  function EolValue(e: Eol): Text {
    if e.Ls? || e.Ps? then EolText(e) else [0x0A]
  }

  /** The end of a line, with the blanks in front of it. */
  datatype Line = Line(blanks: Text, eol: Eol)

  datatype Piece =
    | Itself(c: Scalar)
    | Named(letter: char, c: Scalar)
    | Coded(letter: char, digits: Text, c: Scalar)
    | TwoQuotes
    | Blanks(t: Text)
    | Fold(first: Line, more: seq<Line>, lead: Text)
    | Joint(eol: Eol, more: seq<Line>, lead: Text)
  {
    predicate IsGap() { Blanks? || Fold? || Joint? }
  }

  function LinesText(ls: seq<Line>): Text {
    if ls == [] then [] else ls[0].blanks + EolText(ls[0].eol) + LinesText(ls[1..])
  }

  function LinesValue(ls: seq<Line>): Text {
    if ls == [] then [] else EolValue(ls[0].eol) + LinesValue(ls[1..])
  }

  predicate AllBlank(t: Text) {
    forall i | 0 <= i < |t| :: t[i] == ' ' as int || t[i] == '\t' as int
  }

  /** A carriage return that is a line break of its own has no line feed behind it. */
  predicate LinesFit(before: Eol, ls: seq<Line>)
    decreases |ls|
  {
    ls != [] ==>
      && AllBlank(ls[0].blanks) && !(before.Cr? && ls[0].blanks == [] && ls[0].eol.Lf?)
      && LinesFit(ls[0].eol, ls[1..])
  }

  function PieceText(p: Piece): Text {
    match p
    case Itself(c) => Encode(c)
    case Named(letter, _) => [BACKSLASH, LetterOf(letter)]
    case Coded(letter, digits, _) => [BACKSLASH, LetterOf(letter)] + digits
    case TwoQuotes => [APOSTROPHE, APOSTROPHE]
    case Blanks(t) => t
    case Fold(first, more, lead) => first.blanks + EolText(first.eol) + LinesText(more) + lead
    case Joint(eol, more, lead) => [BACKSLASH] + EolText(eol) + LinesText(more) + lead
  }

  function LetterOf(c: char): byte { if c as int < 256 then c as int else 0 }

  /** A single line break is a space, unless it is a separator of Unicode; further ones are kept, and
      so are those behind an escaped one. */
  function PieceValue(p: Piece): Text {
    match p
    case Itself(c) => Encode(c)
    case Named(_, c) => Encode(c)
    case Coded(_, _, c) => Encode(c)
    case TwoQuotes => [APOSTROPHE]
    case Blanks(t) => t
    case Fold(first, more, _) =>
      if first.eol.Ls? || first.eol.Ps? then EolText(first.eol) + LinesValue(more)
      else if more == [] then [0x20] else LinesValue(more)
    case Joint(_, more, _) => LinesValue(more)
  }

  predicate PieceFits(p: Piece, single: bool) {
    match p
    case Itself(c) => SelfStanding(c, single)
    case Named(letter, c) => !single && (letter, c) in ESCAPES
    case Coded(letter, digits, c) =>
      && !single && Numeral(digits, c)
      && (|| (letter == 'x' && |digits| == 2) || (letter == 'u' && |digits| == 4) || (letter == 'U' && |digits| == 8))
    case TwoQuotes => single
    case Blanks(t) => t != [] && AllBlank(t)
    case Fold(first, more, lead) => AllBlank(first.blanks) && LinesFit(first.eol, more) && AllBlank(lead)
    case Joint(eol, more, lead) => !single && LinesFit(eol, more) && AllBlank(lead)
  }

  function Spelled(ps: seq<Piece>): Text {
    if ps == [] then [] else PieceText(ps[0]) + Spelled(ps[1..])
  }

  function Meant(ps: seq<Piece>): Text {
    if ps == [] then [] else PieceValue(ps[0]) + Meant(ps[1..])
  }

  /** The text with its right quote and whatever follows. */
  function Quoted(ps: seq<Piece>, single: bool, rest: Text): Text {
    Spelled(ps) + ([Closing(single)] + rest)
  }

  /** A document indicator stands at the start of the text. */
  predicate Indicates(t: Text) {
    |t| >= 3 && (t[..3] == [0x2D, 0x2D, 0x2D] || t[..3] == [0x2E, 0x2E, 0x2E]) && IsBlankz(t, 3)
  }

  /** Gaps do not touch, and where a line starts there is no document indicator. */
  predicate TextFits(ps: seq<Piece>, single: bool, rest: Text) {
    ps != [] ==>
      && PieceFits(ps[0], single) && (ps[0].IsGap() && |ps| > 1 ==> !ps[1].IsGap())
      && ((ps[0].Fold? || ps[0].Joint?) && ps[0].lead == [] ==> !Indicates(Quoted(ps[1..], single, rest)))
      && TextFits(ps[1..], single, rest)
  }

  // ---------------------------------------------------------------------------------------------
  // Escapes

  lemma DigitRead(b: byte, d: int)
    requires IsDigit(b, d)
    ensures IsHex(b) && AsHex(b) == d
  {}

  lemma {:induction false} NumeralRead(t: Text, v: nat)
    requires Numeral(t, v)
    ensures HexValue(t) == v && forall i | 0 <= i < |t| :: IsHex(t[i])
  {
    hide IsDigit, IsHex, AsHex;
    if t == [] {
    } else {
      var k := |t| - 1;
      NumeralRead(t[..k], v / 16);
      DigitRead(t[k], v % 16);
      assert forall i | 0 <= i < k :: t[..k][i] == t[i];
    }
  }

  lemma CodedRead(p: Piece, t: Text)
    requires p.Coded? && PieceFits(p, false)
    ensures var r := PieceText(p) + t;
            EscapeLength(r) == |PieceText(p)| && EscapeText(r) == Encode(p.c) && !IsBreak(r, 1)
  {
    hide Numeral, HexValue, IsHex, Encode;
    NumeralRead(p.digits, p.c);
    var r, n := PieceText(p) + t, |p.digits|;
    assert r[1] == LetterOf(p.letter) && CodeLength(r[1]) == n;
    assert r[2..n + 2] == p.digits;
    assert forall k | 2 <= k < n + 2 :: r[k] == p.digits[k - 2];
  }

  /** The table of the scanner, entry by entry. */
  lemma TableRead(k: nat)
    requires k < |ESCAPES|
    ensures var (letter, c) := ESCAPES[k];
            LetterText(LetterOf(letter)) == Encode(c) && CodeLength(LetterOf(letter)) == 0
            && LetterOf(letter) !in {0x0A, 0x0D, 0xC2, 0xE2}
  {}

  lemma NamedRead(p: Piece, t: Text)
    requires p.Named? && PieceFits(p, false)
    ensures var r := PieceText(p) + t;
            EscapeLength(r) == 2 && EscapeText(r) == Encode(p.c) && !IsBreak(r, 1)
  {
    var r := PieceText(p) + t;
    assert r[1] == LetterOf(p.letter);
    var k :| 0 <= k < |ESCAPES| && ESCAPES[k] == (p.letter, p.c);
    TableRead(k);
    EncodeLength(p.c);
    hide LetterText, CodeLength, LetterOf, Encode;
  }

  lemma EscapeStep(r: Text, n: nat, column: nat, s: Text)
    requires r != [] && r[0] == BACKSLASH && EscapeLength(r) == n > 0 && n <= |r| && !IsBreak(r, 1)
    ensures ScanWord(r, column, s, false) == ScanWord(r[n..], column + n, s + EscapeText(r), false)
  {
    hide EscapeLength, EscapeText, ScanBlanks, ScanLine, AfterWord;
  }

  lemma EscapeScanned(p: Piece, t: Text, column: nat, s: Text)
    requires (p.Coded? || p.Named?) && PieceFits(p, false)
    ensures ScanWord(PieceText(p) + t, column, s, false)
         == ScanWord(t, column + |PieceText(p)|, s + PieceValue(p), false)
  {
    hide Encode, EscapeLength, EscapeText, ScanWord, IsBreak, PieceFits;
    var r := PieceText(p) + t;
    if p.Coded? { CodedRead(p, t); } else { NamedRead(p, t); }
    assert r[0] == BACKSLASH && r[|PieceText(p)|..] == t;
    EscapeStep(r, |PieceText(p)|, column, s);
  }

  lemma RefusedStep(r: Text, column: nat, s: Text)
    requires r != [] && r[0] == BACKSLASH && EscapeLength(r) == 0 && !IsBreak(r, 1)
    ensures ScanWord(r, column, s, false) == Bad
  {
    hide EscapeLength, EscapeText, ScanBlanks, ScanLine, AfterWord;
  }

  /** A character that stands for nothing behind a backslash is refused. */
  lemma UnknownRefused(letter: byte, t: Text, column: nat, s: Text)
    requires forall k | 0 <= k < |ESCAPES| :: LetterOf(ESCAPES[k].0) != letter
    requires letter != 'x' as int && letter != 'u' as int && letter != 'U' as int
    requires !IsBreak([BACKSLASH, letter] + t, 1)
    ensures ScanWord([BACKSLASH, letter] + t, column, s, false) == Bad
  {
    var r := [BACKSLASH, letter] + t;
    assert r[0] == BACKSLASH && r[1] == letter;
    hide ScanWord, IsBreak;
    UnknownLetter(letter);
    RefusedStep(r, column, s);
  }

  lemma UnknownLetter(letter: byte)
    requires forall k | 0 <= k < |ESCAPES| :: LetterOf(ESCAPES[k].0) != letter
    requires letter != 'x' as int && letter != 'u' as int && letter != 'U' as int
    ensures LetterText(letter) == [] && CodeLength(letter) == 0
  {
    assert ESCAPES[0].0 == '0' && ESCAPES[1].0 == 'a' && ESCAPES[2].0 == 'b' && ESCAPES[3].0 == 't';
    assert ESCAPES[4].0 == '\t' && ESCAPES[5].0 == 'n' && ESCAPES[6].0 == 'v' && ESCAPES[7].0 == 'f';
    assert ESCAPES[8].0 == 'r' && ESCAPES[9].0 == 'e' && ESCAPES[10].0 == ' ' && ESCAPES[11].0 == '"';
    assert ESCAPES[12].0 == '\'' && ESCAPES[13].0 == '\\' && ESCAPES[14].0 == 'N' && ESCAPES[15].0 == '_';
    assert ESCAPES[16].0 == 'L' && ESCAPES[17].0 == 'P';
  }

  predicate CodeOf(letter: byte, n: nat) {
    (letter == 'x' as int && n == 2) || (letter == 'u' as int && n == 4) || (letter == 'U' as int && n == 8)
  }

  lemma CodeStart(letter: byte, n: nat, t: Text)
    requires CodeOf(letter, n)
    ensures var r := [BACKSLASH, letter] + t;
            && r[0] == BACKSLASH && At(r, 1) == letter && CodeLength(letter) == n && !IsBreak(r, 1)
            && (n <= |t| ==> r[2..n + 2] == t[..n]) && forall k | 2 <= k < |r| :: r[k] == t[k - 2]
  {}

  /** So is a code with too few digits, or with something else than digits. */
  lemma DigitsRefused(letter: byte, n: nat, t: Text, i: nat, column: nat, s: Text)
    requires CodeOf(letter, n) && i < n && (i < |t| ==> forall d :: !IsDigit(t[i], d))
    ensures ScanWord([BACKSLASH, letter] + t, column, s, false) == Bad
  {
    hide ScanWord, IsDigit, IsHex, IsBreak;
    CodeStart(letter, n, t);
    if i < |t| { DigitOnly(t[i]); }
    RefusedStep([BACKSLASH, letter] + t, column, s);
  }

  /** And so is a code for no character. */
  lemma CodeRefused(letter: byte, n: nat, t: Text, v: nat, column: nat, s: Text)
    requires CodeOf(letter, n) && n <= |t| && Numeral(t[..n], v) && (0xD800 <= v <= 0xDFFF || v > 0x10FFFF)
    ensures ScanWord([BACKSLASH, letter] + t, column, s, false) == Bad
  {
    hide ScanWord, Numeral, HexValue, IsHex, IsBreak;
    CodeStart(letter, n, t);
    NumeralRead(t[..n], v);
    RefusedStep([BACKSLASH, letter] + t, column, s);
  }

  lemma DigitOnly(b: byte)
    ensures IsHex(b) ==> IsDigit(b, AsHex(b))
  {}

  // ---------------------------------------------------------------------------------------------
  // Gaps

  lemma BlankFirst(r: Text)
    requires r != [] && (r[0] == ' ' as int || r[0] == '\t' as int)
    ensures IsBlank(r, 0)
  {}

  /** Blanks are kept, except at the start of a line. */
  lemma {:induction false} BlanksRun(t: Text, u: Text, g: Gap, s: Text, single: bool)
    requires g.r == t + u && AllBlank(t)
    ensures ScanBlanks(g, s, single)
         == ScanBlanks(g.(r := u, column := g.column + |t|,
                          whitespaces := if g.leadingBlanks then g.whitespaces else g.whitespaces + t), s, single)
    decreases |t|
  {
    hide ScanLine, IsBreak;
    if t == [] {
      assert g.r == u && g.whitespaces + t == g.whitespaces;
    } else {
      assert g.r[0] == t[0] && g.r[1..] == t[1..] + u && g.r[..1] == [t[0]];
      BlankFirst(g.r);
      BlanksRun(t[1..], u, NextGap(g), s, single);
      assert g.whitespaces + [t[0]] + t[1..] == g.whitespaces + t;
    }
  }

  lemma EolRead(e: Eol, u: Text)
    requires e.Cr? ==> At(u, 0) != 0x0A
    ensures var r := EolText(e) + u;
            && IsBreak(r, 0) && !IsBlank(r, 0) && BreakWidth(r, 0) == |EolText(e)| && BreakText(r) == EolValue(e)
            && Drop(r, |EolText(e)|) == u
  {
    var r := EolText(e) + u;
    assert r[|EolText(e)|..] == u;
    if e.Cr? && u != [] { assert r[1] == u[0]; }
  }

  /** One line break: the first one of a gap drops the blanks in front of it. */
  lemma EolRun(e: Eol, u: Text, g: Gap, s: Text, single: bool)
    requires g.r == EolText(e) + u && (e.Cr? ==> At(u, 0) != 0x0A)
    ensures ScanBlanks(g, s, single)
         == ScanBlanks(if g.leadingBlanks then g.(r := u, column := 0, trailingBreaks := g.trailingBreaks + EolValue(e))
                       else g.(r := u, column := 0, whitespaces := [], leadingBreak := g.leadingBreak + EolValue(e),
                               leadingBlanks := true), s, single)
  {
    hide ScanLine, IsBreak, BreakText, BreakWidth, EolText;
    EolRead(e, u);
  }

  lemma FirstOfLines(before: Eol, ls: seq<Line>, u: Text)
    requires LinesFit(before, ls) && At(u, 0) != 0x0A
    ensures before.Cr? ==> At(LinesText(ls) + u, 0) != 0x0A
  {
    if ls != [] {
      var t := LinesText(ls) + u;
      if ls[0].blanks != [] { assert t[0] == ls[0].blanks[0]; } else { assert t[0] == EolText(ls[0].eol)[0]; }
    } else {
      assert LinesText(ls) + u == u;
    }
  }

  /** The empty lines behind the first line break. */
  lemma {:induction false} LinesRun(before: Eol, ls: seq<Line>, u: Text, g: Gap, s: Text, single: bool)
    requires g.r == LinesText(ls) + u && g.leadingBlanks && LinesFit(before, ls) && At(u, 0) != 0x0A
    ensures ScanBlanks(g, s, single)
         == ScanBlanks(g.(r := u, column := if ls == [] then g.column else 0,
                          trailingBreaks := g.trailingBreaks + LinesValue(ls)), s, single)
    decreases |ls|
  {
    hide ScanBlanks, EolText, EolValue;
    if ls == [] {
      assert g.r == u && g.trailingBreaks + LinesValue(ls) == g.trailingBreaks;
      assert g == g.(r := u, column := g.column, trailingBreaks := g.trailingBreaks + LinesValue(ls));
    } else {
      var (l, more) := (ls[0], LinesText(ls[1..]) + u);
      assert g.r == l.blanks + (EolText(l.eol) + more);
      BlanksRun(l.blanks, EolText(l.eol) + more, g, s, single);
      var h := g.(r := EolText(l.eol) + more, column := g.column + |l.blanks|);
      FirstOfLines(l.eol, ls[1..], u);
      EolRun(l.eol, more, h, s, single);
      var k := h.(r := more, column := 0, trailingBreaks := g.trailingBreaks + EolValue(l.eol));
      LinesRun(l.eol, ls[1..], u, k, s, single);
      assert g.trailingBreaks + EolValue(l.eol) + LinesValue(ls[1..]) == g.trailingBreaks + LinesValue(ls);
    }
  }

  lemma IndicatorRead(t: Text, column: nat)
    ensures DocumentIndicator(t, column) <==> column == 0 && Indicates(t)
  {}

  /** A gap ends where a word starts, unless that is a document indicator. */
  lemma GapEnds(g: Gap, s: Text, single: bool)
    requires !IsBlankz(g.r, 0) && (g.column == 0 ==> !Indicates(g.r))
    ensures ScanBlanks(g, s, single) == ScanWord(g.r, g.column, s + Joined(g), single)
  {
    hide ScanWord, Indicates, DocumentIndicator, Joined;
    IndicatorRead(g.r, g.column);
  }

  lemma GapStarts(r: Text, column: nat, s: Text, single: bool)
    requires IsBlank(r, 0) || IsBreak(r, 0)
    ensures ScanWord(r, column, s, single) == ScanBlanks(Gap(r, column, [], [], [], false), s, single)
  {
    hide ScanWord, ScanLine, NextGap;
    EnterGap(r, column, s, single);
  }

  lemma BlanksScanned(t: Text, u: Text, column: nat, s: Text, single: bool)
    requires t != [] && AllBlank(t) && !IsBlankz(u, 0)
    ensures ScanWord(t + u, column, s, single) == ScanWord(u, column + |t|, s + t, single)
  {
    hide ScanWord, ScanBlanks, IsBreak;
    assert (t + u)[0] == t[0];
    BlankFirst(t + u);
    GapStarts(t + u, column, s, single);
    var g := Gap(t + u, column, [], [], [], false);
    BlanksRun(t, u, g, s, single);
    assert [] + t == t;
    GapEnds(g.(r := u, column := column + |t|, whitespaces := t), s, single);
  }

  /** From the first line break on. */
  lemma BreaksRun(first: Eol, more: seq<Line>, lead: Text, u: Text, g: Gap, s: Text, single: bool)
    requires g.r == LinesText(more) + (lead + u) && g.leadingBlanks && g.column == 0 && g.trailingBreaks == []
    requires LinesFit(first, more) && AllBlank(lead) && !IsBlankz(u, 0) && (lead == [] ==> !Indicates(u))
    ensures ScanBlanks(g, s, single)
         == ScanWord(u, |lead|, s + Joined(g.(trailingBreaks := LinesValue(more))), single)
  {
    hide ScanWord, ScanBlanks, IsBlankz, Joined, Indicates;
    LeadFirst(lead, u);
    LinesRun(first, more, lead + u, g, s, single);
    assert [] + LinesValue(more) == LinesValue(more);
    var h := g.(r := lead + u, column := 0, trailingBreaks := LinesValue(more));
    BlanksRun(lead, u, h, s, single);
    GapEnds(h.(r := u, column := |lead|), s, single);
    assert Joined(h.(r := u, column := |lead|)) == Joined(g.(trailingBreaks := LinesValue(more))) by {
      JoinedSame(h.(r := u, column := |lead|), g.(trailingBreaks := LinesValue(more)));
    }
  }

  lemma JoinedSame(g: Gap, h: Gap)
    requires g.whitespaces == h.whitespaces && g.leadingBreak == h.leadingBreak && g.leadingBlanks == h.leadingBlanks
    requires g.trailingBreaks == h.trailingBreaks
    ensures Joined(g) == Joined(h)
  {}

  lemma LeadFirst(lead: Text, u: Text)
    requires AllBlank(lead) && !IsBlankz(u, 0)
    ensures At(lead + u, 0) != 0x0A
  {
    if lead != [] { assert (lead + u)[0] == lead[0]; } else { assert lead + u == u; }
  }

  lemma FoldScanned(p: Piece, u: Text, column: nat, s: Text, single: bool)
    requires p.Fold? && PieceFits(p, single) && !IsBlankz(u, 0) && (p.lead == [] ==> !Indicates(u))
    ensures ScanWord(PieceText(p) + u, column, s, single) == ScanWord(u, |p.lead|, s + PieceValue(p), single)
  {
    hide ScanWord, ScanBlanks, IsBlankz, Joined, Indicates, EolText, EolValue, LinesText, LinesValue, LinesFit;
    var (b, e) := (p.first.blanks, p.first.eol);
    var more := LinesText(p.more) + (p.lead + u);
    var r := b + (EolText(e) + more);
    assert PieceText(p) + u == r;
    LeadFirst(p.lead, u);
    FirstOfLines(e, p.more, p.lead + u);
    FoldStarts(b, e, more, column, s, single);
    var g := Gap(r, column, [], [], [], false);
    BlanksRun(b, EolText(e) + more, g, s, single);
    var h := g.(r := EolText(e) + more, column := column + |b|, whitespaces := [] + b);
    EolRun(e, more, h, s, single);
    assert [] + EolValue(e) == EolValue(e);
    var k := Gap(more, 0, [], EolValue(e), [], true);
    BreaksRun(e, p.more, p.lead, u, k, s, single);
    FoldJoined(p, k.(trailingBreaks := LinesValue(p.more)));
  }

  lemma FoldStarts(b: Text, e: Eol, more: Text, column: nat, s: Text, single: bool)
    requires AllBlank(b) && (e.Cr? ==> At(more, 0) != 0x0A)
    ensures ScanWord(b + (EolText(e) + more), column, s, single)
         == ScanBlanks(Gap(b + (EolText(e) + more), column, [], [], [], false), s, single)
  {
    hide ScanWord, ScanBlanks, EolText, IsBreak;
    var r := b + (EolText(e) + more);
    EolRead(e, more);
    if b == [] { assert r == EolText(e) + more; } else { assert r[0] == b[0]; BlankFirst(r); }
    GapStarts(r, column, s, single);
  }

  lemma FoldJoined(p: Piece, g: Gap)
    requires p.Fold? && g.leadingBlanks
    requires g.leadingBreak == EolValue(p.first.eol) && g.trailingBreaks == LinesValue(p.more)
    ensures Joined(g) == PieceValue(p)
  {
    LinesValued(p.more);
    hide LinesValue;
  }

  lemma LinesValued(ls: seq<Line>)
    ensures LinesValue(ls) == [] <==> ls == []
  {}

  lemma JointScanned(p: Piece, u: Text, column: nat, s: Text)
    requires p.Joint? && PieceFits(p, false) && !IsBlankz(u, 0) && (p.lead == [] ==> !Indicates(u))
    ensures ScanWord(PieceText(p) + u, column, s, false) == ScanWord(u, |p.lead|, s + PieceValue(p), false)
  {
    hide ScanWord, ScanBlanks, IsBlankz, Joined, Indicates, EolText, LinesText, LinesValue, LinesFit;
    var more := LinesText(p.more) + (p.lead + u);
    var r := [BACKSLASH] + (EolText(p.eol) + more);
    assert PieceText(p) + u == r;
    LeadFirst(p.lead, u);
    FirstOfLines(p.eol, p.more, p.lead + u);
    JointStarts(p.eol, more, column, s);
    var g := Gap(more, 0, [], [], [], true);
    BreaksRun(p.eol, p.more, p.lead, u, g, s, false);
    JointJoined(LinesValue(p.more), g);
  }

  lemma JointJoined(t: Text, g: Gap)
    requires g.leadingBlanks && g.leadingBreak == []
    ensures Joined(g.(trailingBreaks := t)) == t
  {}

  lemma JointStarts(e: Eol, more: Text, column: nat, s: Text)
    requires e.Cr? ==> At(more, 0) != 0x0A
    ensures ScanWord([BACKSLASH] + (EolText(e) + more), column, s, false)
         == ScanBlanks(Gap(more, 0, [], [], [], true), s, false)
  {
    hide ScanLine, EolText, EscapeLength, EscapeText, ScanBlanks;
    var r := [BACKSLASH] + (EolText(e) + more);
    var t := EolText(e) + more;
    EolRead(e, more);
    assert r[0] == BACKSLASH && r[1..] == t;
    assert IsBreak(r, 1) && BreakWidth(r, 1) == BreakWidth(t, 0) by { ShiftedBreak(r, t); }
    assert Drop(r, 1 + BreakWidth(r, 1)) == more;
    JointEnds(Gap(more, 0, [], [], [], true), s);
    hide AfterWord, BreakWidth, IsBreak;
  }

  lemma ShiftedBreak(r: Text, t: Text)
    requires r != [] && r[1..] == t
    ensures IsBreak(r, 1) == IsBreak(t, 0) && BreakWidth(r, 1) == BreakWidth(t, 0)
  {
    assert forall i: nat :: At(r, i + 1) == At(t, i);
    assert At(r, 1) == At(t, 0) && At(r, 2) == At(t, 1) && At(r, 3) == At(t, 2);
  }

  /** Behind an escaped line break the right quote may follow at once. */
  lemma JointEnds(g: Gap, s: Text)
    requires g.leadingBlanks && g.leadingBreak == [] && g.trailingBreaks == []
    ensures AfterWord(g, s, false) == ScanBlanks(g, s, false)
  {
    if At(g.r, 0) == QUOTE {
      hide ScanWord;
      assert g.r == [QUOTE] + g.r[1..];
      CloseQuote(g.r[1..], g.column, s);
      assert s + Joined(g) == s;
    } else {
      hide ScanLine, ScanWord;
    }
  }

  // ---------------------------------------------------------------------------------------------
  // Whole texts

  /** What stands behind a gap is neither blank nor a line break nor the end of the input. */
  lemma WordAhead(ps: seq<Piece>, single: bool, rest: Text)
    requires TextFits(ps, single, rest) && (ps == [] || !ps[0].IsGap())
    ensures !IsBlankz(Quoted(ps, single, rest), 0)
  {
    if ps == [] {
      QuoteFirst(Closing(single), rest);
      assert Quoted(ps, single, rest) == [Closing(single)] + rest;
    } else {
      var t := Spelled(ps[1..]) + ([Closing(single)] + rest);
      assert Quoted(ps, single, rest) == PieceText(ps[0]) + t;
      hide Spelled, TextFits;
      PieceAhead(ps[0], single, t);
    }
  }

  lemma PieceAhead(p: Piece, single: bool, t: Text)
    requires PieceFits(p, single) && !p.IsGap()
    ensures !IsBlankz(PieceText(p) + t, 0)
  {
    if p.Itself? {
      FirstOf(p.c, t);
    } else {
      var q := PieceText(p)[0];
      assert PieceText(p) + t == [q] + (PieceText(p)[1..] + t);
      QuoteFirst(q, PieceText(p)[1..] + t);
    }
  }

  /** One piece. */
  lemma PieceScanned(p: Piece, u: Text, column: nat, s: Text, single: bool) returns (next: nat)
    requires PieceFits(p, single) && (p.IsGap() ==> !IsBlankz(u, 0))
    requires (p.Fold? || p.Joint?) && p.lead == [] ==> !Indicates(u)
    ensures ScanWord(PieceText(p) + u, column, s, single) == ScanWord(u, next, s + PieceValue(p), single)
  {
    hide ScanWord, Encode, IsBlankz, Indicates, LinesFit;
    match p
    case Itself(c) =>
      ScanPlain(c, u, column, s, single);
      next := column + 1;
    case Named(_, _) =>
      EscapeScanned(p, u, column, s);
      next := column + 2;
    case Coded(_, _, _) =>
      EscapeScanned(p, u, column, s);
      next := column + |PieceText(p)|;
    case TwoQuotes =>
      DoubledApostrophe(u, column, s);
      next := column + 2;
    case Blanks(t) =>
      BlanksScanned(t, u, column, s, single);
      next := column + |t|;
    case Fold(_, _, lead) =>
      FoldScanned(p, u, column, s, single);
      next := |lead|;
    case Joint(_, _, lead) =>
      JointScanned(p, u, column, s);
      next := |lead|;
  }

  lemma {:induction false} PiecesScanned(ps: seq<Piece>, single: bool, rest: Text, column: nat, s: Text)
    requires TextFits(ps, single, rest) && (single ==> Closed(rest))
    ensures ScanWord(Quoted(ps, single, rest), column, s, single) == Done(s + Meant(ps), rest)
    decreases |ps|
  {
    hide ScanWord, PieceText, PieceValue, PieceFits, Indicates, IsBlankz;
    if ps == [] {
      assert Quoted(ps, single, rest) == [Closing(single)] + rest && s + Meant(ps) == s;
      if single { CloseApostrophe(rest, column, s); } else { CloseQuote(rest, column, s); }
    } else {
      var (p, more) := (ps[0], ps[1..]);
      var u := Quoted(more, single, rest);
      assert Quoted(ps, single, rest) == PieceText(p) + u;
      if p.IsGap() { WordAhead(more, single, rest); }
      var next := PieceScanned(p, u, column, s, single);
      PiecesScanned(more, single, rest, next, s + PieceValue(p));
      assert s + PieceValue(p) + Meant(more) == s + Meant(ps);
    }
  }

  /** Every text of pieces between quotes is read as what it means, whatever follows it, except that no
      apostrophe may follow a single-quoted one. */
  lemma TextRead(ps: seq<Piece>, single: bool, rest: Text, column: nat)
    requires TextFits(ps, single, rest) && (single ==> Closed(rest))
    ensures ScanQuoted([Closing(single)] + Quoted(ps, single, rest), column, single) == Done(Meant(ps), rest)
  {
    hide ScanWord, Quoted, Meant, TextFits;
    var t := Quoted(ps, single, rest);
    assert ([Closing(single)] + t)[1..] == t;
    PiecesScanned(ps, single, rest, column + 1, []);
    assert [] + Meant(ps) == Meant(ps);
    NotAtEnd(t, column + 1, [], single);
  }

  /** The scanner with its buffer reads every such text as what it means, and stops behind it. */
  method ScanText(ps: seq<Piece>, single: bool, rest: Text, column: nat) returns (ok: bool, value: Text, left: Text)
    requires TextFits(ps, single, rest) && (single ==> Closed(rest))
    ensures ok && value == Meant(ps) && left == rest
  {
    hide ScanQuoted, Meant, TextFits, Spelled;
    TextRead(ps, single, rest, column);
    var text := [Closing(single)] + Quoted(ps, single, rest);
    var scanner := new FlowScanner(text, 0, column);
    assert scanner.Rest() == text;
    ok, value := scanner.ScanFlowScalar(single);
    left := scanner.Rest();
  }

  // ---------------------------------------------------------------------------------------------
  // What is refused

  /** Without a right quote, and with a document indicator at the start of a line, a scalar is refused. */
  lemma GapRefused(g: Gap, s: Text, single: bool)
    requires !InGap(g) && (IsZ(g.r, 0) || (g.column == 0 && Indicates(g.r)))
    ensures ScanBlanks(g, s, single) == Bad
  {
    hide ScanWord, Indicates;
    IndicatorRead(g.r, g.column);
  }

  /** A text that ends before its right quote is refused. */
  lemma {:induction false} OpenRefused(ps: seq<Piece>, single: bool, column: nat, s: Text)
    requires OpenFits(ps, single)
    ensures ScanWord(Spelled(ps), column, s, single) == Bad
    decreases |ps|
  {
    hide ScanWord, PieceText, PieceValue, PieceFits, Indicates, IsBlankz;
    if ps == [] {
      EndRefused(column, s, single);
    } else {
      var u := Spelled(ps[1..]);
      var next := PieceScanned(ps[0], u, column, s, single);
      OpenRefused(ps[1..], single, next, s + PieceValue(ps[0]));
    }
  }

  /** Words without gaps. */
  predicate OpenFits(ps: seq<Piece>, single: bool) {
    forall i | 0 <= i < |ps| :: PieceFits(ps[i], single) && !ps[i].IsGap()
  }

  lemma EndRefused(column: nat, s: Text, single: bool)
    ensures ScanWord([], column, s, single) == Bad
  {}
}
