/**
 How the two writers of quoted scalars lay a value out: which characters stand for themselves, how the
 others are escaped, and where lines are folded.
 */
module YamlQuotedLayout {
  import opened Bytes
  import opened YamlBytes
  import opened YamlQuoted
  import opened YamlQuotedTexts

  // ---------------------------------------------------------------------------------------------
  // Escapes

  predicate UpperCase(t: Text) {
    forall i | 0 <= i < |t| :: exists d | 0 <= d < 16 :: t[i] == UPPER[d] as int
  }

  lemma {:induction false} DigitsWritten(v: nat, n: nat)
    requires v < Pow16(n)
    ensures |HexDigits(v, n)| == n && Numeral(HexDigits(v, n), v) && UpperCase(HexDigits(v, n))
  {
    if n == 0 {
    } else {
      DigitsWritten(v / 16, n - 1);
      DigitWritten(v % 16);
      var (t, k) := (HexDigits(v, n), n - 1);
      assert t[..k] == HexDigits(v / 16, k) && t[k] == HexDigit(v % 16);
      hide HexDigits, HexDigit, IsDigit;
      forall i | 0 <= i < |t| ensures exists d | 0 <= d < 16 :: t[i] == UPPER[d] as int {
        if i < k { assert t[i] == t[..k][i]; } else { assert t[i] == UPPER[v % 16] as int; }
      }
    }
  }

  lemma DigitWritten(d: nat)
    requires d < 16
    ensures IsDigit(HexDigit(d), d) && HexDigit(d) == UPPER[d] as int
  {}

  /** The characters with an escape of their own; the writer does not use those for a space and an
      apostrophe. */
  predicate HasName(c: Scalar) {
    c == 0 || 7 <= c <= 13 || c == 27 || c == '"' as int || c == '\\' as int || c in {0x85, 0xA0, 0x2028, 0x2029}
  }

  /** An escape is a letter of the table, or else the shortest code, with its digits in capitals. */
  lemma EscapeWritten(c: Scalar)
    ensures HasName(c) ==>
              exists k | 0 <= k < |ESCAPES| :: ESCAPES[k].1 == c && Escape(c) == [BACKSLASH, LetterOf(ESCAPES[k].0)]
    ensures !HasName(c) ==>
              var (letter, n) := if c <= 0xFF then ('x', 2) else if c <= 0xFFFF then ('u', 4) else ('U', 8);
              && |Escape(c)| == n + 2 && Escape(c)[..2] == [BACKSLASH, LetterOf(letter)]
              && Numeral(Escape(c)[2..], c) && UpperCase(Escape(c)[2..])
  {
    if HasName(c) {
      NameWritten(c);
    } else {
      Pow16Values();
      var (letter, n) := if c <= 0xFF then ('x', 2) else if c <= 0xFFFF then ('u', 4) else ('U', 8);
      assert Escape(c) == [BACKSLASH, LetterOf(letter)] + HexDigits(c, n);
      hide Escape, Pow16, HexDigits, Numeral, UpperCase;
      DigitsWritten(c, n);
    }
  }

  lemma NameWritten(c: Scalar)
    requires HasName(c)
    ensures exists k | 0 <= k < |ESCAPES| :: ESCAPES[k].1 == c && Escape(c) == [BACKSLASH, LetterOf(ESCAPES[k].0)]
  {
    var k := if c == 0 then 0 else if c <= 9 then c - 6 else if c <= 13 then c - 5 else if c == 27 then 9
             else if c == 34 then 11 else if c == 92 then 13 else if c == 0x85 then 14 else if c == 0xA0 then 15
             else if c == 0x2028 then 16 else 17;
    assert ESCAPES[k].1 == c;
    assert Escape(c) == [BACKSLASH, LetterOf(ESCAPES[k].0)];
  }

  // ---------------------------------------------------------------------------------------------
  // Words and folds in double quotes

  /** The characters that the double-quoted writer leaves as they are, apart from spaces. */
  predicate Bare(c: Scalar, unicode: bool) {
    || (0x21 <= c <= 0x7E && c != '"' as int && c != '\\' as int)
    || (unicode && 0xA0 <= c <= 0xFFFD && c !in {0x2028, 0x2029, 0xFEFF})
  }

  function Written(c: Scalar, unicode: bool): Text {
    if Bare(c, unicode) then Encode(c) else Escape(c)
  }

  function WordText(w: seq<Scalar>, unicode: bool): Text {
    if w == [] then [] else Written(w[0], unicode) + WordText(w[1..], unicode)
  }

  /** How far the pen goes: one column for a character as it is, and one for each byte of an escape. */
  function WordWidth(w: seq<Scalar>, unicode: bool): nat {
    if w == [] then 0
    else (if Bare(w[0], unicode) then 1 else |Escape(w[0])|) + WordWidth(w[1..], unicode)
  }

  predicate NoSpace(w: seq<Scalar>) {
    forall i | 0 <= i < |w| :: w[i] != 0x20
  }

  lemma BareMeans(c: Scalar, unicode: bool)
    requires c != 0x20
    ensures MustEscape(c, unicode, false) <==> !Bare(c, unicode)
  {}

  lemma CharWritten(cs: seq<Scalar>, first: bool, spaces: bool, pen: Pen, cfg: Settings)
    requires cs != [] && cs[0] != 0x20
    ensures DoubleBody(cs, first, spaces, pen, cfg, false)
         == Written(cs[0], cfg.unicode)
            + DoubleBody(cs[1..], false, false,
                         pen.(column := pen.column + WordWidth([cs[0]], cfg.unicode)), cfg, false)
  {
    hide Escape, Encode, Bare, MustEscape;
    BareMeans(cs[0], cfg.unicode);
    assert WordWidth([], cfg.unicode) == 0 && [cs[0]][1..] == [];
  }

  /** A word is written character by character. */
  lemma {:induction false} WordWritten(w: seq<Scalar>, more: seq<Scalar>, first: bool, spaces: bool, pen: Pen,
                                       cfg: Settings)
    requires NoSpace(w)
    ensures DoubleBody(w + more, first, spaces, pen, cfg, false)
         == WordText(w, cfg.unicode)
            + DoubleBody(more, first && w == [], spaces && w == [],
                         pen.(column := pen.column + WordWidth(w, cfg.unicode)), cfg, false)
    decreases |w|
  {
    hide Written, Bare, DoubleBody, Escape;
    if w == [] {
      assert w + more == more;
    } else {
      var rest := w[1..] + more;
      assert (w + more)[0] == w[0] && (w + more)[1..] == rest;
      CharWritten(w + more, first, spaces, pen, cfg);
      var after := pen.(column := pen.column + WordWidth([w[0]], cfg.unicode));
      assert WordWidth(w, cfg.unicode) == WordWidth([w[0]], cfg.unicode) + WordWidth(w[1..], cfg.unicode);
      WordWritten(w[1..], more, false, false, after, cfg);
      var (a, b) := (Written(w[0], cfg.unicode), WordText(w[1..], cfg.unicode));
      var c := DoubleBody(more, false, false, pen.(column := pen.column + WordWidth(w, cfg.unicode)), cfg, false);
      assert a + (b + c) == a + b + c;
    }
  }

  /** Behind a word, a single space is a line break and the indentation exactly if breaks are allowed and
      the word has gone beyond the width, and a space otherwise. */
  lemma FoldedExactly(w: seq<Scalar>, v: seq<Scalar>, first: bool, spaces: bool, pen: Pen, cfg: Settings)
    requires NoSpace(w) && w != [] && v != [] && v[0] != 0x20 && pen.column >= cfg.indent
    ensures var column := pen.column + WordWidth(w, cfg.unicode);
            DoubleBody(w + ([0x20] + v), first, spaces, pen, cfg, false)
            == WordText(w, cfg.unicode)
               + (if cfg.allowBreaks && column > cfg.bestWidth then
                    LineBreak(cfg.lineBreak) + Spaces(cfg.indent)
                    + DoubleBody(v, false, true, Pen(if cfg.indent < 0 then 0 else cfg.indent, true, true), cfg, false)
                  else [0x20] + DoubleBody(v, false, true, pen.(column := column + 1), cfg, false))
  {
    hide WordText, WordWidth, Escape, LineBreak, Spaces, DoubleBody, Bare;
    var column := pen.column + WordWidth(w, cfg.unicode);
    WordWritten(w, [0x20] + v, first, spaces, pen, cfg);
    WidthGrows(w, cfg.unicode);
    var u := [0x20] + v;
    assert u[0] == 0x20 && u[1] == v[0] && u[1..] == v;
    SpaceWritten(u, pen.(column := column), cfg);
  }

  lemma SpaceWritten(u: seq<Scalar>, pen: Pen, cfg: Settings)
    requires |u| > 1 && u[0] == 0x20 && u[1] != 0x20 && pen.column > cfg.indent
    ensures DoubleBody(u, false, false, pen, cfg, false)
         == if cfg.allowBreaks && pen.column > cfg.bestWidth then
              LineBreak(cfg.lineBreak) + Spaces(cfg.indent)
              + DoubleBody(u[1..], false, true, Pen(if cfg.indent < 0 then 0 else cfg.indent, true, true), cfg, false)
            else [0x20] + DoubleBody(u[1..], false, true, pen.(column := pen.column + 1), cfg, false)
  {}

  lemma WidthGrows(w: seq<Scalar>, unicode: bool)
    requires w != []
    ensures WordWidth(w, unicode) >= 1
  {
    EscapeReads(w[0], []);
  }

  function EscapesText(cs: seq<Scalar>): Text {
    if cs == [] then [] else Escape(cs[0]) + EscapesText(cs[1..])
  }

  /** A value that starts with a byte order mark is escaped throughout. */
  lemma {:induction false} MarkedWritten(cs: seq<Scalar>, pen: Pen, cfg: Settings)
    requires cs != [] && cs[0] == 0xFEFF
    ensures DoubleQuoted(cs, pen, cfg) == [QUOTE] + EscapesText(cs) + [QUOTE]
  {
    assert Encode(0xFEFF) == [0xEF, 0xBB, 0xBF];
    assert IsBom(Utf8(cs));
    AllEscaped(cs, true, false, pen.(indention := false), cfg);
  }

  lemma {:induction false} AllEscaped(cs: seq<Scalar>, first: bool, spaces: bool, pen: Pen, cfg: Settings)
    ensures DoubleBody(cs, first, spaces, pen, cfg, true) == EscapesText(cs)
    decreases |cs|
  {
    hide Escape;
    if cs == [] {
    } else {
      AllEscaped(cs[1..], false, false, pen.(column := pen.column + |Escape(cs[0])|), cfg);
    }
  }

  // ---------------------------------------------------------------------------------------------
  // Words, folds and line breaks in single quotes

  function PlainText(w: seq<Scalar>): Text {
    if w == [] then []
    else (if w[0] == '\'' as int then [APOSTROPHE, APOSTROPHE] else Encode(w[0])) + PlainText(w[1..])
  }

  function PlainWidth(w: seq<Scalar>): nat {
    if w == [] then 0 else (if w[0] == '\'' as int then 2 else 1) + PlainWidth(w[1..])
  }

  predicate NoGap(w: seq<Scalar>) {
    forall i | 0 <= i < |w| :: w[i] != 0x20 && !BreakScalar(w[i])
  }

  /** In single quotes a word is written as it is, with its apostrophes doubled. */
  lemma {:induction false} PlainWritten(w: seq<Scalar>, more: seq<Scalar>, first: bool, spaces: bool, pen: Pen,
                                        cfg: Settings)
    requires NoGap(w) && w != []
    ensures SingleBody(w + more, first, spaces, false, pen, cfg)
         == PlainText(w)
            + SingleBody(more, false, false, false, Pen(pen.column + PlainWidth(w), pen.whitespace, false), cfg)
    decreases |w|
  {
    hide Encode, BreakScalar;
    var rest := w[1..] + more;
    assert (w + more)[0] == w[0] && (w + more)[1..] == rest;
    if |w| == 1 {
      assert rest == more && w[1..] == [];
      assert PlainText(w) == PlainPiece(w[0]) + [] == PlainPiece(w[0]);
      assert PlainWidth(w) == PlainWidth([]) + if w[0] == 0x27 then 2 else 1;
    } else {
      PlainWritten(w[1..], more, false, false, PlainPen(w[0], pen), cfg);
      hide SingleBody;
      var (a, b) := (PlainPiece(w[0]), PlainText(w[1..]));
      var c := SingleBody(more, false, false, false, Pen(pen.column + PlainWidth(w), pen.whitespace, false), cfg);
      assert a + (b + c) == a + b + c;
    }
  }

  /** The same fold as in double quotes. */
  lemma SingleFoldedExactly(w: seq<Scalar>, v: seq<Scalar>, first: bool, spaces: bool, pen: Pen, cfg: Settings)
    requires NoGap(w) && w != [] && v != [] && v[0] != 0x20
    ensures var column := pen.column + PlainWidth(w);
            SingleBody(w + ([0x20] + v), first, spaces, false, pen, cfg)
            == PlainText(w)
               + (if cfg.allowBreaks && column > cfg.bestWidth then
                    LineBreak(cfg.lineBreak) + Spaces(cfg.indent)
                    + SingleBody(v, false, true, false, Pen(if cfg.indent < 0 then 0 else cfg.indent, true, true), cfg)
                  else [0x20] + SingleBody(v, false, true, false, Pen(column + 1, pen.whitespace, false), cfg))
  {
    PlainWritten(w, [0x20] + v, first, spaces, pen, cfg);
    var u := [0x20] + v;
    assert u[0] == 0x20 && u[1] == v[0] && u[1..] == v;
    hide PlainText, PlainWidth, LineBreak, Spaces;
  }

  /** A line feed between words is written as an empty line and the indentation. */
  lemma FeedWritten(w: seq<Scalar>, v: seq<Scalar>, first: bool, spaces: bool, pen: Pen, cfg: Settings)
    requires NoGap(w) && NoGap(v) && w != [] && v != [] && cfg.indent >= 1
    ensures SingleBody(w + ([0x0A] + v), first, spaces, false, pen, cfg)
         == PlainText(w) + (LineBreak(cfg.lineBreak) + LineBreak(cfg.lineBreak))
            + (Spaces(cfg.indent) + PlainText(v))
  {
    hide SingleBody, PlainText, PlainWidth, LineBreak, Spaces, BreakScalar;
    PlainWritten(w, [0x0A] + v, first, spaces, pen, cfg);
    FeedStep(v, Pen(pen.column + PlainWidth(w), pen.whitespace, false), cfg);
    LineStarts(v, Pen(0, pen.whitespace, true), cfg);
    var (a, b) := (PlainText(w), LineBreak(cfg.lineBreak) + LineBreak(cfg.lineBreak));
    var c := Spaces(cfg.indent) + PlainText(v);
    assert a + (b + c) == a + b + c;
  }

  lemma FeedStep(v: seq<Scalar>, pen: Pen, cfg: Settings)
    ensures SingleBody([0x0A] + v, false, false, false, pen, cfg)
         == LineBreak(cfg.lineBreak) + LineBreak(cfg.lineBreak)
            + SingleBody(v, false, false, true, Pen(0, pen.whitespace, true), cfg)
  {
    var u := [0x0A] + v;
    assert u[0] == 0x0A && u[1..] == v;
    hide LineBreak;
  }

  lemma LineStarts(v: seq<Scalar>, pen: Pen, cfg: Settings)
    requires NoGap(v) && v != [] && cfg.indent >= 1 && pen.column == 0 && pen.indention
    ensures SingleBody(v, false, false, true, pen, cfg) == Spaces(cfg.indent) + PlainText(v)
  {
    hide Encode;
    var after := PlainPen(v[0], IndentPen(pen, cfg));
    if |v| == 1 {
      assert v[1..] == [];
    } else {
      PlainWritten(v[1..], [], false, false, after, cfg);
      assert v[1..] + [] == v[1..];
    }
  }
}
