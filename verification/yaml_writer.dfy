/**
 The emitter's quoted-scalar writers and its analysis of scalars, working on the bytes of a value.

 The output is a growing byte sequence; flushing it to a file is not modelled.
 */
module YamlWriter {
  import opened Bytes
  import opened YamlBytes
  import opened YamlQuoted
  import opened YamlFlowScanner

  // ---------------------------------------------------------------------------------------------
  // Walking over the bytes of a value, one scalar value at a time

  /** Byte position `i` is where the `k`-th scalar value of `cs` starts. */
  predicate AtScalar(value: Text, cs: seq<Scalar>, i: nat, k: nat) {
    i <= |value| && k <= |cs| && value[i..] == Utf8(cs[k..])
  }

  lemma {:induction false} ScalarHere(value: Text, cs: seq<Scalar>, i: nat, k: nat)
    requires AtScalar(value, cs, i, k) && k < |cs|
    ensures Holds(value, i, cs[k])
    ensures AtScalar(value, cs, i + |Encode(cs[k])|, k + 1)
    ensures value[i..i + |Encode(cs[k])|] == Encode(cs[k])
  {
    hide Encode;
    var c := cs[k];
    assert cs[k..][0] == c && cs[k..][1..] == cs[k + 1..];
    assert value[i..] == Encode(c) + Utf8(cs[k + 1..]);
    var n := |Encode(c)|;
    assert value[i..i + n] == value[i..][..n] == Encode(c);
    assert value[i + n..] == value[i..][n..] == Utf8(cs[k + 1..]);
  }

  lemma {:induction false} EndsTogether(value: Text, cs: seq<Scalar>, i: nat, k: nat)
    requires AtScalar(value, cs, i, k)
    ensures i < |value| <==> k < |cs|
  {
    if k < |cs| {
      ScalarHere(value, cs, i, k);
      EncodeLength(cs[k]);
    } else {
      assert cs[k..] == [];
    }
  }

  /** A space is one byte, so the byte after it starts the next scalar value. */
  lemma {:induction false} AfterSpace(value: Text, cs: seq<Scalar>, i: nat, k: nat)
    requires AtScalar(value, cs, i, k) && k < |cs| && cs[k] == 0x20
    ensures i + 1 < |value| <==> k + 1 < |cs|
    ensures k + 1 < |cs| ==> (IsSpace(value, i + 1) <==> cs[k + 1] == 0x20)
    ensures AtScalar(value, cs, i + 1, k + 1)
  {
    ScalarHere(value, cs, i, k);
    assert Encode(0x20) == [0x20];
    EndsTogether(value, cs, i + 1, k + 1);
    if k + 1 < |cs| {
      ScalarHere(value, cs, i + 1, k + 1);
      Classes(value, i + 1, cs[k + 1]);
    }
  }

  /** `v` shifted right by `j` hexadecimal digits. */
  function Shifted(v: nat, j: nat): nat {
    if j == 0 then v else Shifted(v, j - 1) / 16
  }

  /** What decoding has accumulated when `left` octets are still to come. */
  function Accumulated(c: nat, left: nat): nat {
    if left == 0 then c else Accumulated(c, left - 1) / 64
  }

  lemma LeadOctet(c: Scalar)
    ensures var e := Encode(c);
            if e[0] < 0x80 then |e| == 1 && e[0] == c
            else if 0xC0 <= e[0] < 0xE0 then |e| == 2 && e[0] % 32 == c / 64
            else if 0xE0 <= e[0] < 0xF0 then |e| == 3 && e[0] % 16 == c / 64 / 64
            else |e| == 4 && e[0] % 8 == c / 64 / 64 / 64
  {
    assert c / 4096 == c / 64 / 64;
    assert c / 262144 == c / 4096 / 64;
  }

  lemma TrailingOctet(c: Scalar, k: nat)
    requires 1 <= k < |Encode(c)|
    ensures Encode(c)[k] % 64 == Accumulated(c, |Encode(c)| - 1 - k) % 64
  {
    assert c / 4096 == c / 64 / 64;
    assert Accumulated(c, 1) == c / 64 && Accumulated(c, 2) == c / 64 / 64;
  }

  class Writer {
    const lineBreak: Break
    const unicode: bool
    const bestWidth: int
    var indent: int
    var out: Text
    var column: int
    var whitespace: bool
    var indention: bool

    function Now(): Pen
      reads this
    {
      Pen(column, whitespace, indention)
    }

    function Config(allowBreaks: bool): Settings
      reads this
    {
      Settings(indent, bestWidth, lineBreak, unicode, allowBreaks)
    }

    constructor (lineBreak: Break, unicode: bool, bestWidth: int, indent: int, pen: Pen)
      ensures this.lineBreak == lineBreak && this.unicode == unicode && this.bestWidth == bestWidth
      ensures this.indent == indent && Now() == pen && out == []
    {
      this.lineBreak, this.unicode, this.bestWidth, this.indent := lineBreak, unicode, bestWidth, indent;
      out, column, whitespace, indention := [], pen.column, pen.whitespace, pen.indention;
    }

    method Put(b: byte)
      modifies this`out, this`column
      ensures out == old(out) + [b] && column == old(column) + 1
    {
      out, column := out + [b], column + 1;
    }

    method PutBreak()
      modifies this`out, this`column
      ensures out == old(out) + LineBreak(lineBreak) && column == 0
    {
      match lineBreak {
        case CrBreak => out := out + [0x0D];
        case LnBreak => out := out + [0x0A];
        case CrLnBreak => out := out + [0x0D, 0x0A];
      }
      column := 0;
    }

    /** Copies the character at position `i`. */
    method Write(value: Text, i: nat, ghost c: Scalar) returns (next: nat)
      requires Holds(value, i, c)
      modifies this`out, this`column
      ensures out == old(out) + Encode(c) && column == old(column) + 1
      ensures next == i + |Encode(c)|
    {
      Classes(value, i, c);
      hide Encode;
      var w := Width(At(value, i));
      out := out + value[i..i + w];
      column := column + 1;
      return i + w;
    }

    method WriteIndent(ghost cfg: Settings)
      requires cfg.indent >= 0 && cfg.indent == indent && cfg.lineBreak == lineBreak
      modifies this`out, this`column, this`whitespace, this`indention
      ensures out == old(out) + IndentText(old(Now()), cfg) && Now() == IndentPen(old(Now()), cfg)
    {
      if !indention || column > indent || (column == indent && !whitespace) {
        PutBreak();
      }
      ghost var start := out;
      ghost var from := column;
      while column < indent
        invariant from <= column && (column <= indent || column == from)
        invariant out == start + Spaces(column - from)
      {
        Put(0x20);
        assert Spaces(column - from) == Spaces(column - 1 - from) + [0x20];
      }
      whitespace, indention := true, true;
    }

    /** Writes a quote; `needWhitespace` sets it off from what comes before. */
    method WriteQuote(quote: byte, needWhitespace: bool)
      modifies this`out, this`column, this`whitespace, this`indention
      ensures out == old(out) + (if needWhitespace && !old(whitespace) then [0x20] else []) + [quote]
      ensures column == old(column) + (if needWhitespace && !old(whitespace) then 2 else 1)
      ensures !whitespace && !indention
    {
      if needWhitespace && !whitespace { Put(0x20); }
      Put(quote);
      whitespace, indention := false, false;
    }

    /** Decodes the character at position `i`. */
    method DecodeAt(value: Text, i: nat, ghost c: Scalar) returns (w: nat, v: int)
      requires Holds(value, i, c)
      ensures w == |Encode(c)| && v == c
    {
      HoldsAt(value, i, c);
      LeadOctet(c);
      ghost var e := Encode(c);
      EncodeLength(c);
      hide Encode;
      assert At(value, i) == At(value, i + 0) == e[0];
      var octet := At(value, i);
      if octet < 0x80 {
        w, v := 1, octet;
      } else if 0xC0 <= octet < 0xE0 {
        w, v := 2, octet % 32;
      } else if 0xE0 <= octet < 0xF0 {
        w, v := 3, octet % 16;
      } else {
        w, v := 4, octet % 8;
      }
      assert Accumulated(c, 1) == c / 64;
      assert Accumulated(c, 2) == c / 64 / 64;
      assert Accumulated(c, 3) == c / 64 / 64 / 64;
      var k := 1;
      while k < w
        invariant 1 <= k <= w == |e|
        invariant v == Accumulated(c, w - k)
      {
        assert At(value, i + k) == e[k];
        TrailingOctet(c, k);
        octet := At(value, i + k);
        v := v * 64 + octet % 64;
        k := k + 1;
      }
    }

    method PutHex(v: nat, n: nat)
      modifies this`out, this`column
      ensures out == old(out) + HexDigits(v, n) && column == old(column) + n
    {
      hide HexDigit;
      var j := n;
      ghost var start := out;
      while j > 0
        invariant 0 <= j <= n && column == old(column) + n - j
        invariant out == start + HexDigits(Shifted(v, j), n - j)
      {
        j := j - 1;
        Put(HexDigit(Shifted(v, j) % 16));
      }
    }

    method WriteEscape(v: Scalar)
      modifies this`out, this`column
      ensures out == old(out) + Escape(v) && column == old(column) + |Escape(v)|
    {
      hide HexDigits;
      HexLength(v);
      Put(BACKSLASH);
      if ShortEscape(v) >= 0 {
        Put(ShortEscape(v));
      } else if v <= 0xFF {
        Put(0x78);
        PutHex(v, 2);
      } else if v <= 0xFFFF {
        Put(0x75);
        PutHex(v, 4);
      } else {
        Put(0x55);
        PutHex(v, 8);
      }
    }

    /** Writes a space, or folds the line there. */
    method WriteDoubleSpace(value: Text, i: nat, spaces: bool, allowBreaks: bool,
                            ghost cs: seq<Scalar>, ghost k: nat, ghost bom: bool, ghost text: Text)
      requires indent >= 0
      requires AtScalar(value, cs, i, k) && k < |cs| && cs[k] == 0x20 && !MustEscape(0x20, unicode, bom)
      requires i == 0 <==> k == 0
      requires text == out + DoubleBody(cs[k..], k == 0, spaces, Now(), Config(allowBreaks), bom)
      modifies this`out, this`column, this`whitespace, this`indention
      ensures text == out + DoubleBody(cs[k + 1..], false, true, Now(), Config(allowBreaks), bom)
      ensures AtScalar(value, cs, i + 1, k + 1)
    {
      hide MustEscape, AtScalar, IndentText, IndentPen, DoubleBody;
      AfterSpace(value, cs, i, k);
      BoundsOf(value, cs, i, k);
      ghost var cfg := Config(allowBreaks);
      ghost var rem := cs[k..];
      assert rem[0] == 0x20 && rem[1..] == cs[k + 1..] && (|rem| > 1 ==> rem[1] == cs[k + 1]);
      DoubleSpaceStep(rem, k == 0, spaces, Now(), cfg, bom);
      if allowBreaks && !spaces && column > bestWidth && i > 0 && i < |value| - 1 {
        ghost var before := out;
        WriteIndent(cfg);
        if IsSpace(value, i + 1) {
          Put(BACKSLASH);
          Onward(before, IndentText(old(Now()), cfg) + [BACKSLASH], DoubleBody(rem[1..], false, true, Now(), cfg, bom));
          assert out == before + (IndentText(old(Now()), cfg) + [BACKSLASH]);
        } else {
          Onward(before, IndentText(old(Now()), cfg), DoubleBody(rem[1..], false, true, Now(), cfg, bom));
        }
      } else {
        Onward(out, [0x20], DoubleBody(rem[1..], false, true, Now().(column := column + 1), cfg, bom));
        Put(0x20);
      }
    }

    /** Writes one character, escaped where that is needed. */
    method WriteDoubleChar(value: Text, i: nat, spaces: bool, allowBreaks: bool,
                           ghost cs: seq<Scalar>, ghost k: nat, ghost text: Text) returns (next: nat, blank: bool)
      requires indent >= 0 && i < |value| && AtScalar(value, cs, i, k) && (i == 0 <==> k == 0) && k <= |cs|
      requires text == out + DoubleBody(cs[k..], k == 0, spaces, Now(), Config(allowBreaks), IsBom(value))
      modifies this`out, this`column, this`whitespace, this`indention
      ensures next > i && k < |cs| && AtScalar(value, cs, next, k + 1)
      ensures text == out + DoubleBody(cs[k + 1..], false, blank, Now(), Config(allowBreaks), IsBom(value))
    {
      hide Utf8, Escape, MustEscape, DoubleBody, AtScalar, IsPrintable, IsBreak, IsBom, Encode, Holds, Width;
      ghost var cfg, bom := Config(allowBreaks), IsBom(value);
      NextScalar(value, cs, i, k, unicode, bom);
      ghost var c, rem := cs[k], cs[k..];
      assert rem[0] == c && rem[1..] == cs[k + 1..];
      DoubleCharStep(rem, k == 0, spaces, Now(), cfg, bom);
      if !IsPrintable(value, i) || (!unicode && !IsAscii(value, i)) || IsBom(value) || IsBreak(value, i)
         || At(value, i) == QUOTE || At(value, i) == BACKSLASH {
        var w, v := DecodeAt(value, i, c);
        Onward(out, Escape(c), DoubleBody(rem[1..], false, false, Now().(column := column + |Escape(c)|), cfg, bom));
        WriteEscape(v);
        return i + w, false;
      } else if IsSpace(value, i) {
        WriteDoubleSpace(value, i, spaces, allowBreaks, cs, k, bom, text);
        return i + Width(At(value, i)), true;
      }
      Onward(out, Encode(c), DoubleBody(rem[1..], false, false, Now().(column := column + 1), cfg, bom));
      next := Write(value, i, c);
      blank := false;
    }

    method WriteDoubleQuoted(value: Text, allowBreaks: bool, ghost cs: seq<Scalar>)
      requires value == Utf8(cs) && indent >= 0
      modifies this`out, this`column, this`whitespace, this`indention
      ensures out == old(out) + (if old(whitespace) then [] else [0x20])
                     + DoubleQuoted(cs, Pen(old(column) + (if old(whitespace) then 1 else 2), false, false),
                                    Config(allowBreaks))
      ensures !whitespace && !indention
    {
      hide Utf8, DoubleBody, AtScalar, IsBom;
      ghost var cfg, bom := Config(allowBreaks), IsBom(value);
      var spaces := false;
      WriteQuote(QUOTE, true);
      ghost var text := out + DoubleBody(cs, true, false, Now(), cfg, bom);
      var i := 0;
      ghost var k := 0;
      StartOf(value, cs);
      assert cs[0..] == cs;
      while i < |value|
        invariant AtScalar(value, cs, i, k) && (i == 0 <==> k == 0) && k <= |cs|
        invariant text == out + DoubleBody(cs[k..], k == 0, spaces, Now(), cfg, bom)
        decreases |value| - i
      {
        i, spaces := WriteDoubleChar(value, i, spaces, allowBreaks, cs, k, text);
        k := k + 1;
      }
      EndsTogether(value, cs, i, k);
      assert cs[k..] == [];
      DoubleEnd(false, spaces, Now(), cfg, bom);
      DoubleEnd(true, spaces, Now(), cfg, bom);
      assert out == text;
      WriteQuote(QUOTE, false);
    }

    /** Writes a space, or folds the line there. */
    method WriteSingleSpace(value: Text, i: nat, spaces: bool, breaks: bool, allowBreaks: bool,
                            ghost cs: seq<Scalar>, ghost k: nat, ghost text: Text)
      requires indent >= 0
      requires AtScalar(value, cs, i, k) && k < |cs| && cs[k] == 0x20 && (i == 0 <==> k == 0)
      requires text == out + SingleBody(cs[k..], k == 0, spaces, breaks, Now(), Config(allowBreaks))
      modifies this`out, this`column, this`whitespace, this`indention
      ensures text == out + SingleBody(cs[k + 1..], false, true, breaks, Now(), Config(allowBreaks))
      ensures AtScalar(value, cs, i + 1, k + 1)
    {
      hide AtScalar, IndentText, IndentPen, SingleBody;
      AfterSpace(value, cs, i, k);
      BoundsOf(value, cs, i, k);
      ghost var cfg := Config(allowBreaks);
      ghost var rem := cs[k..];
      assert rem[0] == 0x20 && rem[1..] == cs[k + 1..] && (|rem| > 1 ==> rem[1] == cs[k + 1]);
      SingleSpaceStep(rem, k == 0, spaces, breaks, Now(), cfg);
      if allowBreaks && !spaces && column > bestWidth && i > 0 && i < |value| - 1 && !IsSpace(value, i + 1) {
        ghost var before := out;
        WriteIndent(cfg);
        Onward(before, IndentText(old(Now()), cfg), SingleBody(rem[1..], false, true, breaks, Now(), cfg));
      } else {
        Onward(out, [0x20], SingleBody(rem[1..], false, true, breaks, Now().(column := column + 1), cfg));
        Put(0x20);
      }
    }

    /** Writes a line break; the first line feed of a run is written twice. */
    method WriteBreak(value: Text, i: nat, breaks: bool, ghost c: Scalar, ghost cfg: Settings) returns (next: nat)
      requires Holds(value, i, c) && BreakScalar(c) && cfg.lineBreak == lineBreak
      modifies this`out, this`column, this`indention
      ensures out == old(out) + BreakPiece(c, breaks, cfg) && Now() == Pen(0, whitespace, true)
      ensures next == i + |Encode(c)|
    {
      Classes(value, i, c);
      assert Encode(0x0A) == [0x0A];
      if !breaks && At(value, i) == 0x0A {
        PutBreak();
      }
      if At(value, i) == 0x0A {
        PutBreak();
        next := i + 1;
      } else {
        next := Write(value, i, c);
        column := 0;
      }
      indention := true;
    }

    /** Writes a character that is neither a space nor a break, doubling an apostrophe. */
    method WritePlain(value: Text, i: nat, breaks: bool, ghost c: Scalar, ghost cfg: Settings) returns (next: nat)
      requires Holds(value, i, c) && cfg.lineBreak == lineBreak && cfg.indent == indent >= 0
      modifies this`out, this`column, this`whitespace, this`indention
      ensures next == i + |Encode(c)|
      ensures out == old(out) + (if breaks then IndentText(old(Now()), cfg) else []) + PlainPiece(c)
      ensures Now() == PlainPen(c, if breaks then IndentPen(old(Now()), cfg) else old(Now()))
    {
      Classes(value, i, c);
      assert Encode(0x27) == [APOSTROPHE];
      hide Encode, IndentText;
      if breaks {
        WriteIndent(cfg);
      }
      if At(value, i) == APOSTROPHE {
        Put(APOSTROPHE);
      }
      next := Write(value, i, c);
      indention := false;
    }

    method WriteSingleQuoted(value: Text, allowBreaks: bool, ghost cs: seq<Scalar>)
      requires value == Utf8(cs) && indent >= 0
      modifies this`out, this`column, this`whitespace, this`indention
      ensures out == old(out) + (if old(whitespace) then [] else [0x20])
                     + SingleQuoted(cs, Pen(old(column) + (if old(whitespace) then 1 else 2), false, false),
                                    Config(allowBreaks))
      ensures !whitespace && !indention
    {
      hide Utf8, SingleBody, AtScalar, IsBreak, Encode, PlainPiece, BreakPiece, IndentText, IndentPen;
      ghost var cfg := Config(allowBreaks);
      var spaces, breaks := false, false;
      WriteQuote(APOSTROPHE, true);
      ghost var text := out + SingleBody(cs, true, false, false, Now(), cfg);
      var i := 0;
      ghost var k := 0;
      StartOf(value, cs);
      assert cs[0..] == cs;
      while i < |value|
        invariant AtScalar(value, cs, i, k) && (i == 0 <==> k == 0) && cfg == Config(allowBreaks) && k <= |cs|
        invariant text == out + SingleBody(cs[k..], k == 0, spaces, breaks, Now(), cfg)
        decreases |value| - i
      {
        EndsTogether(value, cs, i, k);
        ScalarHere(value, cs, i, k);
        ghost var c := cs[k];
        Classes(value, i, c);
        EncodeLength(c);
        ghost var rem := cs[k..];
        assert rem[0] == c && rem[1..] == cs[k + 1..];
        SingleCharStep(rem, k == 0, spaces, breaks, Now(), cfg);
        if IsSpace(value, i) {
          WriteSingleSpace(value, i, spaces, breaks, allowBreaks, cs, k, text);
          i := i + Width(At(value, i));
          spaces := true;
        } else if IsBreak(value, i) {
          Onward(out, BreakPiece(c, breaks, cfg),
                 SingleBody(rem[1..], false, spaces, true, Pen(0, whitespace, true), cfg));
          i := WriteBreak(value, i, breaks, c, cfg);
          breaks := true;
        } else {
          ghost var start := if breaks then IndentPen(Now(), cfg) else Now();
          ghost var gap := if breaks then IndentText(Now(), cfg) else [];
          OnwardTwice(out, gap, PlainPiece(c), SingleBody(rem[1..], false, false, false, PlainPen(c, start), cfg));
          i := WritePlain(value, i, breaks, c, cfg);
          spaces, breaks := false, false;
        }
        k := k + 1;
      }
      EndsTogether(value, cs, i, k);
      assert cs[k..] == [];
      SingleEnd(false, spaces, breaks, Now(), cfg);
      SingleEnd(true, spaces, breaks, Now(), cfg);
      assert out == text;
      WriteQuote(APOSTROPHE, false);
    }

    /** Whether a value spans lines, and whether single quotes can hold it. */
    method AnalyzeScalar(value: Text, ghost cs: seq<Scalar>) returns (multiline: bool, singleQuotedAllowed: bool)
      requires value == Utf8(cs)
      ensures multiline <==> exists j | 0 <= j < |cs| :: BreakScalar(cs[j])
      ensures singleQuotedAllowed <==> SingleAllowed(cs, unicode)
    {
      hide Utf8, AtScalar, IsBreak, IsPrintable, IsAscii, IsSpace, IsBlank, IsZ, At, Width, Holds, Encode,
           PrintableScalar, BreakScalar;
      var lineBreaks, special, breakSpace, spaceBreak := false, false, false, false;
      var previousSpace, previousBreak := false, false;
      if |value| == 0 {
        StartOf(value, cs);
        EndsTogether(value, cs, 0, 0);
        return false, true;
      }
      var i := 0;
      ghost var k := 0;
      StartOf(value, cs);
      while i < |value|
        invariant AtScalar(value, cs, i, k) && k <= |cs|
        invariant lineBreaks <==> exists j | 0 <= j < k :: BreakScalar(cs[j])
        invariant special <==> exists j | 0 <= j < k :: !Ordinary(cs[j], unicode)
        invariant breakSpace <==> exists j | 0 < j < k :: BreakScalar(cs[j - 1]) && cs[j] == 0x20
        invariant spaceBreak <==> exists j | 0 < j < k :: cs[j - 1] == 0x20 && BreakScalar(cs[j])
        invariant previousSpace <==> k > 0 && cs[k - 1] == 0x20
        invariant previousBreak <==> k > 0 && BreakScalar(cs[k - 1])
        decreases |value| - i
      {
        EndsTogether(value, cs, i, k);
        ScalarHere(value, cs, i, k);
        ghost var c := cs[k];
        Classes(value, i, c);
        EncodeLength(c);
        SpaceIsNoBreak();
        if !IsPrintable(value, i) || (!IsAscii(value, i) && !unicode) {
          special := true;
        }
        if IsSpace(value, i) {
          if previousBreak { breakSpace := true; }
          previousSpace, previousBreak := true, false;
        } else if IsBreak(value, i) {
          lineBreaks := true;
          if previousSpace { spaceBreak := true; }
          previousSpace, previousBreak := false, true;
        } else {
          previousSpace, previousBreak := false, false;
        }
        i := i + Width(At(value, i));
        k := k + 1;
      }
      EndsTogether(value, cs, i, k);
      multiline := lineBreaks;
      singleQuotedAllowed := !breakSpace && !spaceBreak && !special;
    }
  }

  lemma Onward(out: Text, piece: Text, rest: Text)
    ensures out + (piece + rest) == out + piece + rest
  {}

  lemma StartOf(value: Text, cs: seq<Scalar>)
    requires value == Utf8(cs)
    ensures AtScalar(value, cs, 0, 0)
  {
    assert cs[0..] == cs && value[0..] == value;
  }

  lemma DoubleEnd(first: bool, spaces: bool, pen: Pen, cfg: Settings, bom: bool)
    ensures DoubleBody([], first, spaces, pen, cfg, bom) == []
  {}

  lemma {:induction false} DoubleCharStep(cs: seq<Scalar>, first: bool, spaces: bool, pen: Pen, cfg: Settings,
                                          bom: bool)
    requires cs != []
    ensures MustEscape(cs[0], cfg.unicode, bom) ==>
              DoubleBody(cs, first, spaces, pen, cfg, bom)
              == Escape(cs[0])
                 + DoubleBody(cs[1..], false, false, pen.(column := pen.column + |Escape(cs[0])|), cfg, bom)
    ensures !MustEscape(cs[0], cfg.unicode, bom) && cs[0] != 0x20 ==>
              DoubleBody(cs, first, spaces, pen, cfg, bom)
              == Encode(cs[0]) + DoubleBody(cs[1..], false, false, pen.(column := pen.column + 1), cfg, bom)
  {
    hide Escape, Encode, MustEscape;
  }

  lemma {:induction false} DoubleSpaceStep(cs: seq<Scalar>, first: bool, spaces: bool, pen: Pen, cfg: Settings,
                                           bom: bool)
    requires cs != [] && cs[0] == 0x20 && !MustEscape(cs[0], cfg.unicode, bom)
    ensures FoldsDouble(cs, first, spaces, pen, cfg) && cs[1] == 0x20 ==>
              DoubleBody(cs, first, spaces, pen, cfg, bom)
              == IndentText(pen, cfg) + [BACKSLASH]
                 + DoubleBody(cs[1..], false, true,
                              IndentPen(pen, cfg).(column := IndentPen(pen, cfg).column + 1), cfg, bom)
    ensures FoldsDouble(cs, first, spaces, pen, cfg) && cs[1] != 0x20 ==>
              DoubleBody(cs, first, spaces, pen, cfg, bom)
              == IndentText(pen, cfg) + DoubleBody(cs[1..], false, true, IndentPen(pen, cfg), cfg, bom)
    ensures !FoldsDouble(cs, first, spaces, pen, cfg) ==>
              DoubleBody(cs, first, spaces, pen, cfg, bom)
              == [0x20] + DoubleBody(cs[1..], false, true, pen.(column := pen.column + 1), cfg, bom)
  {
    hide IndentText, IndentPen, MustEscape;
  }

  lemma BoundsOf(value: Text, cs: seq<Scalar>, i: nat, k: nat)
    requires AtScalar(value, cs, i, k)
    ensures i <= |value| && k <= |cs|
  {}

  lemma HexLength(c: Scalar)
    ensures |HexDigits(c, 2)| == 2 && |HexDigits(c, 4)| == 4 && |HexDigits(c, 8)| == 8
  {
    HexDigitsLength(c, 2);
    HexDigitsLength(c, 4);
    HexDigitsLength(c, 8);
  }

  lemma {:induction false} HexDigitsLength(v: nat, n: nat)
    ensures |HexDigits(v, n)| == n
  {
    if n == 0 {
    } else {
      HexDigitsLength(v / 16, n - 1);
    }
  }

  /** What the writer finds at the start of a scalar value. */
  lemma NextScalar(value: Text, cs: seq<Scalar>, i: nat, k: nat, unicode: bool, bom: bool)
    requires AtScalar(value, cs, i, k) && i < |value| && bom == IsBom(value)
    ensures k < |cs| && Holds(value, i, cs[k]) && AtScalar(value, cs, i + |Encode(cs[k])|, k + 1)
    ensures Width(At(value, i)) == |Encode(cs[k])| > 0
    ensures IsSpace(value, i) <==> cs[k] == 0x20
    ensures cs[k] == 0x20 ==> |Encode(cs[k])| == 1
    ensures MustEscape(cs[k], unicode, bom) <==>
              !IsPrintable(value, i) || (!unicode && !IsAscii(value, i)) || IsBom(value) || IsBreak(value, i)
              || At(value, i) == QUOTE || At(value, i) == BACKSLASH
  {
    EndsTogether(value, cs, i, k);
    ScalarHere(value, cs, i, k);
    Classes(value, i, cs[k]);
    EncodeLength(cs[k]);
    EscapeClass(value, i, cs[k], unicode, bom);
  }

  lemma EscapeClass(value: Text, i: nat, c: Scalar, unicode: bool, bom: bool)
    requires Holds(value, i, c) && bom == IsBom(value)
    ensures MustEscape(c, unicode, bom) <==>
              !IsPrintable(value, i) || (!unicode && !IsAscii(value, i)) || IsBom(value) || IsBreak(value, i)
              || At(value, i) == QUOTE || At(value, i) == BACKSLASH
  {
    hide Encode, IsPrintable, IsBreak, IsBom, Holds;
    Classes(value, i, c);
  }

  predicate Ordinary(c: Scalar, unicode: bool) {
    PrintableScalar(c) && (unicode || c <= 0x7F)
  }

  lemma SpaceIsNoBreak()
    ensures !BreakScalar(0x20)
  {}

  lemma OnwardTwice(out: Text, gap: Text, piece: Text, rest: Text)
    ensures out + (gap + piece + rest) == out + gap + piece + rest
    ensures gap == [] ==> gap + piece == piece
  {}

  lemma SingleEnd(first: bool, spaces: bool, breaks: bool, pen: Pen, cfg: Settings)
    ensures SingleBody([], first, spaces, breaks, pen, cfg) == []
  {}

  lemma {:induction false} SingleCharStep(cs: seq<Scalar>, first: bool, spaces: bool, breaks: bool, pen: Pen,
                                          cfg: Settings)
    requires cs != []
    ensures cs[0] != 0x20 && BreakScalar(cs[0]) ==>
              SingleBody(cs, first, spaces, breaks, pen, cfg)
              == BreakPiece(cs[0], breaks, cfg)
                 + SingleBody(cs[1..], false, spaces, true, Pen(0, pen.whitespace, true), cfg)
    ensures cs[0] != 0x20 && !BreakScalar(cs[0]) ==>
              SingleBody(cs, first, spaces, breaks, pen, cfg)
              == (if breaks then IndentText(pen, cfg) else []) + PlainPiece(cs[0])
                 + SingleBody(cs[1..], false, false, false,
                              PlainPen(cs[0], if breaks then IndentPen(pen, cfg) else pen), cfg)
  {
    hide BreakPiece, PlainPiece, IndentText, IndentPen, PlainPen;
    assert [] + PlainPiece(cs[0]) == PlainPiece(cs[0]);
  }

  lemma {:induction false} SingleSpaceStep(cs: seq<Scalar>, first: bool, spaces: bool, breaks: bool, pen: Pen,
                                           cfg: Settings)
    requires cs != [] && cs[0] == 0x20
    ensures FoldsSingle(cs, first, spaces, pen, cfg) ==>
              SingleBody(cs, first, spaces, breaks, pen, cfg)
              == IndentText(pen, cfg) + SingleBody(cs[1..], false, true, breaks, IndentPen(pen, cfg), cfg)
    ensures !FoldsSingle(cs, first, spaces, pen, cfg) ==>
              SingleBody(cs, first, spaces, breaks, pen, cfg)
              == [0x20] + SingleBody(cs[1..], false, true, breaks, pen.(column := pen.column + 1), cfg)
  {
    hide IndentText, IndentPen;
  }

  /** Writes a value in quotes as the emitter does, indenting below `outer`, and scans it again.
      Single quotes give way to double quotes where the analysis rules them out; only behind single
      quotes does it matter what follows. */
  method QuoteAndScan(value: Text, ghost cs: seq<Scalar>, wantSingle: bool, allowBreaks: bool, rest: Text,
                      lineBreak: Break, unicode: bool, bestWidth: int, bestIndent: int, outer: int, pen: Pen,
                      column: nat)
    returns (single: bool, ok: bool, scanned: Text, left: Text)
    requires value == Utf8(cs) && 2 <= bestIndent <= 9 && outer >= -1
    ensures single <==> wantSingle && SingleAllowed(cs, unicode)
    ensures ok && scanned == value && left == rest <==> (single ==> Closed(rest))
  {
    hide Utf8, SingleAllowed, DoubleQuoted, SingleQuoted, ScanQuoted, Closed;
    var indent := if outer < 0 then bestIndent else outer + bestIndent;
    var w := new Writer(lineBreak, unicode, bestWidth, indent, pen);
    var _, allowed := w.AnalyzeScalar(value, cs);
    ghost var cfg := w.Config(allowBreaks);
    single := wantSingle && allowed;
    if single {
      w.WriteSingleQuoted(value, allowBreaks, cs);
    } else {
      w.WriteDoubleQuoted(value, allowBreaks, cs);
    }
    var start := if pen.whitespace then 0 else 1;
    ghost var from := Pen(pen.column + (if pen.whitespace then 1 else 2), false, false);
    ghost var quoted := if single then SingleQuoted(cs, from, cfg) else DoubleQuoted(cs, from, cfg);
    assert w.out == (if pen.whitespace then [] else [0x20]) + quoted;
    var scanner := new FlowScanner(w.out + rest, start, column);
    assert scanner.Rest() == quoted + rest;
    if single {
      SingleQuotedRoundTrip(cs, from, cfg, rest, column);
    } else {
      DoubleQuotedRoundTrip(cs, from, cfg, rest, column);
    }
    StartsWithQuote(cs, from, cfg, rest, single, w.out + rest, start);
    ok, scanned := scanner.ScanFlowScalar(single);
    left := scanner.Rest();
  }

  lemma StartsWithQuote(cs: seq<Scalar>, pen: Pen, cfg: Settings, rest: Text, single: bool, b: Text, start: nat)
    requires start <= |b|
    requires b[start..] == (if single then SingleQuoted(cs, pen, cfg) else DoubleQuoted(cs, pen, cfg)) + rest
    ensures Width(At(b, start)) == 1
  {
    assert b[start..][0] == Closing(single);
  }
}
