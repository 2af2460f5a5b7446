/**
 The scanner's loop over a quoted scalar, working in place on the input buffer.
 */
module YamlFlowScanner {
  import opened Bytes
  import opened YamlBytes
  import opened YamlQuoted

  lemma DropDrop(b: Text, p: nat, n: nat)
    ensures Drop(Drop(b, p), n) == Drop(b, p + n)
  {}

  lemma AtDrop(b: Text, p: nat, k: nat)
    ensures At(Drop(b, p), k) == At(b, p + k)
  {}

  lemma ClassesDrop(b: Text, p: nat, k: nat)
    ensures IsBlank(Drop(b, p), k) == IsBlank(b, p + k)
    ensures IsBreak(Drop(b, p), k) == IsBreak(b, p + k)
    ensures IsZ(Drop(b, p), k) == IsZ(b, p + k)
    ensures IsBlankz(Drop(b, p), k) == IsBlankz(b, p + k)
  {
    AtDrop(b, p, k);
    AtDrop(b, p, k + 1);
    AtDrop(b, p, k + 2);
    assert p + (k + 1) == (p + k) + 1 && p + (k + 2) == (p + k) + 2;
  }

  /** Outside a closing quote, the gap after a word is read like any other gap. */
  lemma GapAfterWord(g: Gap, s: Text, single: bool)
    requires At(g.r, 0) != Closing(single) && (g.leadingBlanks || IsBlankz(g.r, 0))
    ensures AfterWord(g, s, single) == ScanBlanks(g, s, single)
  {
    hide ScanWord;
  }

  class FlowScanner {
    const buffer: Text
    var pos: nat
    var column: nat

    constructor (buffer: Text, pos: nat, column: nat)
      ensures this.buffer == buffer && this.pos == pos && this.column == column
    {
      this.buffer, this.pos, this.column := buffer, pos, column;
    }

    function Rest(): Text
      reads this
    {
      Drop(buffer, pos)
    }

    /** Steps over one character. */
    method Skip()
      requires Width(At(buffer, pos)) > 0
      modifies this
      ensures pos == old(pos) + Width(At(buffer, old(pos))) && column == old(column) + 1
      ensures Rest() == Drop(old(Rest()), Width(At(buffer, old(pos))))
    {
      DropDrop(buffer, pos, Width(At(buffer, pos)));
      pos, column := pos + Width(At(buffer, pos)), column + 1;
    }

    method SkipLine()
      requires IsBreak(buffer, pos)
      modifies this
      ensures Rest() == Drop(old(Rest()), BreakWidth(buffer, old(pos))) && column == 0
      ensures pos == old(pos) + BreakWidth(buffer, old(pos))
    {
      DropDrop(buffer, pos, BreakWidth(buffer, pos));
      if At(buffer, pos) == 0x0D && At(buffer, pos + 1) == 0x0A {
        pos := pos + 2;
      } else {
        pos := pos + Width(At(buffer, pos));
      }
      column := 0;
    }

    /** Copies one character. */
    method Read(s: Text) returns (t: Text)
      requires Width(At(buffer, pos)) > 0
      modifies this
      ensures column == old(column) + 1
      ensures t == s + Take(old(Rest()), Width(At(buffer, old(pos))))
      ensures Rest() == Drop(old(Rest()), Width(At(buffer, old(pos))))
    {
      var w := Width(At(buffer, pos));
      var end := if pos + w <= |buffer| then pos + w else |buffer|;
      t := if pos <= end then s + buffer[pos..end] else s;
      assert Take(Rest(), w) == if pos <= end then buffer[pos..end] else [];
      DropDrop(buffer, pos, w);
      pos, column := pos + w, column + 1;
    }

    /** Copies a line break, as a line feed unless it is a Unicode separator. */
    method ReadLine(s: Text) returns (t: Text)
      requires IsBreak(buffer, pos)
      modifies this
      ensures column == 0 && t == s + BreakText(old(Rest()))
      ensures Rest() == Drop(old(Rest()), BreakWidth(old(Rest()), 0))
    {
      AtDrop(buffer, pos, 0);
      AtDrop(buffer, pos, 1);
      AtDrop(buffer, pos, 2);
      DropDrop(buffer, pos, BreakWidth(Rest(), 0));
      if At(buffer, pos) == 0x0D && At(buffer, pos + 1) == 0x0A {
        t, pos := s + [0x0A], pos + 2;
      } else if At(buffer, pos) == 0x0D || At(buffer, pos) == 0x0A {
        t, pos := s + [0x0A], pos + 1;
      } else if At(buffer, pos) == 0xC2 && At(buffer, pos + 1) == 0x85 {
        t, pos := s + [0x0A], pos + 2;
      } else {
        t, pos := s + [At(buffer, pos), At(buffer, pos + 1), At(buffer, pos + 2)], pos + 3;
      }
      column := 0;
    }

    /** Reads `length` hexadecimal digits after the two bytes of the escape. */
    method ReadCode(length: nat) returns (ok: bool, value: int)
      requires length > 0
      ensures ok <==> AllHex(Rest(), length)
      ensures ok ==> value == HexValue(Rest()[2..length + 2]) && value >= 0
    {
      ghost var r := Rest();
      value := 0;
      var k := 0;
      while k < length
        invariant 0 <= k <= length && (k > 0 ==> k + 2 <= |r|)
        invariant forall j | 2 <= j < k + 2 :: IsHex(r[j])
        invariant value >= 0 && value == if k == 0 then 0 else HexValue(r[2..k + 2])
      {
        AtDrop(buffer, pos, k + 2);
        if !IsHex(At(buffer, pos + (k + 2))) {
          return false, 0;
        }
        value := value * 16 + AsHex(At(buffer, pos + (k + 2)));
        assert r[2..k + 3][..k] == r[2..k + 2];
        k := k + 1;
      }
      return true, value;
    }

    /** Reads the escape sequence at the front. */
    method ReadEscape(s: Text) returns (ok: bool, t: Text)
      requires At(buffer, pos) == BACKSLASH
      modifies this
      ensures ok <==> old(EscapeLength(Rest())) > 0
      ensures ok ==>
                && t == s + old(EscapeText(Rest()))
                && Rest() == Drop(old(Rest()), old(EscapeLength(Rest())))
                && column == old(column) + old(EscapeLength(Rest()))
    {
      hide HexValue, AllHex, IsHex, AsHex;
      AtDrop(buffer, pos, 1);
      ghost var r := Rest();
      var letter := At(buffer, pos + 1);
      var codeLength := CodeLength(letter);
      if codeLength == 0 {
        if LetterText(letter) == [] { return false, s; }
        t := s + LetterText(letter);
      } else {
        var value;
        ok, value := ReadCode(codeLength);
        if !ok || (0xD800 <= value <= 0xDFFF) || value > 0x10FFFF { return false, s; }
        t := s + Encode(value);
      }
      DropDrop(buffer, pos, codeLength + 2);
      pos, column := pos + 2 + codeLength, column + 2 + codeLength;
      return true, t;
    }

    /** Reads words up to a blank, a break, the closing quote or an escaped line break. */
    method ScanWords(single: bool, s0: Text, ghost spec: Scan)
      returns (ok: bool, s: Text, leadingBlanks: bool)
      requires ScanWord(Rest(), column, s0, single) == spec
      modifies this
      ensures ok ==> AfterWord(Gap(Rest(), column, [], [], [], leadingBlanks), s, single) == spec
      ensures ok ==> |Rest()| <= old(|Rest()|)
      ensures ok && |Rest()| == old(|Rest()|) ==> !leadingBlanks && Rest() == old(Rest())
      ensures ok ==> leadingBlanks || At(Rest(), 0) == Closing(single) || IsBlankz(Rest(), 0)
      ensures !ok ==> spec == Bad
    {
      hide ScanWord, AfterWord, IsBreak, EscapeLength, EscapeText, IsBlankz, BreakWidth, Drop, Take,
           DocumentIndicator;
      s := s0;
      ghost var r0 := Rest();
      ClassesDrop(buffer, pos, 0);
      while !IsBlankz(buffer, pos)
        invariant ScanWord(Rest(), column, s, single) == spec
        invariant |Rest()| <= |r0| && (|Rest()| == |r0| ==> Rest() == r0)
        invariant IsBlankz(Rest(), 0) == IsBlankz(buffer, pos)
        decreases |Rest()|
      {
        AtDrop(buffer, pos, 0);
        AtDrop(buffer, pos, 1);
        ClassesDrop(buffer, pos, 1);
        InBounds(buffer, pos);
        WordStep(Rest(), column, s, single);
        DropShorter(Rest());
        if single && At(buffer, pos) == APOSTROPHE && At(buffer, pos + 1) == APOSTROPHE {
          s := s + [APOSTROPHE];
          DropDrop(buffer, pos, 2);
          pos, column := pos + 2, column + 2;
        } else if At(buffer, pos) == Closing(single) {
          return true, s, false;
        } else if !single && At(buffer, pos) == BACKSLASH && IsBreak(buffer, pos + 1) {
          DropDrop(buffer, pos, 1);
          BreakWidthDrop(buffer, pos);
          Skip();
          SkipLine();
          return true, s, true;
        } else if !single && At(buffer, pos) == BACKSLASH {
          ok, s := ReadEscape(s);
          if !ok { return false, s, false; }
        } else if Width(At(buffer, pos)) == 0 {
          return false, s, false;
        } else {
          s := Read(s);
        }
        ClassesDrop(buffer, pos, 0);
      }
      WordEnds(Rest(), column, s, single);
      return true, s, false;
    }

    /** Collects blanks and line breaks between words and joins or folds them. */
    method ScanGap(single: bool, s0: Text, leading0: bool, ghost spec: Scan) returns (s: Text)
      requires ScanBlanks(Gap(Rest(), column, [], [], [], leading0), s0, single) == spec
      modifies this
      ensures ScanLine(Rest(), column, s, single) == spec
      ensures |Rest()| <= old(|Rest()|)
      ensures old(InGap(Gap(Rest(), column, [], [], [], leading0))) ==> |Rest()| < old(|Rest()|)
    {
      hide ScanLine, IsBreak, IsBlank, BreakText, BreakWidth;
      var whitespaces: Text, leadingBreak: Text, trailingBreaks: Text := [], [], [];
      var leadingBlanks := leading0;
      ghost var r0 := Rest();
      ClassesDrop(buffer, pos, 0);
      while IsBlank(buffer, pos) || IsBreak(buffer, pos)
        invariant ScanBlanks(Gap(Rest(), column, whitespaces, leadingBreak, trailingBreaks, leadingBlanks), s0, single)
            == spec
        invariant IsBlank(Rest(), 0) == IsBlank(buffer, pos) && IsBreak(Rest(), 0) == IsBreak(buffer, pos)
        invariant |Rest()| <= |r0| && (|Rest()| == |r0| ==> Rest() == r0)
        decreases |Rest()|
      {
        ghost var g := Gap(Rest(), column, whitespaces, leadingBreak, trailingBreaks, leadingBlanks);
        NextGapShrinks(g);
        if IsBlank(buffer, pos) {
          BlankWidth(buffer, pos);
          if !leadingBlanks {
            whitespaces := Read(whitespaces);
          } else {
            Skip();
          }
        } else if !leadingBlanks {
          whitespaces := [];
          leadingBreak := ReadLine(leadingBreak);
          leadingBlanks := true;
        } else {
          trailingBreaks := ReadLine(trailingBreaks);
        }
        assert Gap(Rest(), column, whitespaces, leadingBreak, trailingBreaks, leadingBlanks) == NextGap(g);
        ClassesDrop(buffer, pos, 0);
      }
      s := s0;
      if leadingBlanks {
        if |leadingBreak| > 0 && leadingBreak[0] == 0x0A {
          if |trailingBreaks| == 0 {
            s := s + [0x20];
          } else {
            s := s + trailingBreaks;
          }
        } else {
          s := s + leadingBreak;
          s := s + trailingBreaks;
          assert s == s0 + (leadingBreak + trailingBreaks);
        }
      } else {
        s := s + whitespaces;
      }
    }

    /** Scans a quoted scalar, from its left quote to its right quote. */
    method ScanFlowScalar(single: bool) returns (ok: bool, s: Text)
      requires Width(At(buffer, pos)) == 1
      modifies this
      ensures ok <==> old(ScanQuoted(Rest(), column, single)).Done?
      ensures ok ==> old(ScanQuoted(Rest(), column, single)) == Done(s, Rest())
    {
      hide ScanWord, AfterWord, ScanBlanks, IsBlankz;
      ghost var spec := ScanQuoted(Rest(), column, single);
      Skip();
      s := [];
      while true
        invariant ScanLine(Rest(), column, s, single) == spec
        decreases |Rest()|
      {
        IndicatorDrop(buffer, pos, column);
        ClassesDrop(buffer, pos, 0);
        if column == 0 && ((At(buffer, pos) == 0x2D && At(buffer, pos + 1) == 0x2D && At(buffer, pos + 2) == 0x2D)
                           || (At(buffer, pos) == 0x2E && At(buffer, pos + 1) == 0x2E && At(buffer, pos + 2) == 0x2E))
           && IsBlankz(buffer, pos + 3) {
          return false, s;
        }
        if IsZ(buffer, pos) {
          return false, s;
        }
        ghost var r := Rest();
        var leadingBlanks;
        ok, s, leadingBlanks := ScanWords(single, s, spec);
        if !ok { return; }
        ghost var g := Gap(Rest(), column, [], [], [], leadingBlanks);
        AtDrop(buffer, pos, 0);
        if At(buffer, pos) == Closing(single) {
          Closes(g, s, single);
          DropDrop(buffer, pos, 1);
          Skip();
          return true, s;
        }
        GapAfterWord(g, s, single);
        MustMove(g);
        s := ScanGap(single, s, leadingBlanks, spec);
      }
    }
  }

  lemma DropShorter(r: Text)
    requires r != []
    ensures forall n: nat | n > 0 :: |Drop(r, n)| < |r|
  {}

  lemma WordEnds(r: Text, column: nat, s: Text, single: bool)
    requires IsBlankz(r, 0)
    ensures ScanWord(r, column, s, single) == AfterWord(Gap(r, column, [], [], [], false), s, single)
  {
    hide AfterWord;
  }

  /** The cases of reading on inside a word. */
  lemma WordStep(r: Text, column: nat, s: Text, single: bool)
    requires !IsBlankz(r, 0)
    ensures single && At(r, 0) == APOSTROPHE && At(r, 1) == APOSTROPHE ==>
              ScanWord(r, column, s, single) == ScanWord(Drop(r, 2), column + 2, s + [APOSTROPHE], single)
    ensures !(single && At(r, 1) == APOSTROPHE) && At(r, 0) == Closing(single) ==>
              ScanWord(r, column, s, single) == AfterWord(Gap(r, column, [], [], [], false), s, single)
    ensures !single && At(r, 0) == BACKSLASH && IsBreak(r, 1) ==>
              ScanWord(r, column, s, single)
              == AfterWord(Gap(Drop(r, 1 + BreakWidth(r, 1)), 0, [], [], [], true), s, single)
    ensures !single && At(r, 0) == BACKSLASH && !IsBreak(r, 1) ==>
              ScanWord(r, column, s, single)
              == if EscapeLength(r) == 0 then Bad
                 else ScanWord(Drop(r, EscapeLength(r)), column + EscapeLength(r), s + EscapeText(r), single)
    ensures At(r, 0) != Closing(single) && (single || At(r, 0) != BACKSLASH) ==>
              ScanWord(r, column, s, single)
              == if Width(At(r, 0)) == 0 then Bad
                 else ScanWord(Drop(r, Width(At(r, 0))), column + 1, s + Take(r, Width(At(r, 0))), single)
  {
    hide AfterWord, IsBlankz, IsBreak, EscapeLength, EscapeText, Drop, Take, Width;
  }

  lemma InBounds(b: Text, p: nat)
    ensures !IsBlankz(b, p) ==> p < |b| && Drop(b, p) != []
  {}

  lemma BlankWidth(b: Text, p: nat)
    requires IsBlank(b, p)
    ensures Width(At(b, p)) == 1
  {}

  lemma BreakWidthDrop(b: Text, p: nat)
    ensures BreakWidth(Drop(b, p), 1) == BreakWidth(b, p + 1)
    ensures Drop(Drop(b, p), 1 + BreakWidth(b, p + 1)) == Drop(Drop(Drop(b, p), 1), BreakWidth(b, p + 1))
  {
    AtDrop(b, p, 1);
    AtDrop(b, p, 2);
  }

  lemma IndicatorDrop(b: Text, p: nat, column: nat)
    ensures DocumentIndicator(Drop(b, p), column) <==>
              column == 0
              && ((At(b, p) == 0x2D && At(b, p + 1) == 0x2D && At(b, p + 2) == 0x2D)
                  || (At(b, p) == 0x2E && At(b, p + 1) == 0x2E && At(b, p + 2) == 0x2E))
              && IsBlankz(b, p + 3)
  {
    AtDrop(b, p, 0);
    AtDrop(b, p, 1);
    AtDrop(b, p, 2);
    ClassesDrop(b, p, 3);
  }

  lemma Closes(g: Gap, s: Text, single: bool)
    requires At(g.r, 0) == Closing(single)
    ensures AfterWord(g, s, single) == Done(s, Drop(g.r, 1)) && Width(At(g.r, 0)) == 1
  {
    hide ScanBlanks, ScanLine;
  }

  lemma MustMove(g: Gap)
    ensures !g.leadingBlanks && IsBlankz(g.r, 0) && !IsZ(g.r, 0) ==> InGap(g)
  {}
}
