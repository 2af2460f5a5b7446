/**
 The reader: chunks of bytes from a read handler become the UTF-8 characters that the scanner sees.

 The read handler is a script of answers, each some bytes with "more", "end of file" or an error; an
 answer that does not fit is handed out in parts.  Bit masks are written as ranges and remainders.
 */
module YamlReader {
  import opened Options
  import opened Bytes
  import opened YamlBytes

  datatype Encoding = AnyEncoding | Utf8Encoding | Utf16Le | Utf16Be

  datatype ProblemKind =
    | InputError | InvalidLeading | IncompleteSequence | InvalidTrailing | InvalidLength | InvalidUnicode
    | IncompleteCharacter | UnexpectedLow | IncompletePair | ExpectedLow | ControlCharacter

  datatype Problem = Problem(kind: ProblemKind, offset: int, value: int)

  /** One character, a reason why there is none, or the need for more bytes. */
  datatype Next = Char(value: Scalar, width: nat) | Bad(problem: Problem) | Need

  // ---------------------------------------------------------------------------------------------
  // Decoding on values

  predicate Allowed(c: int) {
    || c == 0x09 || c == 0x0A || c == 0x0D || 0x20 <= c <= 0x7E || c == 0x85
    || 0xA0 <= c <= 0xD7FF || 0xE000 <= c <= 0xFFFD || 0x10000 <= c <= 0x10FFFF
  }

  function IfAllowed(value: int, width: nat, offset: int): Next {
    if Allowed(value) then Char(value, width) else Bad(Problem(ControlCharacter, offset, value))
  }

  function LeadBits(octet: byte): int {
    if octet < 0x80 then octet else if octet < 0xE0 then octet % 32 else if octet < 0xF0 then octet % 16 else octet % 8
  }

  predicate IsTrailing(octet: byte) { 0x80 <= octet < 0xC0 }

  /** The value of a sequence from its trailing octet `k` on, or the first octet that is none. */
  function Trailing(b: Text, k: nat, width: nat, value: int, offset: int): Next
    requires width <= |b| && k <= width
    decreases width - k
  {
    if k == width then Checked(value, width, offset)
    else if !IsTrailing(b[k]) then Bad(Problem(InvalidTrailing, offset + k, b[k]))
    else Trailing(b, k + 1, width, value * 64 + b[k] % 64, offset)
  }

  function Checked(value: int, width: nat, offset: int): Next {
    if !(|| width == 1 || (width == 2 && value >= 0x80) || (width == 3 && value >= 0x800)
         || (width == 4 && value >= 0x10000)) then Bad(Problem(InvalidLength, offset, -1))
    else if 0xD800 <= value <= 0xDFFF || value > 0x10FFFF then Bad(Problem(InvalidUnicode, offset, value))
    else IfAllowed(value, width, offset)
  }

  function NextUtf8(b: Text, eof: bool, offset: int): Next
    requires b != []
  {
    var width := Width(b[0]);
    if width == 0 then Bad(Problem(InvalidLeading, offset, b[0]))
    else if width > |b| then if eof then Bad(Problem(IncompleteSequence, offset, -1)) else Need
    else Trailing(b, 1, width, LeadBits(b[0]), offset)
  }

  function Paired(low: int, high: int): int { low + high * 256 }

  /** A unit of two bytes, the less significant one first if `le`. */
  function Unit(b: Text, i: nat, le: bool): int
    requires i + 2 <= |b|
  {
    if le then Paired(b[i], b[i + 1]) else Paired(b[i + 1], b[i])
  }

  predicate HighSurrogate(u: int) { 0xD800 <= u < 0xDC00 }

  predicate LowSurrogate(u: int) { 0xDC00 <= u < 0xE000 }

  function NextUtf16(b: Text, le: bool, eof: bool, offset: int): Next
    requires b != []
  {
    if |b| < 2 then if eof then Bad(Problem(IncompleteCharacter, offset, -1)) else Need
    else
      var u := Unit(b, 0, le);
      if LowSurrogate(u) then Bad(Problem(UnexpectedLow, offset, u))
      else if HighSurrogate(u) then
        if |b| < 4 then if eof then Bad(Problem(IncompletePair, offset, -1)) else Need
        else
          var v := Unit(b, 2, le);
          if !LowSurrogate(v) then Bad(Problem(ExpectedLow, offset + 2, v))
          else IfAllowed(0x10000 + (u % 1024) * 1024 + v % 1024, 4, offset)
      else IfAllowed(u, 2, offset)
  }

  function NextChar(enc: Encoding, b: Text, eof: bool, offset: int): (n: Next)
    requires b != [] && !enc.AnyEncoding?
  {
    if enc.Utf8Encoding? then NextUtf8(b, eof, offset) else NextUtf16(b, enc.Utf16Le?, eof, offset)
  }

  /** What an input amounts to: its characters, up to the first problem. */
  datatype Decoding = Complete(chars: seq<Scalar>) | Malformed(chars: seq<Scalar>, problem: Problem)

  function Prepend(cs: seq<Scalar>, d: Decoding): Decoding {
    match d
    case Complete(chars) => Complete(cs + chars)
    case Malformed(chars, problem) => Malformed(cs + chars, problem)
  }

  lemma WidthFits(enc: Encoding, b: Text, eof: bool, offset: int)
    requires b != [] && !enc.AnyEncoding?
    ensures var n := NextChar(enc, b, eof, offset); n.Char? ==> 1 <= n.width <= |b| && n.width <= 4
    ensures NextChar(enc, b, eof, offset).Need? ==> !eof && |b| < 4
  {
    if enc.Utf8Encoding? && 0 < Width(b[0]) <= |b| { TrailingWidth(b, 1, Width(b[0]), LeadBits(b[0]), offset); }
  }

  lemma {:induction false} TrailingWidth(b: Text, k: nat, width: nat, value: int, offset: int)
    requires width <= |b| && k <= width
    ensures var n := Trailing(b, k, width, value, offset); !n.Need? && (n.Char? ==> n.width == width)
    decreases width - k
  {
    if k == width {
    } else {
      TrailingWidth(b, k + 1, width, value * 64 + b[k] % 64, offset);
    }
  }

  function Decoded(enc: Encoding, b: Text, offset: int): Decoding
    requires !enc.AnyEncoding?
    decreases |b|
  {
    if b == [] then Complete([])
    else
      var n := NextChar(enc, b, true, offset);
      WidthFits(enc, b, true, offset);
      match n
      case Char(value, width) => Prepend([value], Decoded(enc, b[width..], offset + width))
      case Bad(problem) => Malformed([], problem)
  }

  /** The encoding that a byte order mark announces, and the length of the mark. */
  function Sniff(b: Text): (Encoding, nat) {
    if |b| >= 2 && b[0] == 0xFF && b[1] == 0xFE then (Utf16Le, 2)
    else if |b| >= 2 && b[0] == 0xFE && b[1] == 0xFF then (Utf16Be, 2)
    else if |b| >= 3 && b[0] == 0xEF && b[1] == 0xBB && b[2] == 0xBF then (Utf8Encoding, 3)
    else (Utf8Encoding, 0)
  }

  /** What a whole input amounts to. */
  function Transcoded(input: Text): Decoding {
    var (enc, mark) := Sniff(input);
    Decoded(enc, input[mark..], mark)
  }

  // ---------------------------------------------------------------------------------------------
  // Encoding, and its agreement with decoding

  function UnitBytes(u: int, le: bool): Text
    requires 0 <= u < 0x10000
  {
    if le then [u % 256, u / 256] else [u / 256, u % 256]
  }

  /** UTF-16 (section 2.1 of RFC 2781). */
  function Encode16(c: Scalar, le: bool): Text {
    if c < 0x10000 then UnitBytes(c, le)
    else UnitBytes(0xD800 + (c - 0x10000) / 1024, le) + UnitBytes(0xDC00 + (c - 0x10000) % 1024, le)
  }

  function EncodeAs(enc: Encoding, c: Scalar): Text
    requires !enc.AnyEncoding?
  {
    if enc.Utf8Encoding? then Encode(c) else Encode16(c, enc.Utf16Le?)
  }

  function EncodeAll(enc: Encoding, cs: seq<Scalar>): Text
    requires !enc.AnyEncoding?
  {
    if cs == [] then [] else EncodeAs(enc, cs[0]) + EncodeAll(enc, cs[1..])
  }

  predicate AllAllowed(cs: seq<Scalar>) {
    forall i | 0 <= i < |cs| :: Allowed(cs[i])
  }

  lemma Trailing1(b: Text, value: int, offset: int)
    requires |b| >= 1
    ensures Trailing(b, 1, 1, value, offset) == Checked(value, 1, offset)
  {}

  lemma Trailing2(b: Text, value: int, offset: int)
    requires |b| >= 2 && IsTrailing(b[1])
    ensures Trailing(b, 1, 2, value, offset) == Checked(value * 64 + b[1] % 64, 2, offset)
  {
    hide Checked;
  }

  lemma Trailing3(b: Text, value: int, offset: int)
    requires |b| >= 3 && IsTrailing(b[1]) && IsTrailing(b[2])
    ensures Trailing(b, 1, 3, value, offset) == Checked((value * 64 + b[1] % 64) * 64 + b[2] % 64, 3, offset)
  {
    hide Checked;
    var v := value * 64 + b[1] % 64;
    assert Trailing(b, 1, 3, value, offset) == Trailing(b, 2, 3, v, offset);
  }

  lemma Trailing4(b: Text, value: int, offset: int)
    requires |b| >= 4 && IsTrailing(b[1]) && IsTrailing(b[2]) && IsTrailing(b[3])
    ensures Trailing(b, 1, 4, value, offset)
         == Checked(((value * 64 + b[1] % 64) * 64 + b[2] % 64) * 64 + b[3] % 64, 4, offset)
  {
    hide Checked;
    var v := value * 64 + b[1] % 64;
    var w := v * 64 + b[2] % 64;
    assert Trailing(b, 1, 4, value, offset) == Trailing(b, 2, 4, v, offset) == Trailing(b, 3, 4, w, offset);
  }

  /** A character comes only from octets that may trail. */
  lemma {:induction false} OnlyTrailing(b: Text, k: nat, width: nat, value: int, offset: int)
    requires width <= |b| && k <= width && Trailing(b, k, width, value, offset).Char?
    ensures forall i | k <= i < width :: IsTrailing(b[i])
    decreases width - k
  {
    if k == width {
    } else {
      OnlyTrailing(b, k + 1, width, value * 64 + b[k] % 64, offset);
    }
  }

  lemma DivMod64(q: int, r: int)
    requires 0 <= r < 64
    ensures (q * 64 + r) / 64 == q && (q * 64 + r) % 64 == r
  {}

  lemma Quotients(c: int)
    requires c >= 0
    ensures c / 4096 == (c / 64) / 64 && c / 262144 == ((c / 64) / 64) / 64
  {}

  /** The groups of six bits of a value. */
  lemma Sextets(a: int, b: int, c: int, d: int)
    requires 0 <= a && 0 <= b < 64 && 0 <= c < 64 && 0 <= d < 64
    ensures var v := ((a * 64 + b) * 64 + c) * 64 + d;
            && v / 262144 == a && (v / 4096) % 64 == b && (v / 64) % 64 == c && v % 64 == d
            && v / 4096 == a * 64 + b && v / 64 == (a * 64 + b) * 64 + c
  {
    var x := a * 64 + b;
    var y := x * 64 + c;
    var v := y * 64 + d;
    DivMod64(a, b);
    DivMod64(x, c);
    DivMod64(y, d);
    Quotients(v);
  }

  lemma Regrouped(c: int)
    requires c >= 0
    ensures (c / 64) * 64 + c % 64 == c
    ensures ((c / 4096) * 64 + (c / 64) % 64) * 64 + c % 64 == c
    ensures (((c / 262144) * 64 + (c / 4096) % 64) * 64 + (c / 64) % 64) * 64 + c % 64 == c
  {
    Quotients(c);
    var x := c / 64;
    var y := x / 64;
    assert c == x * 64 + c % 64;
    assert x == y * 64 + x % 64;
    assert y == (y / 64) * 64 + y % 64;
  }

  lemma Sequence2(b: Text, x: int, y: int, eof: bool, offset: int)
    requires |b| >= 2 && 0 <= x < 32 && b[0] == 0xC0 + x
    requires 0 <= y < 64 && b[1] == 0x80 + y
    ensures NextUtf8(b, eof, offset) == Checked(x * 64 + y, 2, offset)
  {
    hide Trailing, Checked;
    assert LeadBits(b[0]) == x;
    Trailing2(b, x, offset);
  }

  lemma Sequence3(b: Text, x: int, y: int, z: int, eof: bool, offset: int)
    requires |b| >= 3 && 0 <= x < 16 && b[0] == 0xE0 + x
    requires 0 <= y < 64 && b[1] == 0x80 + y && 0 <= z < 64 && b[2] == 0x80 + z
    ensures NextUtf8(b, eof, offset) == Checked((x * 64 + y) * 64 + z, 3, offset)
  {
    hide Trailing, Checked;
    assert LeadBits(b[0]) == x;
    Trailing3(b, x, offset);
  }

  lemma Sequence4(b: Text, x: int, y: int, z: int, u: int, eof: bool, offset: int)
    requires |b| >= 4 && 0 <= x < 8 && b[0] == 0xF0 + x
    requires 0 <= y < 64 && b[1] == 0x80 + y && 0 <= z < 64 && b[2] == 0x80 + z && 0 <= u < 64 && b[3] == 0x80 + u
    ensures NextUtf8(b, eof, offset) == Checked(((x * 64 + y) * 64 + z) * 64 + u, 4, offset)
  {
    hide Trailing, Checked;
    assert LeadBits(b[0]) == x;
    Trailing4(b, x, offset);
  }

  lemma Utf8Forth(c: Scalar, rest: Text, eof: bool, offset: int)
    requires Allowed(c)
    ensures NextUtf8(Encode(c) + rest, eof, offset) == Char(c, |Encode(c)|)
  {
    var b := Encode(c) + rest;
    Regrouped(c);
    if c <= 0x7F {
      Trailing1(b, c, offset);
    } else {
      hide NextUtf8;
      if c <= 0x7FF {
        Sequence2(b, c / 64, c % 64, eof, offset);
      } else if c <= 0xFFFF {
        Sequence3(b, c / 4096, (c / 64) % 64, c % 64, eof, offset);
      } else {
        Sequence4(b, c / 262144, (c / 4096) % 64, (c / 64) % 64, c % 64, eof, offset);
      }
    }
  }

  lemma Encode3(x: int, y: int, z: int)
    requires 0 <= x < 16 && 0 <= y < 64 && 0 <= z < 64
    ensures var v := (x * 64 + y) * 64 + z;
            0x800 <= v && (v < 0xD800 || 0xE000 <= v) ==> Encode(v) == [0xE0 + x, 0x80 + y, 0x80 + z]
  {
    Sextets(0, x, y, z);
  }

  lemma Encode4(x: int, y: int, z: int, u: int)
    requires 0 <= x < 8 && 0 <= y < 64 && 0 <= z < 64 && 0 <= u < 64
    ensures var v := ((x * 64 + y) * 64 + z) * 64 + u;
            0x10000 <= v <= 0x10FFFF ==> Encode(v) == [0xF0 + x, 0x80 + y, 0x80 + z, 0x80 + u]
  {
    Sextets(x, y, z, u);
  }

  /** Encoding gives back the octets that a character was read from. */
  predicate Recovers(b: Text, n: Next) {
    n.Char? ==> Allowed(n.value) && n.width <= |b| && b[..n.width] == Encode(n.value)
  }

  lemma Utf8Back2(b: Text, eof: bool, offset: int)
    requires |b| >= 2 && 0xC0 <= b[0] < 0xE0 && IsTrailing(b[1])
    ensures Recovers(b, NextUtf8(b, eof, offset))
  {
    var x, y := b[0] - 0xC0, b[1] - 0x80;
    Sequence2(b, x, y, eof, offset);
    hide NextUtf8;
    DivMod64(x, y);
    assert b[..2] == [0xC0 + x, 0x80 + y];
  }

  lemma Utf8Back3(b: Text, eof: bool, offset: int)
    requires |b| >= 3 && 0xE0 <= b[0] < 0xF0 && IsTrailing(b[1]) && IsTrailing(b[2])
    ensures Recovers(b, NextUtf8(b, eof, offset))
  {
    var x, y, z := b[0] - 0xE0, b[1] - 0x80, b[2] - 0x80;
    Sequence3(b, x, y, z, eof, offset);
    hide NextUtf8, Encode;
    Encode3(x, y, z);
    assert b[..3] == [0xE0 + x, 0x80 + y, 0x80 + z];
  }

  lemma Utf8Back4(b: Text, eof: bool, offset: int)
    requires |b| >= 4 && 0xF0 <= b[0] < 0xF8 && IsTrailing(b[1]) && IsTrailing(b[2]) && IsTrailing(b[3])
    ensures Recovers(b, NextUtf8(b, eof, offset))
  {
    var x, y, z, u := b[0] - 0xF0, b[1] - 0x80, b[2] - 0x80, b[3] - 0x80;
    Sequence4(b, x, y, z, u, eof, offset);
    hide NextUtf8, Encode;
    Encode4(x, y, z, u);
    assert b[..4] == [0xF0 + x, 0x80 + y, 0x80 + z, 0x80 + u];
  }

  lemma Utf8Back1(b: Text, eof: bool, offset: int)
    requires |b| >= 1 && b[0] < 0x80
    ensures Recovers(b, NextUtf8(b, eof, offset))
  {
    Trailing1(b, b[0], offset);
  }

  lemma Utf8Back(b: Text, eof: bool, offset: int)
    requires b != [] && NextUtf8(b, eof, offset).Char?
    ensures Recovers(b, NextUtf8(b, eof, offset))
  {
    var w := Width(b[0]);
    OnlyTrailing(b, 1, w, LeadBits(b[0]), offset);
    hide NextUtf8, Recovers, LeadBits, Trailing;
    if w == 1 { Utf8Back1(b, eof, offset); }
    else if w == 2 { Utf8Back2(b, eof, offset); }
    else if w == 3 { Utf8Back3(b, eof, offset); }
    else { Utf8Back4(b, eof, offset); }
  }

  lemma UnitForth(u: int, le: bool, before: Text, rest: Text)
    requires 0 <= u < 0x10000
    ensures |before + UnitBytes(u, le) + rest| == |before| + 2 + |rest|
    ensures Unit(before + UnitBytes(u, le) + rest, |before|, le) == u
  {}

  lemma UnitBack(b: Text, i: nat, le: bool)
    requires i + 2 <= |b|
    ensures 0 <= Unit(b, i, le) < 0x10000 && UnitBytes(Unit(b, i, le), le) == b[i..i + 2]
  {}

  lemma Utf16Forth(c: Scalar, le: bool, rest: Text, eof: bool, offset: int)
    requires Allowed(c)
    ensures NextUtf16(Encode16(c, le) + rest, le, eof, offset) == Char(c, |Encode16(c, le)|)
  {
    hide Unit, UnitBytes;
    var b := Encode16(c, le) + rest;
    if c < 0x10000 {
      UnitForth(c, le, [], rest);
      assert [] + UnitBytes(c, le) + rest == b;
    } else {
      var u, v := 0xD800 + (c - 0x10000) / 1024, 0xDC00 + (c - 0x10000) % 1024;
      UnitForth(u, le, [], UnitBytes(v, le) + rest);
      assert [] + UnitBytes(u, le) + (UnitBytes(v, le) + rest) == b;
      UnitForth(v, le, UnitBytes(u, le), rest);
      UnitForth(u, le, [], []);
      assert [] + UnitBytes(u, le) + [] == UnitBytes(u, le);
      assert u % 1024 == (c - 0x10000) / 1024 && v % 1024 == (c - 0x10000) % 1024;
    }
  }

  lemma Utf16Back(b: Text, le: bool, eof: bool, offset: int)
    requires b != [] && NextUtf16(b, le, eof, offset).Char?
    ensures var n := NextUtf16(b, le, eof, offset);
            Allowed(n.value) && n.width <= |b| && b[..n.width] == Encode16(n.value, le)
  {
    hide Unit, UnitBytes;
    UnitBack(b, 0, le);
    if HighSurrogate(Unit(b, 0, le)) {
      UnitBack(b, 2, le);
      assert b[..4] == b[0..2] + b[2..4];
    }
  }

  lemma NextForth(enc: Encoding, c: Scalar, rest: Text, eof: bool, offset: int)
    requires Allowed(c) && !enc.AnyEncoding?
    ensures EncodeAs(enc, c) + rest != []
    ensures NextChar(enc, EncodeAs(enc, c) + rest, eof, offset) == Char(c, |EncodeAs(enc, c)|)
  {
    hide NextUtf8, NextUtf16;
    if enc.Utf8Encoding? { Utf8Forth(c, rest, eof, offset); } else { Utf16Forth(c, enc.Utf16Le?, rest, eof, offset); }
  }

  lemma NextBack(enc: Encoding, b: Text, eof: bool, offset: int)
    requires b != [] && !enc.AnyEncoding? && NextChar(enc, b, eof, offset).Char?
    ensures var n := NextChar(enc, b, eof, offset);
            Allowed(n.value) && n.width <= |b| && b[..n.width] == EncodeAs(enc, n.value)
  {
    hide NextUtf8, NextUtf16;
    if enc.Utf8Encoding? { Utf8Back(b, eof, offset); } else { Utf16Back(b, enc.Utf16Le?, eof, offset); }
  }

  lemma {:induction false} DecodeForth(enc: Encoding, cs: seq<Scalar>, offset: int)
    requires !enc.AnyEncoding? && AllAllowed(cs)
    ensures Decoded(enc, EncodeAll(enc, cs), offset) == Complete(cs)
  {
    hide NextChar, EncodeAs;
    if cs == [] {
    } else {
      var one, rest := EncodeAs(enc, cs[0]), EncodeAll(enc, cs[1..]);
      NextForth(enc, cs[0], rest, true, offset);
      WidthFits(enc, one + rest, true, offset);
      assert (one + rest)[|one|..] == rest;
      DecodeForth(enc, cs[1..], offset + |one|);
      assert [cs[0]] + cs[1..] == cs;
    }
  }

  lemma {:induction false} DecodeBack(enc: Encoding, b: Text, offset: int)
    requires !enc.AnyEncoding? && Decoded(enc, b, offset).Complete?
    ensures AllAllowed(Decoded(enc, b, offset).chars)
    ensures b == EncodeAll(enc, Decoded(enc, b, offset).chars)
    decreases |b|
  {
    hide NextChar, EncodeAs, Allowed;
    if b == [] {
    } else {
      var n := NextChar(enc, b, true, offset);
      WidthFits(enc, b, true, offset);
      NextBack(enc, b, true, offset);
      var tail := b[n.width..];
      DecodeBack(enc, tail, offset + n.width);
      var cs, rest := Decoded(enc, b, offset).chars, Decoded(enc, tail, offset + n.width).chars;
      assert cs == [n.value] + rest && cs[1..] == rest;
      hide Decoded;
      assert b == b[..n.width] + tail;
    }
  }

  /** Decoding accepts exactly the encodings of allowed characters, and inverts encoding. */
  lemma DecodedExactly(enc: Encoding, b: Text, offset: int, cs: seq<Scalar>)
    requires !enc.AnyEncoding?
    ensures Decoded(enc, b, offset) == Complete(cs) <==> AllAllowed(cs) && b == EncodeAll(enc, cs)
  {
    hide Decoded;
    if Decoded(enc, b, offset) == Complete(cs) { DecodeBack(enc, b, offset); }
    if AllAllowed(cs) && b == EncodeAll(enc, cs) { DecodeForth(enc, cs, offset); }
  }

  lemma {:induction false} EncodeAllUtf8(cs: seq<Scalar>)
    ensures EncodeAll(Utf8Encoding, cs) == Utf8(cs)
  {
    if cs == [] {
    } else {
      EncodeAllUtf8(cs[1..]);
    }
  }

  /** For UTF-8 the transcoding is the identity behind the byte order mark. */
  lemma Utf8Identity(input: Text)
    requires Sniff(input).0.Utf8Encoding? && Transcoded(input).Complete?
    ensures Utf8(Transcoded(input).chars) == input[Sniff(input).1..]
  {
    hide Decoded, EncodeAll;
    var b := input[Sniff(input).1..];
    DecodeBack(Utf8Encoding, b, Sniff(input).1);
    EncodeAllUtf8(Transcoded(input).chars);
  }

  // ---------------------------------------------------------------------------------------------
  // Whole inputs

  /** The input is the text `cs` behind the mark of its encoding, or UTF-8 without a mark; a first
      character that looks like the mark is taken for it. */
  predicate Represents(input: Text, cs: seq<Scalar>) {
    || input == [0xFF, 0xFE] + EncodeAll(Utf16Le, cs)
    || input == [0xFE, 0xFF] + EncodeAll(Utf16Be, cs)
    || input == [0xEF, 0xBB, 0xBF] + EncodeAll(Utf8Encoding, cs)
    || (input == EncodeAll(Utf8Encoding, cs) && (cs == [] || cs[0] != 0xFEFF))
  }

  /** How the encoding of a character starts in UTF-8: never with a byte of the marks of UTF-16, and
      with the mark of UTF-8 only if the character is that mark. */
  lemma Unmarked(c: Scalar)
    ensures Encode(c)[0] < 0xF8
    ensures |Encode(c)| == 3 && Encode(c)[0] == 0xEF && Encode(c)[1] == 0xBB && Encode(c)[2] == 0xBF ==> c == 0xFEFF
    ensures |Encode(c)| != 3 ==> Encode(c)[0] != 0xEF
  {
    Regrouped(c);
  }

  lemma NoMark(cs: seq<Scalar>)
    requires cs == [] || cs[0] != 0xFEFF
    ensures Sniff(EncodeAll(Utf8Encoding, cs)) == (Utf8Encoding, 0)
  {
    if cs == [] {
    } else {
      Unmarked(cs[0]);
      hide Encode;
    }
  }

  lemma MarkRead(mark: Text, input: Text)
    requires mark <= input
    ensures mark == [0xFF, 0xFE] ==> Transcoded(input) == Decoded(Utf16Le, input[2..], 2)
    ensures mark == [0xFE, 0xFF] ==> Transcoded(input) == Decoded(Utf16Be, input[2..], 2)
    ensures mark == [0xEF, 0xBB, 0xBF] ==> Transcoded(input) == Decoded(Utf8Encoding, input[3..], 3)
  {
    hide Decoded;
    assert forall i | 0 <= i < |mark| :: input[i] == mark[i];
  }

  /** Each way to represent a text is read as that text. */
  lemma RepresentedForth(input: Text, cs: seq<Scalar>)
    requires AllAllowed(cs) && Represents(input, cs)
    ensures Transcoded(input) == Complete(cs)
  {
    hide EncodeAll, Decoded, Allowed, Transcoded;
    if input == [0xFF, 0xFE] + EncodeAll(Utf16Le, cs) {
      MarkRead([0xFF, 0xFE], input);
      DecodeForth(Utf16Le, cs, 2);
    } else if input == [0xFE, 0xFF] + EncodeAll(Utf16Be, cs) {
      MarkRead([0xFE, 0xFF], input);
      DecodeForth(Utf16Be, cs, 2);
    } else if input == [0xEF, 0xBB, 0xBF] + EncodeAll(Utf8Encoding, cs) {
      MarkRead([0xEF, 0xBB, 0xBF], input);
      DecodeForth(Utf8Encoding, cs, 3);
    } else {
      NoMark(cs);
      assert Transcoded(input) == Decoded(Utf8Encoding, input[0..], 0) by { MarkAbsent(input); }
      assert input[0..] == input;
      DecodeForth(Utf8Encoding, cs, 0);
    }
  }

  lemma MarkAbsent(input: Text)
    requires Sniff(input) == (Utf8Encoding, 0)
    ensures Transcoded(input) == Decoded(Utf8Encoding, input[0..], 0)
  {
    hide Decoded;
  }

  lemma MarkFound(input: Text)
    ensures var (enc, mark) := Sniff(input);
            || (enc == Utf16Le && [0xFF, 0xFE] <= input && mark == 2)
            || (enc == Utf16Be && [0xFE, 0xFF] <= input && mark == 2)
            || (enc == Utf8Encoding && [0xEF, 0xBB, 0xBF] <= input && mark == 3)
            || (enc == Utf8Encoding && !([0xEF, 0xBB, 0xBF] <= input) && mark == 0)
  {}

  lemma MarkBehind(input: Text, mark: Text, rest: Text)
    requires mark <= input && input[|mark|..] == rest
    ensures input == mark + rest
  {}

  lemma FirstIsMark(cs: seq<Scalar>)
    requires cs != [] && cs[0] == 0xFEFF
    ensures [0xEF, 0xBB, 0xBF] <= EncodeAll(Utf8Encoding, cs)
  {
    assert Encode(0xFEFF) == [0xEF, 0xBB, 0xBF];
  }

  /** And nothing else is: the reader accepts exactly the representations of allowed texts. */
  lemma RepresentedBack(input: Text, cs: seq<Scalar>)
    requires Transcoded(input) == Complete(cs)
    ensures AllAllowed(cs) && Represents(input, cs)
  {
    var (enc, mark) := Sniff(input);
    MarkFound(input);
    hide EncodeAll, Decoded, Allowed, Sniff;
    DecodeBack(enc, input[mark..], mark);
    if enc.Utf16Le? {
      MarkBehind(input, [0xFF, 0xFE], EncodeAll(Utf16Le, cs));
    } else if enc.Utf16Be? {
      MarkBehind(input, [0xFE, 0xFF], EncodeAll(Utf16Be, cs));
    } else if mark == 3 {
      MarkBehind(input, [0xEF, 0xBB, 0xBF], EncodeAll(Utf8Encoding, cs));
    } else {
      assert input[0..] == input;
      if cs != [] && cs[0] == 0xFEFF { FirstIsMark(cs); }
    }
  }

  lemma TranscodedExactly(input: Text, cs: seq<Scalar>)
    ensures Transcoded(input) == Complete(cs) <==> AllAllowed(cs) && Represents(input, cs)
  {
    hide Transcoded, Represents, AllAllowed;
    if Transcoded(input) == Complete(cs) { RepresentedBack(input, cs); }
    if AllAllowed(cs) && Represents(input, cs) { RepresentedForth(input, cs); }
  }

  /** What is not allowed: the control characters other than tab, line feed, carriage return and next
      line, the surrogates, and the last two code points of the first plane. */
  lemma AllowedMeans(c: int)
    requires 0 <= c <= 0x10FFFF
    ensures !Allowed(c) <==>
              || (c <= 0x1F && c != '\t' as int && c != '\n' as int && c != '\r' as int)
              || (0x7F <= c <= 0x9F && c != 0x85) || 0xD800 <= c <= 0xDFFF || c == 0xFFFE || c == 0xFFFF
  {}

  /** The bytes of a character in UTF-16, in both orders. */
  lemma Units(c: Scalar)
    ensures c < 0x10000 ==>
              Encode16(c, true) == [c % 256, c / 256] && Encode16(c, false) == [c / 256, c % 256]
    ensures c >= 0x10000 ==>
              exists high: int, low: int ::
                && 0xD800 <= high < 0xDC00 <= low < 0xE000 && c == 0x10000 + (high - 0xD800) * 0x400 + (low - 0xDC00)
                && Encode16(c, true) == [high % 256, high / 256, low % 256, low / 256]
                && Encode16(c, false) == [high / 256, high % 256, low / 256, low % 256]
  {
    if c >= 0x10000 {
      var high, low := 0xD800 + (c - 0x10000) / 1024, 0xDC00 + (c - 0x10000) % 1024;
      assert c == 0x10000 + (high - 0xD800) * 0x400 + (low - 0xDC00);
      assert Encode16(c, true) == [high % 256, high / 256, low % 256, low / 256];
    }
  }

  // ---------------------------------------------------------------------------------------------
  // What is refused, and why

  /** A character that is not allowed is refused as such in every encoding. */
  lemma ControlRefused(enc: Encoding, c: Scalar, rest: Text, eof: bool, offset: int)
    requires !enc.AnyEncoding? && !Allowed(c)
    ensures EncodeAs(enc, c) + rest != []
    ensures NextChar(enc, EncodeAs(enc, c) + rest, eof, offset) == Bad(Problem(ControlCharacter, offset, c))
  {
    var b := EncodeAs(enc, c) + rest;
    if enc.Utf8Encoding? {
      Regrouped(c);
      if c <= 0x7F {
        Trailing1(b, c, offset);
      } else {
        hide NextUtf8;
        if c <= 0x7FF {
          Sequence2(b, c / 64, c % 64, eof, offset);
        } else {
          Sequence3(b, c / 4096, (c / 64) % 64, c % 64, eof, offset);
        }
      }
    } else {
      hide Unit, UnitBytes;
      UnitForth(c, enc.Utf16Le?, [], rest);
      assert [] + UnitBytes(c, enc.Utf16Le?) + rest == b;
    }
  }

  /** A value in more bytes than it needs, a surrogate, and a value beyond the last code point are
      refused in UTF-8. */
  lemma Utf8Refused(x: int, y: int, z: int, u: int, rest: Text, eof: bool, offset: int)
    requires 0 <= y < 64 && 0 <= z < 64 && 0 <= u < 64
    ensures 0 <= x < 2 ==>
              NextUtf8([0xC0 + x, 0x80 + y] + rest, eof, offset) == Bad(Problem(InvalidLength, offset, -1))
    ensures x == 0 && y < 32 ==>
              NextUtf8([0xE0, 0x80 + y, 0x80 + z] + rest, eof, offset) == Bad(Problem(InvalidLength, offset, -1))
    ensures x == 0xD && y >= 32 ==>
              NextUtf8([0xE0 + x, 0x80 + y, 0x80 + z] + rest, eof, offset)
              == Bad(Problem(InvalidUnicode, offset, 0xD000 + y * 64 + z))
    ensures x == 0 && y < 16 ==>
              NextUtf8([0xF0, 0x80 + y, 0x80 + z, 0x80 + u] + rest, eof, offset)
              == Bad(Problem(InvalidLength, offset, -1))
    ensures 4 <= x < 8 && (x > 4 || y >= 16) ==>
              NextUtf8([0xF0 + x, 0x80 + y, 0x80 + z, 0x80 + u] + rest, eof, offset)
              == Bad(Problem(InvalidUnicode, offset, ((x * 64 + y) * 64 + z) * 64 + u))
  {
    hide NextUtf8;
    if 0 <= x < 2 { Sequence2([0xC0 + x, 0x80 + y] + rest, x, y, eof, offset); }
    if x == 0 || x == 0xD { Sequence3([0xE0 + x, 0x80 + y, 0x80 + z] + rest, x, y, z, eof, offset); }
    if 0 <= x < 8 { Sequence4([0xF0 + x, 0x80 + y, 0x80 + z, 0x80 + u] + rest, x, y, z, u, eof, offset); }
  }

  /** A byte that starts nothing, and one that does not continue a sequence, are refused where they
      are. */
  lemma StrayRefused(a: byte, b: byte, rest: Text, eof: bool, offset: int)
    ensures 0x80 <= a < 0xC0 || a >= 0xF8 ==>
              NextUtf8([a] + rest, eof, offset) == Bad(Problem(InvalidLeading, offset, a))
    ensures 0xC0 <= a < 0xE0 && !(0x80 <= b < 0xC0) ==>
              NextUtf8([a, b] + rest, eof, offset) == Bad(Problem(InvalidTrailing, offset + 1, b))
    ensures 0xC0 <= a < 0xF8 ==>
              && NextUtf8([a], true, offset) == Bad(Problem(IncompleteSequence, offset, -1))
              && NextUtf8([a], false, offset).Need?
  {}

  /** In UTF-16 a low surrogate comes only behind a high one, which needs one. */
  lemma Utf16Refused(u: int, v: int, le: bool, rest: Text, eof: bool, offset: int)
    requires 0 <= u < 0x10000 && 0 <= v < 0x10000
    ensures var b := UnitBytes(u, le) + UnitBytes(v, le) + rest;
            && (0xDC00 <= u < 0xE000 ==> NextUtf16(b, le, eof, offset) == Bad(Problem(UnexpectedLow, offset, u)))
            && (0xD800 <= u < 0xDC00 && !(0xDC00 <= v < 0xE000) ==>
                  NextUtf16(b, le, eof, offset) == Bad(Problem(ExpectedLow, offset + 2, v)))
    ensures 0xD800 <= u < 0xDC00 ==>
              NextUtf16(UnitBytes(u, le), le, true, offset) == Bad(Problem(IncompletePair, offset, -1))
  {
    var b := UnitBytes(u, le) + UnitBytes(v, le) + rest;
    UnitForth(u, le, [], UnitBytes(v, le) + rest);
    assert [] + UnitBytes(u, le) + (UnitBytes(v, le) + rest) == b;
    UnitForth(v, le, UnitBytes(u, le), rest);
    UnitForth(u, le, [], []);
    assert [] + UnitBytes(u, le) + [] == UnitBytes(u, le);
  }

  /** The problem named is the first one: that of what stands behind the characters read so far. */
  lemma {:induction false} ProblemForth(enc: Encoding, cs: seq<Scalar>, rest: Text, offset: int)
    requires !enc.AnyEncoding? && AllAllowed(cs) && rest != []
    requires NextChar(enc, rest, true, offset + |EncodeAll(enc, cs)|).Bad?
    ensures Decoded(enc, EncodeAll(enc, cs) + rest, offset)
         == Malformed(cs, NextChar(enc, rest, true, offset + |EncodeAll(enc, cs)|).problem)
  {
    hide NextChar, EncodeAs;
    if cs == [] {
      assert EncodeAll(enc, cs) + rest == rest;
    } else {
      var one, more := EncodeAs(enc, cs[0]), EncodeAll(enc, cs[1..]);
      var b := one + (more + rest);
      NextForth(enc, cs[0], more + rest, true, offset);
      WidthFits(enc, b, true, offset);
      assert b[|one|..] == more + rest;
      assert EncodeAll(enc, cs) + rest == b;
      ProblemForth(enc, cs[1..], rest, offset + |one|);
      assert [cs[0]] + cs[1..] == cs;
    }
  }

  lemma TailSplit(b: Text, w: nat, k: nat)
    requires w + k <= |b|
    ensures b[..w + k] == b[..w] + b[w..][..k] && b[w + k..] == b[w..][k..]
  {}

  lemma {:induction false} ProblemBack(enc: Encoding, b: Text, offset: int)
    requires !enc.AnyEncoding? && Decoded(enc, b, offset).Malformed?
    ensures var d := Decoded(enc, b, offset);
            var n := |EncodeAll(enc, d.chars)|;
            && AllAllowed(d.chars) && n < |b| && b[..n] == EncodeAll(enc, d.chars)
            && NextChar(enc, b[n..], true, offset + n) == Bad(d.problem)
    decreases |b|
  {
    hide NextChar, EncodeAs, Allowed;
    var n := NextChar(enc, b, true, offset);
    WidthFits(enc, b, true, offset);
    if n.Bad? {
      assert b[0..] == b && b[..0] == [];
    } else {
      NextBack(enc, b, true, offset);
      var tail := b[n.width..];
      ProblemBack(enc, tail, offset + n.width);
      var cs, rest := Decoded(enc, b, offset).chars, Decoded(enc, tail, offset + n.width).chars;
      assert cs == [n.value] + rest && cs[1..] == rest;
      hide Decoded;
      TailSplit(b, n.width, |EncodeAll(enc, rest)|);
    }
  }

  /** More bytes do not change what has been decided. */
  lemma NextStays(enc: Encoding, b: Text, more: Text, eof: bool, offset: int)
    requires b != [] && !enc.AnyEncoding? && !NextChar(enc, b, false, offset).Need?
    ensures b + more != [] && NextChar(enc, b + more, eof, offset) == NextChar(enc, b, false, offset)
  {
    if enc.Utf8Encoding? && 0 < Width(b[0]) <= |b| {
      TrailingStays(b, more, 1, Width(b[0]), LeadBits(b[0]), offset);
    }
  }

  lemma {:induction false} TrailingStays(b: Text, more: Text, k: nat, width: nat, value: int, offset: int)
    requires width <= |b| && k <= width
    ensures Trailing(b + more, k, width, value, offset) == Trailing(b, k, width, value, offset)
    decreases width - k
  {
    hide Checked;
    if k == width {
    } else {
      TrailingStays(b, more, k + 1, width, value * 64 + b[k] % 64, offset);
    }
  }

  lemma NextSize(enc: Encoding, b: Text, eof: bool, offset: int)
    requires b != [] && !enc.AnyEncoding? && NextChar(enc, b, eof, offset).Char?
    ensures var n := NextChar(enc, b, eof, offset); 2 * |Encode(n.value)| <= 3 * n.width
  {
    hide NextChar;
    NextBack(enc, b, eof, offset);
    var n := NextChar(enc, b, eof, offset);
    assert |b[..n.width]| == n.width;
  }

  lemma {:induction false} Utf8Length(cs: seq<Scalar>)
    ensures |cs| <= |Utf8(cs)| <= 4 * |cs|
  {
    if cs == [] {
    } else {
      Utf8Length(cs[1..]);
    }
  }

  lemma Utf8Snoc(cs: seq<Scalar>, c: Scalar)
    ensures Utf8(cs + [c]) == Utf8(cs) + Encode(c)
  {
    hide Encode, Utf8;
    Utf8Concat(cs, [c]);
    Utf8One(c);
  }

  // ---------------------------------------------------------------------------------------------
  // The read handler

  datatype Signal = More | Eof | Fault

  datatype Chunk = Chunk(data: Text, signal: Signal)

  /** The bytes that the handler still has to give. */
  function Remaining(script: seq<Chunk>): Text {
    if script == [] then []
    else if script[0].signal.More? then script[0].data + Remaining(script[1..])
    else script[0].data
  }

  /** Whether the handler will fail before the end of the input. */
  predicate Faulty(script: seq<Chunk>) {
    script != [] && (script[0].signal.Fault? || (script[0].signal.More? && Faulty(script[1..])))
  }

  function Effort(script: seq<Chunk>): nat {
    if script == [] then 0 else |script[0].data| + 1 + Effort(script[1..])
  }

  function Zeros(n: nat): Text { seq(n, i => 0) }

  const RAW_SIZE := 512
  const BUFFER_SIZE := 1536

  class Reader {
    const raw: array<byte>
    const buffer: array<byte>
    var rawLen: nat
    var rawPos: nat
    var len: nat
    var pos: nat
    var unread: nat
    var offset: nat
    var eof: bool
    var encoding: Encoding
    var script: seq<Chunk>
    var problem: Option<Problem>
    ghost const input: Text
    ghost var out: seq<Scalar>
    ghost var shown: nat
    ghost var nuls: nat
    ghost var zeros: nat

    ghost predicate Sized()
      reads this
    {
      && raw.Length == RAW_SIZE && buffer.Length == BUFFER_SIZE && raw != buffer
      && rawPos <= rawLen <= RAW_SIZE && pos <= len <= BUFFER_SIZE
    }

    ghost function Rest(): Text
      requires Sized()
      reads this, raw
    {
      raw[rawPos..rawLen] + if eof then [] else Remaining(script)
    }

    /** How much reading there is to do. */
    ghost function Left(): nat
      reads this
    {
      if eof then 0 else Effort(script) + 1
    }

    /** The handler's error is still to come. */
    ghost predicate Doomed()
      reads this
    {
      !eof && Faulty(script)
    }

    /** What is in the buffer and in the raw buffer, and what the handler has left, make up the input. */
    ghost predicate Faithful()
      requires Sized()
      reads this, raw
    {
      if encoding.AnyEncoding? then Rest() == input && offset == 0 && out == [] && zeros == 0
      else encoding == Sniff(input).0 && Transcoded(input) == Prepend(out, Decoded(encoding, Rest(), offset))
    }

    /** The buffer holds the characters that have not been skipped, and NULs behind the last one. */
    ghost predicate Buffered()
      requires Sized()
      reads this, buffer
    {
      && shown <= |out| && unread == |out| - shown + nuls
      && buffer[pos..len] == Utf8(out[shown..]) + Zeros(zeros)
      && nuls <= zeros <= nuls + 8
      && (zeros > 0 ==> eof && rawPos == rawLen)
    }

    ghost predicate Valid()
      reads this, raw, buffer
    {
      Sized() && Faithful() && Buffered()
    }

    constructor (script: seq<Chunk>)
      ensures Valid() && fresh(raw) && fresh(buffer) && input == Remaining(script) && problem.None?
      ensures out == [] && shown == 0 && Doomed() == Faulty(script)
    {
      raw := new byte[RAW_SIZE];
      buffer := new byte[BUFFER_SIZE];
      rawLen, rawPos, len, pos, unread, offset := 0, 0, 0, 0, 0, 0;
      eof, encoding, this.script, problem := false, AnyEncoding, script, None;
      input, out, shown, nuls, zeros := Remaining(script), [], 0, 0, 0;
    }

    /** Answers with as much of the next chunk as there is room for. */
    method Read(room: nat) returns (data: Text, signal: Signal)
      requires room > 0
      modifies this`script
      ensures |data| <= room
      ensures signal.More? ==>
                && Remaining(old(script)) == data + Remaining(script)
                && Faulty(old(script)) == Faulty(script) && Effort(script) < Effort(old(script))
      ensures !signal.More? ==> Remaining(old(script)) == data && Faulty(old(script)) == signal.Fault?
    {
      if script == [] {
        return [], Eof;
      }
      var chunk := script[0];
      if |chunk.data| <= room {
        script := script[1..];
        return chunk.data, chunk.signal;
      }
      var part := chunk.(data := chunk.data[room..]);
      script := [part] + script[1..];
      assert script[1..] == old(script)[1..];
      assert chunk.data == chunk.data[..room] + part.data;
      return chunk.data[..room], More;
    }

    /** Moves what is left in the raw buffer to its front. */
    method ShiftRaw()
      requires Sized()
      modifies this`rawLen, this`rawPos, raw
      ensures Sized() && rawPos == 0 && raw[..rawLen] == old(raw[rawPos..rawLen])
    {
      if rawPos > 0 && rawPos < rawLen {
        forall i | 0 <= i < rawLen - rawPos {
          raw[i] := raw[rawPos + i];
        }
      }
      rawLen, rawPos := rawLen - rawPos, 0;
    }

    /** Reads more bytes behind those that are left. */
    method UpdateRawBuffer() returns (ok: bool)
      requires Sized()
      modifies this`rawLen, this`rawPos, this`eof, this`script, this`problem, raw
      ensures Sized()
      ensures ok ==> Rest() == old(Rest()) && Doomed() == old(Doomed()) && problem == old(problem)
      ensures ok && !old(eof) && old(rawLen - rawPos) < RAW_SIZE ==> Left() < old(Left())
      ensures old(eof) ==> ok && eof && rawPos == old(rawPos) && rawLen == old(rawLen)
      ensures !ok ==> old(Doomed()) && problem == Some(Problem(InputError, offset, -1))
    {
      hide Transcoded, Decoded, Sniff, Utf8, Prepend, Zeros, Faulty, Effort, Remaining;
      if rawPos == 0 && rawLen == raw.Length {
        return true;
      }
      if eof {
        return true;
      }
      ghost var held := raw[rawPos..rawLen];
      ShiftRaw();
      var data, signal := Read(raw.Length - rawLen);
      AppendRaw(data);
      Joined(held, data, Remaining(script));
      if signal.Eof? {
        eof := true;
      } else if signal.Fault? {
        problem := Some(Problem(InputError, offset, -1));
        return false;
      }
      return true;
    }

    method AppendRaw(data: Text)
      requires Sized() && rawLen + |data| <= RAW_SIZE
      modifies this`rawLen, raw
      ensures Sized() && raw[rawPos..rawLen] == old(raw[rawPos..rawLen]) + data
    {
      forall i | 0 <= i < |data| {
        raw[rawLen + i] := data[i];
      }
      rawLen := rawLen + |data|;
    }

    /** Looks for a byte order mark at the start of the input. */
    method DetermineEncoding() returns (ok: bool)
      requires Valid() && encoding.AnyEncoding?
      modifies this`rawLen, this`rawPos, this`eof, this`script, this`problem, this`encoding, this`offset, raw
      ensures ok ==> Valid() && !encoding.AnyEncoding? && Doomed() == old(Doomed()) && problem == old(problem)
      ensures !ok ==> old(Doomed()) && problem.Some? && problem.value.kind == InputError
    {
      hide Transcoded, Decoded, Sniff, Utf8, Remaining, Prepend, Zeros, Faulty, Effort;
      while !eof && rawLen - rawPos < 3
        invariant Sized() && Rest() == input && Doomed() == old(Doomed()) && problem == old(problem) && offset == 0
        decreases Left()
      {
        ok := UpdateRawBuffer();
        if !ok { return; }
      }
      PassMark();
      return true;
    }

    /** Settles on the encoding that the first bytes show and passes its mark. */
    method PassMark()
      requires Sized() && Rest() == input && offset == 0 && out == [] && (eof || rawLen - rawPos >= 3)
      modifies this`rawPos, this`encoding, this`offset
      ensures Sized() && Faithful() && !encoding.AnyEncoding?
    {
      hide Transcoded, Decoded, Sniff, Remaining, Prepend;
      Sniffed(raw[rawPos..rawLen], if eof then [] else Remaining(script));
      encoding, offset := SniffRaw();
      ghost var mark, b, more := offset, raw[rawPos..rawLen], if eof then [] else Remaining(script);
      assert raw[rawPos + mark..rawLen] == b[mark..];
      assert (b + more)[mark..] == b[mark..] + more;
      rawPos := rawPos + offset;
      Started(input, encoding, mark);
    }

    /** The encoding, and the length of its mark, that the first bytes of the raw buffer show. */
    method SniffRaw() returns (enc: Encoding, mark: nat)
      requires Sized()
      ensures (enc, mark) == Sniff(raw[rawPos..rawLen])
    {
      var avail := rawLen - rawPos;
      if avail >= 2 && raw[rawPos] == 0xFF && raw[rawPos + 1] == 0xFE {
        return Utf16Le, 2;
      } else if avail >= 2 && raw[rawPos] == 0xFE && raw[rawPos + 1] == 0xFF {
        return Utf16Be, 2;
      } else if avail >= 3 && raw[rawPos] == 0xEF && raw[rawPos + 1] == 0xBB && raw[rawPos + 2] == 0xBF {
        return Utf8Encoding, 3;
      }
      return Utf8Encoding, 0;
    }

    /** Decodes the UTF-8 sequence at the start of the raw buffer. */
    method DecodeUtf8() returns (next: Next)
      requires Sized() && rawPos < rawLen
      ensures next == NextUtf8(raw[rawPos..rawLen], eof, offset)
    {
      ghost var b := raw[rawPos..rawLen];
      var octet := raw[rawPos];
      var width := Width(octet);
      if width == 0 {
        return Bad(Problem(InvalidLeading, offset, octet));
      }
      if width > rawLen - rawPos {
        return if eof then Bad(Problem(IncompleteSequence, offset, -1)) else Need;
      }
      var value: int := LeadBits(octet);
      var k := 1;
      while k < width
        invariant 1 <= k <= width
        invariant Trailing(b, k, width, value, offset) == Trailing(b, 1, width, LeadBits(b[0]), offset)
      {
        octet := raw[rawPos + k];
        assert octet == b[k];
        if !IsTrailing(octet) {
          return Bad(Problem(InvalidTrailing, offset + k, octet));
        }
        value := value * 64 + octet % 64;
        k := k + 1;
      }
      return Checked(value, width, offset);
    }

    /** Decodes the UTF-16 character at the start of the raw buffer. */
    method DecodeUtf16() returns (next: Next)
      requires Sized() && rawPos < rawLen && (encoding.Utf16Le? || encoding.Utf16Be?)
      ensures next == NextUtf16(raw[rawPos..rawLen], encoding.Utf16Le?, eof, offset)
    {
      ghost var b := raw[rawPos..rawLen];
      var low, high := 1, 0;
      if encoding.Utf16Le? {
        low, high := 0, 1;
      }
      var available := rawLen - rawPos;
      if available < 2 {
        return if eof then Bad(Problem(IncompleteCharacter, offset, -1)) else Need;
      }
      var value := Paired(raw[rawPos + low], raw[rawPos + high]);
      assert value == Unit(b, 0, encoding.Utf16Le?);
      if LowSurrogate(value) {
        return Bad(Problem(UnexpectedLow, offset, value));
      }
      if HighSurrogate(value) {
        if available < 4 {
          return if eof then Bad(Problem(IncompletePair, offset, -1)) else Need;
        }
        var value2 := Paired(raw[rawPos + low + 2], raw[rawPos + high + 2]);
        assert value2 == Unit(b, 2, encoding.Utf16Le?);
        if !LowSurrogate(value2) {
          return Bad(Problem(ExpectedLow, offset + 2, value2));
        }
        return IfAllowed(0x10000 + (value % 1024) * 1024 + value2 % 1024, 4, offset);
      }
      return IfAllowed(value, 2, offset);
    }

    method Put(value: byte)
      requires Sized() && len < BUFFER_SIZE
      modifies this`len, buffer
      ensures Sized() && len == old(len) + 1 && buffer[pos..len] == old(buffer[pos..len]) + [value]
    {
      buffer[len] := value;
      len := len + 1;
    }

    method PutThree(a: byte, b: byte, c: byte)
      requires Sized() && len + 3 <= BUFFER_SIZE
      modifies this`len, buffer
      ensures Sized() && buffer[pos..len] == old(buffer[pos..len]) + [a, b, c]
    {
      ghost var held := buffer[pos..len];
      Put(a);
      Put(b);
      Put(c);
      assert held + [a] + [b] + [c] == held + [a, b, c];
    }

    /** Puts a character into the buffer. */
    method Store(value: Scalar)
      requires Sized() && len + 4 <= BUFFER_SIZE
      modifies this`len, buffer
      ensures Sized() && buffer[pos..len] == old(buffer[pos..len]) + Encode(value)
    {
      ghost var held := buffer[pos..len];
      ghost var e := Encode(value);
      if value <= 0x7F {
        Put(value);
      } else if value <= 0x7FF {
        Put(0xC0 + value / 64);
        Put(0x80 + value % 64);
        assert held + [e[0]] + [e[1]] == held + e;
      } else if value <= 0xFFFF {
        PutThree(0xE0 + value / 4096, 0x80 + (value / 64) % 64, 0x80 + value % 64);
      } else {
        Put(0xF0 + value / 262144);
        PutThree(0x80 + (value / 4096) % 64, 0x80 + (value / 64) % 64, 0x80 + value % 64);
        assert held + [e[0]] + [e[1], e[2], e[3]] == held + e;
      }
    }

    /** Decodes one character, or says why there is none. */
    method DecodeNext() returns (next: Next)
      requires Sized() && rawPos < rawLen && !encoding.AnyEncoding?
      ensures next == NextChar(encoding, raw[rawPos..rawLen], eof, offset)
    {
      if encoding.Utf8Encoding? {
        next := DecodeUtf8();
      } else {
        next := DecodeUtf16();
      }
    }

    /** Moves one character from the raw buffer to the buffer. */
    method TakeChar(value: Scalar, width: nat)
      requires Valid() && rawPos < rawLen && !encoding.AnyEncoding?
      requires NextChar(encoding, raw[rawPos..rawLen], eof, offset) == Char(value, width)
      requires 2 * len + 3 * (rawLen - rawPos) <= 2000
      modifies this`rawPos, this`offset, this`len, this`unread, this`out, buffer
      ensures Valid() && rawPos == old(rawPos) + width && width > 0 && out == old(out) + [value]
      ensures 2 * len + 3 * (rawLen - rawPos) <= old(2 * len + 3 * (rawLen - rawPos))
    {
      hide NextChar, Decoded, Transcoded, Encode, Utf8, Sniff, Remaining, Prepend, Zeros;
      ghost var b := raw[rawPos..rawLen];
      ghost var more: Text := if eof then [] else Remaining(script);
      WidthFits(encoding, b, eof, offset);
      NextSize(encoding, b, eof, offset);
      DecodeStep(encoding, b, more, eof, offset, out);
      assert raw[rawPos + width..rawLen] == b[width..];
      rawPos := rawPos + width;
      offset := offset + width;
      Store(value);
      unread := unread + 1;
      HeldMore(out[shown..], value);
      out := out + [value];
      assert out[shown..] == old(out)[shown..] + [value];
    }

    /** Decodes all the complete characters of the raw buffer. */
    method DecodeRaw() returns (ok: bool)
      requires Valid() && !encoding.AnyEncoding? && 2 * len + 3 * (rawLen - rawPos) <= 2000
      modifies this`rawPos, this`offset, this`len, this`unread, this`out, this`problem, buffer
      ensures ok ==> Valid() && rawLen - rawPos < 4 && (eof ==> rawPos == rawLen) && problem == old(problem)
      ensures old(out) <= out && unread >= old(unread)
      ensures ok ==> 2 * len <= 2000
      ensures !ok ==> problem.Some? && Transcoded(input) == Malformed(out, problem.value)
    {
      hide NextChar, Decoded, Transcoded, Encode, Utf8, Sniff;
      while rawPos != rawLen
        invariant Valid() && 2 * len + 3 * (rawLen - rawPos) <= 2000 && problem == old(problem)
        invariant old(out) <= out && unread >= old(unread)
        decreases rawLen - rawPos
      {
        var next := DecodeNext();
        ghost var b := raw[rawPos..rawLen];
        WidthFits(encoding, b, eof, offset);
        match next {
          case Char(value, width) => TakeChar(value, width);
          case Bad(p) =>
            DecodeStep(encoding, b, if eof then [] else Remaining(script), eof, offset, out);
            problem := Some(p);
            return false;
          case Need => return true;
        }
      }
      return true;
    }

    /** Moves the unread characters to the front of the buffer. */
    method ShiftUnread()
      requires Valid()
      modifies this`len, this`pos, buffer
      ensures Valid() && pos == 0
    {
      hide Decoded, Transcoded, Utf8, Sniff, Zeros, Prepend, Remaining;
      ghost var rest := Rest();
      MoveFront();
      assert Rest() == rest;
    }

    method MoveFront()
      requires Sized()
      modifies this`len, this`pos, buffer
      ensures Sized() && pos == 0 && buffer[pos..len] == old(buffer[pos..len])
    {
      ghost var held := buffer[pos..len];
      if pos > 0 && pos < len {
        forall i | 0 <= i < len - pos {
          buffer[i] := buffer[pos + i];
        }
        assert forall i | 0 <= i < |held| :: buffer[i] == held[i];
        len, pos := len - pos, 0;
      } else if pos == len {
        len, pos := 0, 0;
      }
    }

    /** Puts a NUL behind the last character; the scanner may count it as one. */
    method PutNul(counted: bool)
      requires Valid() && eof && rawPos == rawLen && !encoding.AnyEncoding? && len < BUFFER_SIZE
      requires counted || (pos == 0 && len < 8)
      modifies this`len, this`unread, this`nuls, this`zeros, buffer
      ensures Valid() && len == old(len) + 1
      ensures unread == old(unread) + if counted then 1 else 0
    {
      hide Decoded, Transcoded, Utf8, Sniff;
      Put(0);
      assert Zeros(zeros) + [0] == Zeros(zeros + 1);
      zeros := zeros + 1;
      if counted {
        unread := unread + 1;
        nuls := nuls + 1;
      }
    }

    /** Few unread characters take few bytes. */
    lemma Occupied()
      requires Valid()
      ensures unread <= len - pos <= 4 * unread + 8
    {
      hide Decoded, Transcoded, Utf8, Sniff;
      Utf8Length(out[shown..]);
      assert |buffer[pos..len]| == len - pos;
    }

    /** Whether every character of the input has been decoded. */
    ghost predicate Exhausted()
      requires Sized()
      reads this
    {
      eof && rawPos == rawLen && !encoding.AnyEncoding?
    }

    /** Decodes into the buffer until it has `length` characters or the input ends. */
    method FillBuffer(length: nat) returns (ok: bool)
      requires Valid() && length <= 8 && pos == 0 && !encoding.AnyEncoding?
      modifies this`rawLen, this`rawPos, this`eof, this`script, this`problem, this`offset, this`len, this`unread,
               this`out, this`nuls, this`zeros, raw, buffer
      ensures ok ==> Valid() && (unread >= length || (unread > 0 && Exhausted()))
      ensures ok ==> Doomed() == old(Doomed()) && problem == old(problem)
      ensures old(out) <= out
      ensures !ok ==> Explained(old(Doomed()))
    {
      hide Decoded, Transcoded, Utf8, Sniff, NextChar, Remaining, Faulty, Effort, Prepend, Zeros;
      var first := true;
      while unread < length
        invariant Valid() && (!first ==> rawLen - rawPos < 4 && !eof)
        invariant Doomed() == old(Doomed()) && problem == old(problem) && old(out) <= out
        decreases Left(), first
      {
        if !first || rawPos == rawLen {
          ok := UpdateRawBuffer();
          if !ok { return; }
        }
        first := false;
        Occupied();
        ok := DecodeRaw();
        if !ok {
          len := buffer.Length;
          return;
        }
        if eof {
          PutNul(true);
          break;
        }
      }
      return true;
    }

    /** The problem is the handler's, or the first one of the input. */
    ghost predicate Explained(doomed: bool)
      reads this
    {
      && problem.Some?
      && ((doomed && problem.value.kind == InputError) || Transcoded(input) == Malformed(out, problem.value))
    }

    /** Makes sure that the buffer holds `length` characters, or everything up to the end of the
        input and NULs behind it; in any case `length` bytes.  No write leaves the buffer. */
    method UpdateBuffer(length: nat) returns (ok: bool)
      requires Valid() && length <= 8
      modifies this, raw, buffer
      ensures ok ==> Valid() && len - pos >= length && (unread >= length || (unread > 0 && Exhausted()))
      ensures ok ==> Doomed() == old(Doomed()) && problem == old(problem)
      ensures shown == old(shown) && old(out) <= out
      ensures !ok ==> Explained(old(Doomed()))
    {
      hide Decoded, Transcoded, Utf8, Sniff, NextChar, Remaining, Faulty, Effort, Prepend, Zeros;
      if unread >= length {
        Occupied();
        return true;
      }
      if encoding.AnyEncoding? {
        ok := DetermineEncoding();
        if !ok { return; }
      }
      ShiftUnread();
      ok := FillBuffer(length);
      if !ok { return; }
      Occupied();
      while len < length
        invariant Valid() && pos == 0 && (len < length ==> Exhausted())
        invariant unread >= length || (unread > 0 && Exhausted())
        invariant Doomed() == old(Doomed()) && problem == old(problem) && shown == old(shown) && old(out) <= out
        decreases length - len
      {
        PutNul(false);
      }
    }

    /** The character that the scanner is looking at. */
    lemma Facing()
      requires Valid() && unread > 0
      ensures pos < len <= buffer.Length && shown <= |out| && (buffer[pos] == 0 <==> shown == |out|)
      ensures shown < |out| ==>
                && pos + Width(buffer[pos]) <= len
                && buffer[pos..pos + Width(buffer[pos])] == Encode(out[shown])
      ensures shown == |out| ==> Exhausted() && Transcoded(input) == Complete(out)
    {
      hide Decoded, Transcoded, Sniff, Encode, Utf8, Zeros, Prepend, Remaining;
      var cs, held := out[shown..], buffer[pos..len];
      if !encoding.AnyEncoding? {
        PrependPrefix(out, Decoded(encoding, Rest(), offset));
        TranscodedAllowed(input);
        assert forall i | 0 <= i < |cs| :: cs[i] == out[shown + i] == Transcoded(input).chars[shown + i];
      }
      FirstByte(cs, zeros);
      assert held[0] == buffer[pos];
      if shown < |out| {
        HeldFirst(held, cs, zeros);
        assert held[..Width(held[0])] == buffer[pos..pos + Width(buffer[pos])];
      } else {
        assert Rest() == [];
        AllDecoded(encoding, out, offset);
      }
    }

    lemma OutIsPrefix()
      requires Valid()
      ensures out <= Transcoded(input).chars
    {
      hide Decoded, Transcoded, Sniff, Prepend, Remaining;
      if !encoding.AnyEncoding? { PrependPrefix(out, Decoded(encoding, Rest(), offset)); }
    }

    /** Skips one character. */
    method Skip()
      requires Valid() && unread > 0
      modifies this`pos, this`unread, this`shown, this`nuls, this`zeros
      ensures Valid() && unread == old(unread) - 1
      ensures if old(shown) < |out| then shown == old(shown) + 1 else shown == old(shown)
    {
      hide Decoded, Transcoded, Sniff, Encode, Utf8, Zeros, Prepend, Remaining, Width;
      ghost var held := buffer[pos..len];
      HeldSplit(held, out[shown..], zeros);
      assert held[0] == buffer[pos];
      ghost var width := Width(buffer[pos]);
      assert buffer[pos + width..len] == held[width..];
      assert out[shown..] == [] <==> shown == |out|;
      if shown < |out| {
        assert out[shown..][1..] == out[shown + 1..];
        shown := shown + 1;
      } else {
        nuls, zeros := nuls - 1, zeros - 1;
      }
      pos := pos + Width(buffer[pos]);
      unread := unread - 1;
    }
  }

  /** The first character of what the buffer holds. */
  lemma HeldSplit(held: Text, cs: seq<Scalar>, zeros: nat)
    requires held == Utf8(cs) + Zeros(zeros) && (cs != [] || zeros > 0)
    ensures held != []
    ensures cs != [] ==> 1 <= Width(held[0]) <= |held| && held[Width(held[0])..] == Utf8(cs[1..]) + Zeros(zeros)
    ensures cs == [] ==> held[0] == 0 && Width(held[0]) == 1 && held[1..] == Utf8([]) + Zeros(zeros - 1)
  {
    if cs != [] {
      var e := Encode(cs[0]);
      assert held == e + (Utf8(cs[1..]) + Zeros(zeros));
      assert held[0] == e[0];
    }
  }

  lemma HeldMore(cs: seq<Scalar>, c: Scalar)
    ensures Utf8(cs) + Zeros(0) + Encode(c) == Utf8(cs + [c]) + Zeros(0)
  {
    hide Utf8, Encode;
    Utf8Snoc(cs, c);
    assert Zeros(0) == [];
  }

  lemma PrependPrefix(out: seq<Scalar>, d: Decoding)
    ensures out <= Prepend(out, d).chars
  {}

  /** At the end of the input everything has been decoded. */
  lemma AllDecoded(enc: Encoding, out: seq<Scalar>, offset: int)
    requires !enc.AnyEncoding?
    ensures Prepend(out, Decoded(enc, [], offset)) == Complete(out)
  {
    assert out + [] == out;
  }

  lemma FirstByte(cs: seq<Scalar>, zeros: nat)
    requires AllAllowed(cs) && (cs != [] || zeros > 0)
    ensures var held := Utf8(cs) + Zeros(zeros); held != [] && (held[0] == 0 <==> cs == [])
  {
    if cs != [] {
      var e := Encode(cs[0]);
      assert (Utf8(cs) + Zeros(zeros))[0] == e[0];
    }
  }

  lemma {:induction false} DecodedAllowed(enc: Encoding, b: Text, offset: int)
    requires !enc.AnyEncoding?
    ensures AllAllowed(Decoded(enc, b, offset).chars)
    decreases |b|
  {
    hide NextChar;
    if b != [] && NextChar(enc, b, true, offset).Char? {
      var n := NextChar(enc, b, true, offset);
      WidthFits(enc, b, true, offset);
      NextBack(enc, b, true, offset);
      DecodedAllowed(enc, b[n.width..], offset + n.width);
    }
  }

  lemma TranscodedAllowed(input: Text)
    ensures AllAllowed(Transcoded(input).chars)
  {
    hide Decoded;
    var (enc, mark) := Sniff(input);
    DecodedAllowed(enc, input[mark..], mark);
  }

  lemma HeldFirst(held: Text, cs: seq<Scalar>, zeros: nat)
    requires held == Utf8(cs) + Zeros(zeros) && cs != []
    ensures held != [] && Width(held[0]) <= |held| && held[..Width(held[0])] == Encode(cs[0])
  {
    var e := Encode(cs[0]);
    assert held == e + (Utf8(cs[1..]) + Zeros(zeros));
    assert held[0] == e[0];
  }

  lemma Utf8Prefix(a: seq<Scalar>, b: seq<Scalar>)
    requires a <= b
    ensures Utf8(a) <= Utf8(b)
  {
    hide Utf8;
    assert b == a + b[|a|..];
    Utf8Concat(a, b[|a|..]);
  }

  /** Reads everything, asking for any number of characters up to eight at a time.  However the
      handler splits the input, the bytes that the scanner sees are the UTF-8 encoding of its
      characters, and it is refused with the first problem that it has, exactly if it has one. */
  method ReadAll(script: seq<Chunk>, requests: seq<nat>) returns (text: Text, problem: Option<Problem>)
    ensures !Faulty(script) ==>
              match Transcoded(Remaining(script))
              case Complete(chars) => problem.None? && text == Utf8(chars)
              case Malformed(chars, p) => problem == Some(p) && text <= Utf8(chars)
    ensures Faulty(script) ==> problem.Some? && text <= Utf8(Transcoded(Remaining(script)).chars)
    ensures !Faulty(script) ==>
              forall cs | AllAllowed(cs) && Represents(Remaining(script), cs) :: problem.None? && text == Utf8(cs)
    ensures !Faulty(script) && problem.None? ==>
              exists cs :: AllAllowed(cs) && Represents(Remaining(script), cs) && text == Utf8(cs)
  {
    hide Decoded, Transcoded, Sniff, Encode, Utf8, Zeros, Remaining, Faulty, Prepend, Width, Reader.Valid,
         Represents, AllAllowed;
    var reader := new Reader(script);
    ghost var all := Transcoded(reader.input).chars;
    text, problem := [], None;
    var turn := 0;
    NoText();
    while true
      invariant fresh(reader) && fresh(reader.raw) && fresh(reader.buffer)
      invariant reader.Valid() && reader.input == Remaining(script) && reader.problem.None?
      invariant reader.Doomed() == Faulty(script)
      invariant reader.shown <= |all| && text == Utf8(all[..reader.shown])
      decreases |all| - reader.shown
    {
      var length := 1;
      if turn < |requests| && 1 <= requests[turn] <= 8 {
        length := requests[turn];
        turn := turn + 1;
      }
      var ok := reader.UpdateBuffer(length);
      Utf8Prefix(all[..reader.shown], all);
      if !ok {
        ReadMeans(script, text, reader.problem);
        return text, reader.problem;
      }
      reader.Facing();
      var octet := reader.buffer[reader.pos];
      if octet == 0 {
        assert all[..|all|] == all;
        ReadMeans(script, text, None);
        return text, None;
      }
      reader.OutIsPrefix();
      Utf8Snoc(all[..reader.shown], all[reader.shown]);
      assert all[..reader.shown] + [all[reader.shown]] == all[..reader.shown + 1];
      text := text + reader.buffer[reader.pos..reader.pos + Width(octet)];
      reader.Skip();
    }
  }

  lemma ReadMeans(script: seq<Chunk>, text: Text, problem: Option<Problem>)
    requires !Faulty(script) ==>
               match Transcoded(Remaining(script))
               case Complete(chars) => problem.None? && text == Utf8(chars)
               case Malformed(chars, p) => problem == Some(p) && text <= Utf8(chars)
    ensures !Faulty(script) ==>
              forall cs | AllAllowed(cs) && Represents(Remaining(script), cs) :: problem.None? && text == Utf8(cs)
    ensures !Faulty(script) && problem.None? ==>
              exists cs :: AllAllowed(cs) && Represents(Remaining(script), cs) && text == Utf8(cs)
  {
    hide Transcoded, Utf8, Remaining, Faulty, Represents, AllAllowed;
    var input := Remaining(script);
    forall cs | AllAllowed(cs) && Represents(input, cs)
      ensures Transcoded(input) == Complete(cs)
    {
      TranscodedExactly(input, cs);
    }
    if Transcoded(input).Complete? { TranscodedExactly(input, Transcoded(input).chars); }
  }

  lemma NoText()
    ensures Utf8([]) == []
  {}

  /** One step of decoding, at the end of the input or with `more` to come. */
  lemma DecodeStep(enc: Encoding, b: Text, more: Text, eof: bool, offset: int, out: seq<Scalar>)
    requires b != [] && !enc.AnyEncoding? && (eof ==> more == []) && !NextChar(enc, b, eof, offset).Need?
    ensures var n := NextChar(enc, b, eof, offset);
            && (n.Char? ==>
                  && n.width <= |b|
                  && Prepend(out, Decoded(enc, b + more, offset))
                     == Prepend(out + [n.value], Decoded(enc, b[n.width..] + more, offset + n.width)))
            && (n.Bad? ==> Prepend(out, Decoded(enc, b + more, offset)) == Malformed(out, n.problem))
  {
    hide NextChar;
    var n := NextChar(enc, b, eof, offset);
    WidthFits(enc, b, eof, offset);
    if eof {
      assert b + more == b;
    } else {
      NextStays(enc, b, more, true, offset);
    }
    if n.Char? {
      assert (b + more)[n.width..] == b[n.width..] + more;
      var d := Decoded(enc, b[n.width..] + more, offset + n.width);
      assert out + ([n.value] + d.chars) == (out + [n.value]) + d.chars;
    } else {
      assert out + [] == out;
    }
  }

  /** The first three bytes, or all there are, decide. */
  lemma Joined(held: Text, data: Text, more: Text)
    ensures held + (data + more) == (held + data) + more && held + data + [] == held + data
  {}

  lemma Sniffed(b: Text, more: Text)
    requires |b| >= 3 || more == []
    ensures Sniff(b + more) == Sniff(b) && Sniff(b).1 <= |b|
  {
    if more == [] { assert b + more == b; }
  }

  lemma Started(input: Text, enc: Encoding, mark: nat)
    requires (enc, mark) == Sniff(input) && mark <= |input|
    ensures !enc.AnyEncoding? && Transcoded(input) == Prepend([], Decoded(enc, input[mark..], mark))
  {
    hide Decoded;
    var d := Decoded(enc, input[mark..], mark);
    assert [] + d.chars == d.chars;
  }
}
