/**
 Bytes, Unicode scalar values and the character classes that the reader, the scanner and the emitter
 share.

 The classes look at the bytes of a buffer from a position on.  The scanner's buffer is padded with
 NUL bytes at the end of the input, so a byte past the end reads as zero.  Bit masks are written as
 ranges, quotients and remainders.
 */
module YamlBytes {

  import opened Bytes

  /** A Unicode scalar value: a code point that is not a surrogate. */
  type Scalar = c: int | 0 <= c <= 0xD7FF || 0xE000 <= c <= 0x10FFFF

  function At(b: Text, i: nat): byte {
    if i < |b| then b[i] else 0
  }

  // ---------------------------------------------------------------------------------------------
  // Character classes of a buffer position

  predicate IsZ(b: Text, i: nat) { At(b, i) == 0 }

  predicate IsSpace(b: Text, i: nat) { At(b, i) == 0x20 }

  predicate IsBlank(b: Text, i: nat) { At(b, i) == 0x20 || At(b, i) == 0x09 }

  predicate IsBreak(b: Text, i: nat) {
    || At(b, i) == 0x0D
    || At(b, i) == 0x0A
    || (At(b, i) == 0xC2 && At(b, i + 1) == 0x85)
    || (At(b, i) == 0xE2 && At(b, i + 1) == 0x80 && At(b, i + 2) == 0xA8)
    || (At(b, i) == 0xE2 && At(b, i + 1) == 0x80 && At(b, i + 2) == 0xA9)
  }

  predicate IsBlankz(b: Text, i: nat) { IsBlank(b, i) || IsBreak(b, i) || IsZ(b, i) }

  predicate IsAscii(b: Text, i: nat) { At(b, i) <= 0x7F }

  predicate IsPrintable(b: Text, i: nat) {
    || At(b, i) == 0x0A
    || 0x20 <= At(b, i) <= 0x7E
    || (At(b, i) == 0xC2 && At(b, i + 1) >= 0xA0)
    || 0xC2 < At(b, i) < 0xED
    || (At(b, i) == 0xED && At(b, i + 1) < 0xA0)
    || At(b, i) == 0xEE
    || (&& At(b, i) == 0xEF
        && !(At(b, i + 1) == 0xBB && At(b, i + 2) == 0xBF)
        && !(At(b, i + 1) == 0xBF && (At(b, i + 2) == 0xBE || At(b, i + 2) == 0xBF)))
  }

  /** Looks at the start of the buffer whatever position it is asked about. */
  predicate IsBom(b: Text) { At(b, 0) == 0xEF && At(b, 1) == 0xBB && At(b, 2) == 0xBF }

  predicate IsHex(c: byte) { 0x30 <= c <= 0x39 || 0x41 <= c <= 0x46 || 0x61 <= c <= 0x66 }

  function AsHex(c: byte): int {
    if 0x41 <= c <= 0x46 then c - 0x41 + 10
    else if 0x61 <= c <= 0x66 then c - 0x61 + 10
    else c - 0x30
  }

  function Width(c: byte): nat {
    if c < 0x80 then 1
    else if 0xC0 <= c < 0xE0 then 2
    else if 0xE0 <= c < 0xF0 then 3
    else if 0xF0 <= c < 0xF8 then 4
    else 0
  }

  // ---------------------------------------------------------------------------------------------
  // UTF-8 (section 3 of RFC 3629)

  function Encode(c: Scalar): Text {
    if c <= 0x7F then [c]
    else if c <= 0x7FF then [0xC0 + c / 64, 0x80 + c % 64]
    else if c <= 0xFFFF then [0xE0 + c / 4096, 0x80 + (c / 64) % 64, 0x80 + c % 64]
    else [0xF0 + c / 262144, 0x80 + (c / 4096) % 64, 0x80 + (c / 64) % 64, 0x80 + c % 64]
  }

  function Utf8(cs: seq<Scalar>): Text {
    if cs == [] then [] else Encode(cs[0]) + Utf8(cs[1..])
  }

  lemma {:induction false} Utf8Concat(a: seq<Scalar>, b: seq<Scalar>)
    ensures Utf8(a + b) == Utf8(a) + Utf8(b)
  {
    hide Encode;
    if a == [] {
      assert a + b == b;
    } else {
      Utf8Concat(a[1..], b);
      assert (a + b)[1..] == a[1..] + b;
      assert Utf8(a + b) == Encode(a[0]) + (Utf8(a[1..]) + Utf8(b));
    }
  }

  lemma Utf8One(c: Scalar)
    ensures Utf8([c]) == Encode(c)
  {
    assert [c][1..] == [];
  }

  predicate BreakScalar(c: Scalar) {
    c == 0x0A || c == 0x0D || c == 0x85 || c == 0x2028 || c == 0x2029
  }

  predicate PrintableScalar(c: Scalar) {
    || c == 0x0A || 0x20 <= c <= 0x7E || 0xA0 <= c <= 0xD7FF
    || (0xE000 <= c <= 0xFFFD && c != 0xFEFF)
  }

  /** The buffer has the encoding of `c` at position `i`. */
  predicate Holds(b: Text, i: nat, c: Scalar) {
    i + |Encode(c)| <= |b| && b[i..i + |Encode(c)|] == Encode(c)
  }

  lemma HoldsAt(b: Text, i: nat, c: Scalar)
    requires Holds(b, i, c)
    ensures forall k | 0 <= k < |Encode(c)| :: At(b, i + k) == Encode(c)[k]
  {
    forall k | 0 <= k < |Encode(c)| ensures At(b, i + k) == Encode(c)[k] {
      assert b[i..i + |Encode(c)|][k] == b[i + k];
    }
  }

  /** On the encoding of a scalar value the byte classes agree with classes of scalar values. */
  lemma Classes(b: Text, i: nat, c: Scalar)
    requires Holds(b, i, c)
    ensures Width(At(b, i)) == |Encode(c)|
    ensures IsAscii(b, i) <==> c <= 0x7F
    ensures IsZ(b, i) <==> c == 0
    ensures IsSpace(b, i) <==> c == 0x20
    ensures IsBlank(b, i) <==> c == 0x20 || c == 0x09
    ensures IsBreak(b, i) <==> BreakScalar(c)
    ensures IsPrintable(b, i) <==> PrintableScalar(c)
    ensures At(b, i) <= 0x7F || c <= 0x7F ==> At(b, i) == c
  {
    HoldsAt(b, i, c);
    var e := Encode(c);
    assert At(b, i) == At(b, i + 0) == e[0];
    if |e| > 1 { assert At(b, i + 1) == e[1]; }
    if |e| > 2 { assert At(b, i + 2) == e[2]; }
  }
}
