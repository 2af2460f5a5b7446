/**
 The binary form of a tag map: a version byte, then for each tag that propagates without limit a type
 byte, the key and the value, each behind its length as a varint.
 */
module TagCodec {

  import opened Bytes

  /** The value of a tag, and whether it propagates without limit. */
  datatype Content = Content(value: Text, unlimited: bool)

  type TagMap = map<Text, Content>

  datatype Error = UnsupportedVersion | InvalidKeyType | UnexpectedEnd | Malformed | InvalidKeyName | InvalidValue

  datatype Result<T> = Ok(value: T) | Err(error: Error) | Panic

  const TWO_63 := 0x8000_0000_0000_0000
  const MAX_VARINT_LEN := 10

  // ---------------------------------------------------------------------------------------------
  // Varints

  function Varint(x: nat): Text {
    if x < 128 then [x] else [128 + x % 128] + Varint(x / 128)
  }

  function PowerOf128(n: nat): nat {
    if n == 0 then 1 else 128 * PowerOf128(n - 1)
  }

  lemma {:induction false} VarintLength(x: nat, n: nat)
    requires x < PowerOf128(n) && n > 0
    ensures 0 < |Varint(x)| <= n
  {
    if x < 128 {
    } else {
      VarintLength(x / 128, n - 1);
    }
  }

  lemma TenBytes()
    ensures PowerOf128(9) == TWO_63 && PowerOf128(10) == 128 * TWO_63
  {
    assert PowerOf128(3) == 0x20_0000;
    assert PowerOf128(6) == 0x20_0000 * PowerOf128(3);
    assert PowerOf128(9) == 0x20_0000 * PowerOf128(6);
  }

  /** A number read from a varint, and how many bytes it took; no bytes if the text ends early, and a
      negative number if the varint does not fit. */
  datatype Uvarint = Uvarint(value: nat, taken: int)

  function Shifted(x: nat, digit: nat, scale: nat): nat { x + digit * scale }

  /** Reads on at byte `i`, with `x` read so far and `scale` the weight of what comes next. */
  function ReadUvarint(b: Text, i: nat, x: nat, scale: nat): Uvarint
    requires i <= |b|
    decreases |b| - i
  {
    if i == |b| then Uvarint(0, 0)
    else if b[i] < 128 then
      if i >= MAX_VARINT_LEN || (i == MAX_VARINT_LEN - 1 && b[i] > 1) then Uvarint(0, -(i + 1))
      else Uvarint(Shifted(x, b[i], scale), i + 1)
    else ReadUvarint(b, i + 1, Shifted(x, b[i] % 128, scale), 128 * scale)
  }

  /** The varint from its byte `i` on, read after what came before it. */
  lemma {:induction false} VarintBack(before: Text, y: nat, rest: Text, x: nat, scale: nat)
    requires |before| <= 9 && y < 2 * PowerOf128(9 - |before|)
    ensures ReadUvarint(before + Varint(y) + rest, |before|, x, scale)
         == Uvarint(x + y * scale, |before| + |Varint(y)|)
    decreases y
  {
    var b := before + Varint(y) + rest;
    var i := |before|;
    assert i < |b|;
    if y < 128 {
      assert b[i] == y;
    } else {
      var first := 128 + y % 128;
      var more := Varint(y / 128);
      assert b[i] == first;
      assert b == (before + [first]) + more + rest;
      VarintBack(before + [first], y / 128, rest, x + (first % 128) * scale, 128 * scale);
      Digits(x, y, scale);
    }
  }

  lemma Digits(x: nat, y: nat, scale: nat)
    ensures x + (y % 128) * scale + (y / 128) * (128 * scale) == x + y * scale
  {
    var q, r := y / 128, y % 128;
    assert y == q * 128 + r;
    Distribute(q, r, scale);
  }

  lemma Distribute(q: nat, r: nat, scale: nat)
    ensures (q * 128 + r) * scale == q * (128 * scale) + r * scale
  {}

  /** A length of 64 bits is read back exactly, whatever follows it. */
  lemma LengthBack(n: nat, rest: Text)
    requires n < 2 * TWO_63
    ensures ReadUvarint(Varint(n) + rest, 0, 0, 1) == Uvarint(n, |Varint(n)|)
    ensures 0 < |Varint(n)| <= MAX_VARINT_LEN
  {
    TenBytes();
    VarintLength(n, 10);
    VarintBack([], n, rest, 0, 1);
    assert [] + Varint(n) + rest == Varint(n) + rest;
  }

  // ---------------------------------------------------------------------------------------------
  // Encoding and decoding on values

  predicate Printable(s: Text) {
    forall i | 0 <= i < |s| :: 32 <= s[i] <= 126
  }

  predicate ValidKey(s: Text) { 0 < |s| <= 255 && Printable(s) }

  predicate ValidValue(s: Text) { |s| <= 255 && Printable(s) }

  function Field(s: Text): Text { Varint(|s|) + s }

  function TagBytes(key: Text, value: Text): Text { [0] + Field(key) + Field(value) }

  /** The tags of a map in some order of its keys. */
  function TagsBytes(m: TagMap, order: seq<Text>): Text
    requires forall i | 0 <= i < |order| :: order[i] in m
  {
    if order == [] then []
    else
      var k := order[0];
      (if m[k].unlimited then TagBytes(k, m[k].value) else []) + TagsBytes(m, order[1..])
  }

  /** A field at position `i`: the text, and where it ends. */
  function ReadField(b: Text, i: nat): (r: Result<(Text, nat)>)
    ensures r.Ok? ==> i < r.value.1 <= |b|
  {
    if i >= |b| then Err(UnexpectedEnd)
    else
      var u := ReadUvarint(b[i..], 0, 0, 1);
      if u.taken <= 0 then Err(UnexpectedEnd)
      else
        var start := i + u.taken;
        var end := start + u.value;
        if end >= TWO_63 then Panic
        else if end > |b| then Err(Malformed)
        else Ok((b[start..end], end))
  }

  /** The tags from position `i` on, over those of `tags`. */
  function ReadTags(b: Text, i: nat, tags: map<Text, Text>): Result<map<Text, Text>>
    decreases |b| - i
  {
    if i >= |b| then Ok(tags)
    else if b[i] != 0 then Err(InvalidKeyType)
    else
      match ReadField(b, i + 1)
      case Err(e) => Err(e)
      case Panic => Panic
      case Ok((k, j)) =>
        match ReadField(b, j)
        case Err(e) => Err(e)
        case Panic => Panic
        case Ok((v, n)) =>
          if !ValidKey(k) then Err(InvalidKeyName)
          else if !ValidValue(v) then Err(InvalidValue)
          else ReadTags(b, n, tags[k := v])
  }

  function Decoded(b: Text): Result<map<Text, Text>> {
    if b == [] then Ok(map[])
    else if b[0] > 0 then Err(UnsupportedVersion)
    else ReadTags(b, 1, map[])
  }

  // ---------------------------------------------------------------------------------------------
  // The round trip

  lemma FieldBack(before: Text, s: Text, rest: Text)
    requires |before + Field(s) + rest| < TWO_63
    ensures ReadField(before + Field(s) + rest, |before|) == Ok((s, |before| + |Field(s)|))
  {
    hide Varint, ReadUvarint;
    var b := before + Field(s) + rest;
    var i := |before|;
    LengthBack(|s|, s + rest);
    assert b[i..] == Varint(|s|) + (s + rest);
    var start := i + |Varint(|s|)|;
    assert b[start..start + |s|] == s;
  }

  lemma TagBack(before: Text, key: Text, value: Text, rest: Text, tags: map<Text, Text>)
    requires |before + TagBytes(key, value) + rest| < TWO_63
    ensures ReadTags(before + TagBytes(key, value) + rest, |before|, tags)
         == if !ValidKey(key) then Err(InvalidKeyName)
            else if !ValidValue(value) then Err(InvalidValue)
            else ReadTags(before + TagBytes(key, value) + rest, |before + TagBytes(key, value)|, tags[key := value])
  {
    hide Field, ReadField, ValidKey, ValidValue;
    var b := before + TagBytes(key, value) + rest;
    var (f, g) := (Field(key), Field(value));
    assert b == (before + [0]) + f + (g + rest);
    assert b == (before + [0] + f) + g + rest;
    assert b[|before|] == 0;
    FieldBack(before + [0], key, g + rest);
    FieldBack(before + [0] + f, value, rest);
  }

  /** What decoding makes of the tags of a map, in their order. */
  function Received(m: TagMap, order: seq<Text>, tags: map<Text, Text>): Result<map<Text, Text>>
    requires forall i | 0 <= i < |order| :: order[i] in m
  {
    if order == [] then Ok(tags)
    else
      var k := order[0];
      if !m[k].unlimited then Received(m, order[1..], tags)
      else if !ValidKey(k) then Err(InvalidKeyName)
      else if !ValidValue(m[k].value) then Err(InvalidValue)
      else Received(m, order[1..], tags[k := m[k].value])
  }

  lemma {:induction false} TagsBack(before: Text, m: TagMap, order: seq<Text>, tags: map<Text, Text>)
    requires forall i | 0 <= i < |order| :: order[i] in m
    requires |before + TagsBytes(m, order)| < TWO_63
    ensures ReadTags(before + TagsBytes(m, order), |before|, tags) == Received(m, order, tags)
    decreases |order|
  {
    hide TagBytes, ValidKey, ValidValue;
    var b := before + TagsBytes(m, order);
    if order == [] {
    } else {
      var k, rest := order[0], TagsBytes(m, order[1..]);
      if m[k].unlimited {
        var one := TagBytes(k, m[k].value);
        assert b == before + one + rest;
        TagBack(before, k, m[k].value, rest, tags);
        if ValidKey(k) && ValidValue(m[k].value) {
          TagsBack(before + one, m, order[1..], tags[k := m[k].value]);
        }
      } else {
        assert b == before + rest;
        TagsBack(before, m, order[1..], tags);
      }
    }
  }

  predicate Enumerates(order: seq<Text>, m: TagMap) {
    && (forall i | 0 <= i < |order| :: order[i] in m)
    && (forall k | k in m :: k in order)
  }

  /** The part of a map that propagates. */
  function Unlimited(m: TagMap): map<Text, Text> {
    map k | k in m && m[k].unlimited :: m[k].value
  }

  predicate ValidTags(m: TagMap) {
    forall k | k in m && m[k].unlimited :: ValidKey(k) && ValidValue(m[k].value)
  }

  function Picked(m: TagMap, ks: seq<Text>): map<Text, Text>
    requires forall i | 0 <= i < |ks| :: ks[i] in m
  {
    map k | k in ks && m[k].unlimited :: m[k].value
  }

  lemma PickedStep(m: TagMap, order: seq<Text>, tags: map<Text, Text>)
    requires order != [] && forall i | 0 <= i < |order| :: order[i] in m
    ensures var k := order[0];
            var tags' := if m[k].unlimited then tags[k := m[k].value] else tags;
            tags' + Picked(m, order[1..]) == tags + Picked(m, order)
  {
    assert forall x :: x in order <==> x == order[0] || x in order[1..];
  }

  lemma {:induction false} ReceivedAll(m: TagMap, order: seq<Text>, tags: map<Text, Text>)
    requires forall i | 0 <= i < |order| :: order[i] in m
    ensures var r := Received(m, order, tags);
            if forall k | k in order && m[k].unlimited :: ValidKey(k) && ValidValue(m[k].value) then
              r == Ok(tags + Picked(m, order))
            else r.Err?
  {
    hide ValidKey, ValidValue;
    if order == [] {
      assert tags + Picked(m, order) == tags;
    } else {
      var k := order[0];
      var tags' := if m[k].unlimited then tags[k := m[k].value] else tags;
      ReceivedAll(m, order[1..], tags');
      assert forall x :: x in order <==> x == k || x in order[1..];
      PickedStep(m, order, tags);
    }
  }

  function Encoded(m: TagMap, order: seq<Text>): Text
    requires Enumerates(order, m)
  {
    [0] + TagsBytes(m, order)
  }

  /** A length below 128 is one byte, and one below 16384 is two, the lower seven bits first and marked. */
  lemma ShortLengths(n: nat)
    ensures n < 128 ==> Varint(n) == [n]
    ensures 128 <= n < 16_384 ==> Varint(n) == [128 + n % 128, n / 128]
  {
    if 128 <= n < 16_384 { assert Varint(n / 128) == [n / 128]; }
  }

  /** The bytes on the wire: the version, and for each tag its type, its key and its value, each of these
      behind its length. */
  lemma WireFormat(k: Text, v: Text)
    requires |k| < 128 && |v| < 128
    ensures var m := map[k := Content(v, true)];
            Enumerates([k], m) && Encoded(m, [k]) == [0, 0, |k|] + k + [|v|] + v
    ensures var m := map[k := Content(v, false)]; Enumerates([k], m) && Encoded(m, [k]) == [0]
  {
    ShortLengths(|k|);
    ShortLengths(|v|);
    hide Varint;
    assert [k][0] == k && [k][1..] == [];
    var (m, n) := (map[k := Content(v, true)], map[k := Content(v, false)]);
    assert TagsBytes(m, []) == [] && TagsBytes(n, []) == [];
    assert TagsBytes(m, [k]) == TagBytes(k, v) + [];
  }

  /** Keys and values are printable ASCII, of no more than 255 characters; a key has at least one. */
  lemma ValidExactly(s: Text)
    ensures ValidValue(s) <==> |s| < 256 && forall i | 0 <= i < |s| :: ' ' as int <= s[i] <= '~' as int
    ensures ValidKey(s) <==> s != [] && ValidValue(s)
  {}

  /** Decoding gives back just the tags that propagate, whatever the order in which the map was
      walked, exactly if their keys and values are valid; otherwise it fails. */
  lemma RoundTrip(m: TagMap, order: seq<Text>)
    requires Enumerates(order, m) && |Encoded(m, order)| < TWO_63
    ensures if ValidTags(m) then Decoded(Encoded(m, order)) == Ok(Unlimited(m)) else Decoded(Encoded(m, order)).Err?
  {
    hide ReadTags, TagsBytes, ValidKey, ValidValue;
    TagsBack([0], m, order, map[]);
    ReceivedAll(m, order, map[]);
    if ValidTags(m) {
      assert map[] + Picked(m, order) == Unlimited(m);
    }
  }

  // ---------------------------------------------------------------------------------------------
  // What decoding makes of any text

  function LengthAt(b: Text, i: nat): Uvarint
    requires i <= |b|
  {
    ReadUvarint(b[i..], 0, 0, 1)
  }

  /** The length at `i` takes the end of its field past what a signed 64-bit number can hold. */
  predicate Overlong(b: Text, i: nat) {
    i < |b| && LengthAt(b, i).taken > 0 && i + LengthAt(b, i).taken + LengthAt(b, i).value >= TWO_63
  }

  /** A field at `i` that lies within the text. */
  predicate FieldAt(b: Text, i: nat) {
    && i < |b| && LengthAt(b, i).taken > 0 && !Overlong(b, i)
    && i + LengthAt(b, i).taken + LengthAt(b, i).value <= |b|
  }

  function FieldEnd(b: Text, i: nat): nat
    requires FieldAt(b, i)
  {
    i + LengthAt(b, i).taken + LengthAt(b, i).value
  }

  function FieldText(b: Text, i: nat): Text
    requires FieldAt(b, i)
  {
    b[i + LengthAt(b, i).taken..FieldEnd(b, i)]
  }

  /** A whole tag at `i`. */
  predicate TagAt(b: Text, i: nat) {
    && i < |b| && b[i] == 0 && FieldAt(b, i + 1) && FieldAt(b, FieldEnd(b, i + 1))
    && ValidKey(FieldText(b, i + 1)) && ValidValue(FieldText(b, FieldEnd(b, i + 1)))
  }

  function TagEnd(b: Text, i: nat): nat
    requires TagAt(b, i)
  {
    FieldEnd(b, FieldEnd(b, i + 1))
  }

  /** The places in `at` are those of one tag after the other, up to a last place behind them. */
  predicate Chain(b: Text, at: seq<nat>) {
    at != [] && (|at| > 1 ==> TagAt(b, at[0]) && at[1] == TagEnd(b, at[0]) && Chain(b, at[1..]))
  }

  /** The tag at `i` has a key or a value of an overlong length. */
  predicate OverlongTag(b: Text, i: nat) {
    && i < |b| && b[i] == 0
    && (Overlong(b, i + 1) || (FieldAt(b, i + 1) && Overlong(b, FieldEnd(b, i + 1))))
  }

  lemma FieldMeans(b: Text, i: nat)
    ensures ReadField(b, i).Panic? <==> Overlong(b, i)
    ensures ReadField(b, i).Ok? <==> FieldAt(b, i)
    ensures FieldAt(b, i) ==> ReadField(b, i) == Ok((FieldText(b, i), FieldEnd(b, i)))
  {
    hide ReadUvarint;
  }

  /** One tag, its failure, or the end. */
  lemma TagMeans(b: Text, i: nat, tags: map<Text, Text>)
    ensures i >= |b| ==> ReadTags(b, i, tags) == Ok(tags)
    ensures TagAt(b, i) ==>
              var k, v := FieldText(b, i + 1), FieldText(b, FieldEnd(b, i + 1));
              i < TagEnd(b, i) <= |b| && ReadTags(b, i, tags) == ReadTags(b, TagEnd(b, i), tags[k := v])
    ensures i < |b| && !TagAt(b, i) ==>
              !ReadTags(b, i, tags).Ok? && (ReadTags(b, i, tags).Panic? <==> OverlongTag(b, i))
    ensures OverlongTag(b, i) ==> ReadTags(b, i, tags) == Panic
  {
    hide ReadField, ValidKey, ValidValue, LengthAt;
    FieldMeans(b, i + 1);
    if FieldAt(b, i + 1) {
      FieldMeans(b, FieldEnd(b, i + 1));
    }
  }

  lemma {:induction false} ChainRead(b: Text, at: seq<nat>, tags: map<Text, Text>)
    requires Chain(b, at)
    ensures var last := at[|at| - 1];
            && (OverlongTag(b, last) ==> ReadTags(b, at[0], tags) == Panic)
            && (last >= |b| ==> ReadTags(b, at[0], tags).Ok?)
    decreases |at|
  {
    hide ReadTags, TagAt, OverlongTag, TagEnd;
    TagMeans(b, at[0], tags);
    if |at| == 1 {
    } else {
      var k, v := FieldTexts(b, at[0]);
      ChainRead(b, at[1..], tags[k := v]);
    }
  }

  lemma FieldTexts(b: Text, i: nat) returns (k: Text, v: Text)
    ensures TagAt(b, i) ==> FieldAt(b, i + 1) && FieldAt(b, FieldEnd(b, i + 1))
    ensures TagAt(b, i) ==> k == FieldText(b, i + 1) && v == FieldText(b, FieldEnd(b, i + 1))
  {
    k, v := [], [];
    if TagAt(b, i) { k, v := FieldText(b, i + 1), FieldText(b, FieldEnd(b, i + 1)); }
  }

  /** Where reading comes to: the places of the tags, up to the end or to where it stops. */
  lemma {:induction false} ReadChain(b: Text, i: nat, tags: map<Text, Text>) returns (at: seq<nat>)
    ensures Chain(b, at) && at[0] == i
    ensures ReadTags(b, i, tags).Panic? ==> OverlongTag(b, at[|at| - 1])
    ensures ReadTags(b, i, tags).Ok? ==> at[|at| - 1] >= |b|
    ensures i <= |b| ==> at[|at| - 1] <= |b|
    decreases |b| - i
  {
    hide ReadTags, TagAt, OverlongTag, TagEnd;
    TagMeans(b, i, tags);
    at := [i];
    if TagAt(b, i) {
      var k, v := FieldTexts(b, i);
      var more := ReadChain(b, TagEnd(b, i), tags[k := v]);
      at := [i] + more;
      assert at[1..] == more;
    }
  }

  /** Decoding any text panics exactly if, behind a chain of whole tags, a tag has a key or a value
      whose length takes its end past what a signed 64-bit number can hold. */
  lemma PanicsExactly(b: Text)
    ensures Decoded(b) == Panic <==>
              b != [] && b[0] == 0 && exists at :: Chain(b, at) && at[0] == 1 && OverlongTag(b, at[|at| - 1])
  {
    hide ReadTags, OverlongTag, TagAt;
    if b != [] && b[0] == 0 {
      var at := ReadChain(b, 1, map[]);
      forall at | Chain(b, at) && at[0] == 1 && OverlongTag(b, at[|at| - 1])
        ensures Decoded(b) == Panic
      {
        ChainRead(b, at, map[]);
      }
    }
  }

  /** And it succeeds exactly if the text is such a chain of whole tags, up to its end. */
  lemma SucceedsExactly(b: Text)
    ensures Decoded(b).Ok? <==>
              b == [] || (b[0] == 0 && exists at :: Chain(b, at) && at[0] == 1 && at[|at| - 1] == |b|)
  {
    hide ReadTags, TagAt;
    if b != [] && b[0] == 0 {
      var at := ReadChain(b, 1, map[]);
      forall at | Chain(b, at) && at[0] == 1 && at[|at| - 1] == |b|
        ensures Decoded(b).Ok?
      {
        ChainRead(b, at, map[]);
      }
    }
  }

  /** So a first key with any length from two to the power of 63 on is a panic, whatever follows. */
  lemma OverflowPanics(n: nat, rest: Text)
    requires TWO_63 <= n < 2 * TWO_63
    ensures Decoded([0, 0] + Varint(n) + rest) == Panic
  {
    hide Varint, ReadUvarint;
    var b := [0, 0] + Varint(n) + rest;
    LengthBack(n, rest);
    assert b[2..] == Varint(n) + rest && b[1] == 0;
    assert OverlongTag(b, 1) && Chain(b, [1]);
    hide OverlongTag, Chain;
    PanicsExactly(b);
    assert [1][|[1]| - 1] == 1;
  }

  /** For instance, the length that fills nine bytes and the lowest bit of a tenth. */
  lemma NineBytesAndABit()
    ensures Decoded([0, 0, 255, 255, 255, 255, 255, 255, 255, 255, 255, 1]) == Panic
  {
    var n := 2 * TWO_63 - 1;
    assert Varint(n) == [255, 255, 255, 255, 255, 255, 255, 255, 255, 1] by { LargestLength(); }
    OverflowPanics(n, []);
    assert [0, 0] + Varint(n) + [] == [0, 0, 255, 255, 255, 255, 255, 255, 255, 255, 255, 1];
  }

  lemma LargestLength()
    ensures Varint(0xFFFF_FFFF_FFFF_FFFF) == [255, 255, 255, 255, 255, 255, 255, 255, 255, 1]
  {
    assert Varint(1) == [1];
    hide Varint;
    SevenOnes(1, 0xFF);
    SevenOnes(0xFF, 0x7FFF);
    SevenOnes(0x7FFF, 0x3F_FFFF);
    SevenOnes(0x3F_FFFF, 0x1FFF_FFFF);
    SevenOnes(0x1FFF_FFFF, 0xF_FFFF_FFFF);
    SevenOnes(0xF_FFFF_FFFF, 0x7FF_FFFF_FFFF);
    SevenOnes(0x7FF_FFFF_FFFF, 0x3_FFFF_FFFF_FFFF);
    SevenOnes(0x3_FFFF_FFFF_FFFF, 0x1FF_FFFF_FFFF_FFFF);
    SevenOnes(0x1FF_FFFF_FFFF_FFFF, 0xFFFF_FFFF_FFFF_FFFF);
  }

  lemma SevenOnes(x: nat, y: nat)
    requires x > 0 && y == 128 * x + 127
    ensures Varint(y) == [255] + Varint(x)
  {}

  // ---------------------------------------------------------------------------------------------
  // The buffer

  class Encoder {
    var buf: array<byte>
    var writeIdx: nat
    var readIdx: nat

    ghost predicate Valid()
      reads this
    {
      writeIdx <= buf.Length
    }

    ghost function Written(): Text
      requires Valid()
      reads this, buf
    {
      buf[..writeIdx]
    }

    constructor (size: nat)
      ensures Valid() && Written() == [] && fresh(buf)
    {
      buf, writeIdx, readIdx := new byte[size], 0, 0;
    }

    /** For reading: the buffer is the text. */
    constructor Of(bytes: Text)
      ensures Valid() && buf[..] == bytes && readIdx == 0 && fresh(buf)
    {
      buf, writeIdx, readIdx := new byte[|bytes|](i requires 0 <= i < |bytes| => bytes[i]), 0, 0;
    }

    /** Makes room for as many more bytes, in a larger buffer if need be. */
    method GrowIfRequired(expected: nat)
      requires Valid()
      modifies this`buf
      ensures Valid() && Written() == old(Written()) && expected <= buf.Length - writeIdx
      ensures buf == old(buf) || fresh(buf)
    {
      if buf.Length - writeIdx < expected {
        var n := buf.Length;
        var larger := new byte[2 * (n + 1) + expected](i requires 0 <= i reads this, buf =>
          if i < buf.Length then buf[i] else 0);
        assert larger[..writeIdx] == buf[..writeIdx];
        buf := larger;
      }
    }

    method Put(v: byte)
      requires Valid() && writeIdx < buf.Length
      modifies this`writeIdx, buf
      ensures Valid() && Written() == old(Written()) + [v] && writeIdx == old(writeIdx) + 1
    {
      buf[writeIdx] := v;
      writeIdx := writeIdx + 1;
    }

    method WriteByte(v: byte)
      requires Valid()
      modifies this`buf, this`writeIdx, buf
      ensures Valid() && Written() == old(Written()) + [v] && (buf == old(buf) || fresh(buf))
    {
      GrowIfRequired(1);
      Put(v);
    }

    /** Writes a varint into room that is there. */
    method PutUvarint(x: nat)
      requires Valid() && x < TWO_63 && MAX_VARINT_LEN <= buf.Length - writeIdx
      modifies this`writeIdx, buf
      ensures Valid() && Written() == old(Written()) + Varint(x) && writeIdx <= old(writeIdx) + MAX_VARINT_LEN
    {
      TenBytes();
      VarintLength(x, 9);
      ghost var before := Written();
      var y := x;
      while y >= 128
        invariant Valid() && |before| <= writeIdx && writeIdx - |before| + |Varint(y)| == |Varint(x)|
        invariant Written() + Varint(y) == before + Varint(x)
        decreases y
      {
        ghost var first := 128 + y % 128;
        ghost var now := Written();
        assert now + ([first] + Varint(y / 128)) == (now + [first]) + Varint(y / 128);
        Put(128 + y % 128);
        y := y / 128;
      }
      Put(y);
    }

    /** Copies bytes into room that is there. */
    method Copy(s: Text)
      requires Valid() && |s| <= buf.Length - writeIdx
      modifies this`writeIdx, buf
      ensures Valid() && Written() == old(Written()) + s
    {
      forall i | 0 <= i < |s| {
        buf[writeIdx + i] := s[i];
      }
      writeIdx := writeIdx + |s|;
    }

    method WriteBytesWithVarintLen(s: Text)
      requires Valid() && |s| < TWO_63
      modifies this`buf, this`writeIdx, buf
      ensures Valid() && Written() == old(Written()) + Field(s) && (buf == old(buf) || fresh(buf))
    {
      hide Varint;
      GrowIfRequired(MAX_VARINT_LEN + |s|);
      PutUvarint(|s|);
      Copy(s);
    }

    method WriteTag(key: Text, value: Text)
      requires Valid() && |key| < TWO_63 && |value| < TWO_63
      modifies this`buf, this`writeIdx, buf
      ensures Valid() && Written() == old(Written()) + TagBytes(key, value) && (buf == old(buf) || fresh(buf))
    {
      hide Field;
      WriteByte(0);
      WriteBytesWithVarintLen(key);
      WriteBytesWithVarintLen(value);
    }

    method ReadByte() returns (b: byte)
      requires readIdx < buf.Length
      modifies this`readIdx
      ensures b == buf[old(readIdx)] && readIdx == old(readIdx) + 1
    {
      b := buf[readIdx];
      readIdx := readIdx + 1;
    }

    /** Reads a varint at the current position. */
    method GetUvarint() returns (u: Uvarint)
      requires readIdx <= buf.Length
      ensures u == ReadUvarint(buf[readIdx..], 0, 0, 1)
    {
      hide Shifted;
      ghost var b := buf[readIdx..];
      var i, x, scale: nat := 0, 0, 1;
      while i < buf.Length - readIdx
        invariant 0 <= i <= |b|
        invariant ReadUvarint(b, i, x, scale) == ReadUvarint(b, 0, 0, 1)
      {
        var octet := buf[readIdx + i];
        assert octet == b[i];
        if octet < 128 {
          if i >= MAX_VARINT_LEN || (i == MAX_VARINT_LEN - 1 && octet > 1) {
            return Uvarint(0, -(i + 1));
          }
          return Uvarint(Shifted(x, octet, scale), i + 1);
        }
        x := Shifted(x, octet % 128, scale);
        scale := 128 * scale;
        i := i + 1;
      }
      return Uvarint(0, 0);
    }

    method ReadBytesWithVarintLen() returns (r: Result<Text>)
      modifies this`readIdx
      ensures match ReadField(buf[..], old(readIdx))
              case Ok((s, end)) => r == Ok(s) && readIdx == end
              case Err(e) => r == Err(e)
              case Panic => r == Panic
    {
      hide ReadUvarint;
      if readIdx >= buf.Length {
        return Err(UnexpectedEnd);
      }
      assert buf[..][readIdx..] == buf[readIdx..];
      var u := GetUvarint();
      if u.taken <= 0 {
        return Err(UnexpectedEnd);
      }
      var start := readIdx + u.taken;
      var end := start + u.value;
      if end >= TWO_63 {
        return Panic;
      }
      if end > buf.Length {
        return Err(Malformed);
      }
      readIdx := end;
      assert buf[..][start..end] == buf[start..end];
      return Ok(buf[start..end]);
    }
  }

  /** Writing the first tag of those to come. */
  lemma TagWritten(written: Text, m: TagMap, order: seq<Text>, i: nat)
    requires i < |order| && forall j | 0 <= j < |order| :: order[j] in m
    ensures var k := order[i];
            var now := if m[k].unlimited then written + TagBytes(k, m[k].value) else written;
            written + TagsBytes(m, order[i..]) == now + TagsBytes(m, order[i + 1..])
  {
    hide TagBytes;
    var k := order[i];
    assert order[i..][0] == k && order[i..][1..] == order[i + 1..];
    if m[k].unlimited {
      assert written + (TagBytes(k, m[k].value) + TagsBytes(m, order[i + 1..]))
          == (written + TagBytes(k, m[k].value)) + TagsBytes(m, order[i + 1..]);
    }
  }

  /** Encodes the tags that propagate without limit. */
  method Encode(m: TagMap, order: seq<Text>) returns (bytes: Text)
    requires Enumerates(order, m)
    requires forall k | k in m && m[k].unlimited :: |k| < TWO_63 && |m[k].value| < TWO_63
    ensures bytes == Encoded(m, order)
  {
    hide TagBytes, TagsBytes;
    var eg := new Encoder(|m|);
    eg.WriteByte(0);
    var i := 0;
    assert order[0..] == order;
    assert eg.Written() + TagsBytes(m, order[i..]) == Encoded(m, order);
    hide Encoded;
    while i < |order|
      invariant 0 <= i <= |order| && fresh(eg) && fresh(eg.buf) && eg.Valid()
      invariant eg.Written() + TagsBytes(m, order[i..]) == Encoded(m, order)
    {
      var k := order[i];
      TagWritten(eg.Written(), m, order, i);
      if m[k].unlimited {
        eg.WriteTag(k, m[k].value);
      }
      i := i + 1;
    }
    NoTags(m);
    bytes := eg.buf[..eg.writeIdx];
  }

  lemma NoTags(m: TagMap)
    ensures TagsBytes(m, []) == []
  {}

  method Decode(bytes: Text) returns (r: Result<map<Text, Text>>)
    ensures r == Decoded(bytes)
  {
    hide ReadField, ValidKey, ValidValue;
    var eg := new Encoder.Of(bytes);
    if eg.buf.Length == 0 {
      return Ok(map[]);
    }
    var version := eg.ReadByte();
    if version > 0 {
      return Err(UnsupportedVersion);
    }
    var tags: map<Text, Text> := map[];
    while eg.readIdx < eg.buf.Length
      invariant fresh(eg) && fresh(eg.buf) && eg.buf[..] == bytes
      invariant ReadTags(bytes, eg.readIdx, tags) == ReadTags(bytes, 1, map[])
      decreases eg.buf.Length - eg.readIdx
    {
      var typ := eg.ReadByte();
      if typ != 0 {
        return Err(InvalidKeyType);
      }
      var k := eg.ReadBytesWithVarintLen();
      if k.Err? { return Err(k.error); }
      if k.Panic? { return Panic; }
      var v := eg.ReadBytesWithVarintLen();
      if v.Err? { return Err(v.error); }
      if v.Panic? { return Panic; }
      if !ValidKey(k.value) { return Err(InvalidKeyName); }
      if !ValidValue(v.value) { return Err(InvalidValue); }
      tags := tags[k.value := v.value];
    }
    return Ok(tags);
  }

  /** Encodes a map, walked in any order, and decodes it again. */
  method Propagate(m: TagMap, order: seq<Text>) returns (r: Result<map<Text, Text>>)
    requires Enumerates(order, m) && |Encoded(m, order)| < TWO_63
    requires forall k | k in m && m[k].unlimited :: |k| < TWO_63 && |m[k].value| < TWO_63
    ensures r == Ok(Unlimited(m)) <==> ValidTags(m)
    ensures r.Err? <==> !ValidTags(m)
  {
    var bytes := Encode(m, order);
    r := Decode(bytes);
    RoundTrip(m, order);
  }
}
