/**
 The generator of span IDs: a counter that goes up by a fixed odd number, modulo two to the power of
 64, and is asked again when it comes to zero.
 */
module SpanId {

  import opened Powers

  const MODULUS: nat := 0x1_0000_0000_0000_0000

  type uint64 = x: int | 0 <= x < 0x1_0000_0000_0000_0000

  /** What the counter comes to with the addition number `k`. */
  function Counter(start: int, inc: int, k: nat): int {
    (start + k * inc) % MODULUS
  }

  /** An odd factor takes no part in divisibility by a power of two. */
  lemma {:induction false} OddCancels(inc: int, d: int, m: int, n: nat) returns (e: int)
    requires inc % 2 == 1 && inc * d == m * PowerOfTwo(n)
    ensures d == e * PowerOfTwo(n)
    decreases n
  {
    if n == 0 {
      return d;
    }
    var p := PowerOfTwo(n - 1);
    assert m * PowerOfTwo(n) == 2 * (m * p) by { Rearrange(m, p); }
    var half := HalfOf(inc, d, m * p);
    e := OddCancels(inc, half, m, n - 1);
    Rearrange(e, p);
  }

  lemma Rearrange(m: int, p: int)
    ensures m * (2 * p) == 2 * (m * p)
  {}

  lemma HalfOf(inc: int, d: int, x: int) returns (half: int)
    requires inc % 2 == 1 && inc * d == 2 * x
    ensures d == 2 * half && inc * half == x
  {
    var q := inc / 2;
    assert inc == 2 * q + 1;
    Expand(q, d);
    half := x - q * d;
    assert d == 2 * half;
    Twice(inc, half);
  }

  lemma Expand(q: int, d: int)
    ensures (2 * q + 1) * d == 2 * (q * d) + d
  {}

  lemma Twice(inc: int, half: int)
    ensures inc * (2 * half) == 2 * (inc * half)
  {}

  lemma EightMore(n: nat)
    ensures PowerOfTwo(n + 8) == 256 * PowerOfTwo(n)
  {
    assert PowerOfTwo(n + 2) == 4 * PowerOfTwo(n);
    assert PowerOfTwo(n + 4) == 16 * PowerOfTwo(n);
    assert PowerOfTwo(n + 6) == 64 * PowerOfTwo(n);
  }

  lemma SixtyFour()
    ensures PowerOfTwo(64) == MODULUS
  {
    hide PowerOfTwo;
    assert PowerOfTwo(0) == 1 by { PowerOfZero(); }
    EightMore(0);
    EightMore(8);
    EightMore(16);
    EightMore(24);
    EightMore(32);
    EightMore(40);
    EightMore(48);
    EightMore(56);
  }

  lemma PowerOfZero()
    ensures PowerOfTwo(0) == 1
  {}

  /** Fewer than two to the power of 64 additions apart, the counter is never the same. */
  lemma NeverTheSame(start: int, inc: int, i: nat, j: nat)
    requires inc % 2 == 1 && i < j < i + MODULUS
    ensures Counter(start, inc, i) != Counter(start, inc, j)
  {
    if Counter(start, inc, i) == Counter(start, inc, j) {
      var a, b := start + i * inc, start + j * inc;
      var m := b / MODULUS - a / MODULUS;
      assert b - a == m * MODULUS;
      Apart(inc, i, j);
      SixtyFour();
      var e := OddCancels(inc, j - i, m, 64);
      Between(j - i, e);
    }
  }

  lemma Apart(inc: int, i: int, j: int)
    ensures j * inc - i * inc == inc * (j - i)
  {}

  lemma Between(d: int, e: int)
    requires d == e * MODULUS
    ensures !(0 < d < MODULUS)
  {}

  // ---------------------------------------------------------------------------------------------
  // The generator

  /** The increment is made odd when the generator is set up. */
  function MadeOdd(x: uint64): (inc: uint64)
    ensures inc % 2 == 1 && inc / 2 == x / 2
  {
    if x % 2 == 0 then x + 1 else x
  }

  /** The little-endian bytes of a number. */
  function Bytes(x: nat, n: nat): seq<int> {
    if n == 0 then [] else [x % 256] + Bytes(x / 256, n - 1)
  }

  function Number(b: seq<int>): int {
    if b == [] then 0 else b[0] + 256 * Number(b[1..])
  }

  function PowerOf256(n: nat): (p: nat)
    ensures p > 0
  {
    if n == 0 then 1 else 256 * PowerOf256(n - 1)
  }

  lemma {:induction false} BytesBack(x: nat, n: nat)
    requires x < PowerOf256(n)
    ensures |Bytes(x, n)| == n && Number(Bytes(x, n)) == x
  {
    if n == 0 {
    } else {
      BytesBack(x / 256, n - 1);
      var rest := Bytes(x / 256, n - 1);
      assert ([x % 256] + rest)[1..] == rest;
    }
  }

  /** The least significant byte comes first. */
  lemma {:induction false} LittleEndian(x: nat, n: nat, k: nat)
    requires k < n
    ensures |Bytes(x, n)| == n && Bytes(x, n)[k] == (x / PowerOf256(k)) % 256
  {
    if k == 0 {
      BytesLength(x, n);
    } else {
      LittleEndian(x / 256, n - 1, k - 1);
      Divided(x, PowerOf256(k - 1));
    }
  }

  lemma {:induction false} BytesLength(x: nat, n: nat)
    ensures |Bytes(x, n)| == n
  {
    if n == 0 {
    } else {
      BytesLength(x / 256, n - 1);
    }
  }

  lemma Divided(x: nat, p: nat)
    requires p > 0
    ensures (x / 256) / p == x / (256 * p)
  {
    var (q, r) := (x / 256, x % 256);
    var (a, b) := (q / p, q % p);
    assert x == 256 * (a * p + b) + r;
    assert 256 * (a * p) == (256 * p) * a;
    Quotient(x, 256 * p, a, 256 * b + r);
  }

  lemma Quotient(x: nat, d: nat, q: nat, r: nat)
    requires d > 0 && x == d * q + r && r < d
    ensures x / d == q
  {
    var e := x / d;
    assert e < q ==> d * (e + 1) <= d * q;
    assert e > q ==> d * (q + 1) <= d * e;
  }

  lemma EightBytes()
    ensures PowerOf256(8) == MODULUS
  {
    assert PowerOf256(4) == 0x1_0000_0000;
    assert PowerOf256(8) == 0x1_0000_0000 * PowerOf256(4);
  }

  class Generator {
    const start: uint64
    const inc: uint64
    var next: uint64
    ghost var additions: nat

    ghost predicate Valid()
      reads this
    {
      inc % 2 == 1 && next == Counter(start, inc, additions)
    }

    constructor (start: uint64, random: uint64)
      ensures Valid() && additions == 0 && inc == MadeOdd(random) && this.start == start
    {
      this.start, inc, next, additions := start, MadeOdd(random), start, 0;
    }

    /** An atomic addition. */
    method AddUint64() returns (id: uint64)
      requires Valid()
      modifies this
      ensures Valid() && additions == old(additions) + 1 && id == next == Counter(start, inc, additions)
    {
      Onward(start, inc, additions);
      next := (next + inc) % MODULUS;
      additions := additions + 1;
      return next;
    }

    /** Adds once, and a second time if that comes to zero. */
    method NewSpanId() returns (id: uint64)
      requires Valid()
      modifies this
      ensures Valid() && id != 0 && id == Counter(start, inc, additions)
      ensures old(additions) < additions <= old(additions) + 2
      ensures additions == old(additions) + 2 ==> Counter(start, inc, additions - 1) == 0
    {
      id := 0;
      ghost var before := additions;
      while id == 0
        invariant Valid() && before <= additions <= before + 2
        invariant id != 0 ==> id == Counter(start, inc, additions) && before < additions
        invariant id == 0 ==> additions <= before + 1
        invariant additions == before + 2 ==> Counter(start, inc, before + 1) == 0
        invariant additions == before + 1 && id == 0 ==> Counter(start, inc, before + 1) == 0
        decreases before + 2 - additions
      {
        id := AddUint64();
        if additions == before + 2 {
          NeverTheSame(start, inc, before + 1, before + 2);
        }
      }
    }
  }

  lemma Onward(start: int, inc: int, k: nat)
    ensures (Counter(start, inc, k) + inc) % MODULUS == Counter(start, inc, k + 1)
  {
    var a := start + k * inc;
    assert start + (k + 1) * inc == a + inc;
    assert (a % MODULUS + inc) % MODULUS == (a + inc) % MODULUS;
  }

  /** What the first `n` additions come to, without zeros. */
  function Values(start: int, inc: int, n: nat): seq<uint64> {
    if n == 0 then []
    else Values(start, inc, n - 1) + if Counter(start, inc, n) == 0 then [] else [Counter(start, inc, n)]
  }

  lemma NextValue(start: int, inc: int, n: nat)
    ensures Values(start, inc, n + 1)
         == Values(start, inc, n) + if Counter(start, inc, n + 1) == 0 then [] else [Counter(start, inc, n + 1)]
  {}

  /** Up to two to the power of 64 less one IDs: the values of the counter in their order, without
      zeros, and no two the same. */
  method Issue(start: uint64, random: uint64, count: nat) returns (ids: seq<uint64>)
    requires count < MODULUS
    ensures |ids| == count <= |Values(start, MadeOdd(random), count + 1)|
    ensures ids == Values(start, MadeOdd(random), count + 1)[..count]
    ensures forall i | 0 <= i < count :: ids[i] != 0
    ensures forall i, j | 0 <= i < j < count :: ids[i] != ids[j]
  {
    hide Counter, Values;
    var gen := new Generator(start, random);
    ids := [];
    assert Values(start, MadeOdd(random), 0) == [] by { NoValues(start, MadeOdd(random)); }
    ghost var at: seq<nat> := [];
    while |ids| < count
      invariant |ids| <= count && fresh(gen) && gen.Valid() && |at| == |ids|
      invariant gen.start == start && gen.inc == MadeOdd(random) && ids == Values(start, gen.inc, gen.additions)
      invariant forall i | 0 <= i < |ids| :: ids[i] != 0 && ids[i] == Counter(gen.start, gen.inc, at[i])
      invariant forall i | 0 <= i < |ids| :: 0 < at[i] <= gen.additions
      invariant forall i, j | 0 <= i < j < |ids| :: at[i] < at[j] && ids[i] != ids[j]
      invariant |ids| <= gen.additions <= |ids| + 1
      invariant gen.additions == |ids| + 1 ==> exists z: nat :: Zero(gen.start, gen.inc, z, gen.additions)
    {
      ghost var before := gen.additions;
      var id := gen.NewSpanId();
      ghost var now := gen.additions;
      if now == before + 2 {
        if before == |ids| + 1 {
          var z: nat :| Zero(gen.start, gen.inc, z, before);
          NeverTheSame(gen.start, gen.inc, z, now - 1);
          assert false;
        }
        assert Zero(gen.start, gen.inc, now - 1, now);
      } else if before == |ids| + 1 {
        var z: nat :| Zero(gen.start, gen.inc, z, before);
        assert Zero(gen.start, gen.inc, z, now);
      }
      forall i | 0 <= i < |ids| ensures ids[i] != id {
        NeverTheSame(gen.start, gen.inc, at[i], now);
      }
      NextValue(start, gen.inc, before);
      if now == before + 2 { NextValue(start, gen.inc, before + 1); }
      ids := ids + [id];
      at := at + [now];
    }
    NextValue(start, gen.inc, count);
  }

  lemma NoValues(start: int, inc: int)
    ensures Values(start, inc, 0) == []
  {}

  predicate Zero(start: int, inc: int, z: nat, additions: nat) {
    0 < z <= additions && Counter(start, inc, z) == 0
  }

  /** The additions of one call, in any interleaving with other calls: it goes on while it gets zero. */
  predicate IsCall(start: int, inc: int, adds: seq<nat>) {
    && adds != []
    && (forall i, j | 0 <= i < j < |adds| :: adds[i] < adds[j])
    && (forall i | 0 <= i < |adds| :: Counter(start, inc, adds[i]) == 0 <==> i < |adds| - 1)
  }

  function IdOf(start: int, inc: int, adds: seq<nat>): int
    requires adds != []
  {
    Counter(start, inc, adds[|adds| - 1])
  }

  predicate Early(adds: seq<nat>) {
    forall i | 0 <= i < |adds| :: 0 < adds[i] <= MODULUS
  }

  /** Calls that interleave get different IDs, in at most two additions each, and only one of them
      needs two, as long as there are no more than two to the power of 64 additions in all. */
  lemma InterleavedCalls(start: int, inc: int, a: seq<nat>, b: seq<nat>)
    requires inc % 2 == 1 && IsCall(start, inc, a) && IsCall(start, inc, b) && Early(a) && Early(b)
    requires forall i, j | 0 <= i < |a| && 0 <= j < |b| :: a[i] != b[j]
    ensures |a| <= 2 && |b| <= 2 && |a| + |b| <= 3
    ensures IdOf(start, inc, a) != IdOf(start, inc, b)
  {
    AtMostTwo(start, inc, a);
    AtMostTwo(start, inc, b);
    hide Counter;
    if |a| > 1 && |b| > 1 { Differ(start, inc, a[0], b[0]); }
    Differ(start, inc, a[|a| - 1], b[|b| - 1]);
  }

  lemma Differ(start: int, inc: int, i: nat, j: nat)
    requires inc % 2 == 1 && 0 < i <= MODULUS && 0 < j <= MODULUS && i != j
    ensures Counter(start, inc, i) != Counter(start, inc, j)
  {
    if i < j { NeverTheSame(start, inc, i, j); } else { NeverTheSame(start, inc, j, i); }
  }

  lemma AtMostTwo(start: int, inc: int, a: seq<nat>)
    requires inc % 2 == 1 && IsCall(start, inc, a) && Early(a)
    ensures |a| <= 2
  {
    hide Counter;
    if |a| > 2 { Differ(start, inc, a[0], a[1]); }
  }

  /** The eight bytes of an ID tell it from every other. */
  lemma BytesDiffer(x: uint64, y: uint64)
    requires x != y
    ensures |Bytes(x, 8)| == 8 && Bytes(x, 8) != Bytes(y, 8)
  {
    EightBytes();
    BytesBack(x, 8);
    BytesBack(y, 8);
  }
}
