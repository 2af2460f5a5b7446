/**
 The samples of finished spans: circular buckets, and the part of the store that keeps one bucket for
 each range of latencies.

 Times are in nanoseconds; spans are values, so that a nil entry of a buffer is `None`.
 */
module SpanStore {
  import opened Options

  datatype Span = Span(id: int, start: int, end: int, code: int)

  const SAMPLE_PERIOD := 1_000_000_000

  // ---------------------------------------------------------------------------------------------
  // Buckets

  /** The last `n` of a list, or all of it. */
  function Recent<T>(s: seq<T>, n: nat): seq<T> {
    if |s| <= n then s else s[|s| - n..]
  }

  /** Any two spans end at least a sample period apart, in their order. */
  predicate Spaced(s: seq<Span>) {
    forall i, j | 0 <= i < j < |s| :: s[i].end + SAMPLE_PERIOD <= s[j].end
  }

  function Values(s: seq<Option<Span>>): seq<Span>
    requires forall i | 0 <= i < |s| :: s[i].Some?
  {
    seq(|s|, i requires 0 <= i < |s| => s[i].value)
  }

  // What adding and resizing come to, on values.

  datatype Op = AddOp(span: Span) | ResizeOp(size: nat)

  datatype Sample = Sample(list: seq<Span>, capacity: nat, nextTime: int)

  predicate Accepts(b: Sample, s: Span) {
    s.end >= b.nextTime && b.capacity > 0
  }

  function Applied(b: Sample, op: Op): Sample {
    match op
    case AddOp(s) =>
      if Accepts(b, s) then Sample(Recent(b.list + [s], b.capacity), b.capacity, s.end + SAMPLE_PERIOD) else b
    case ResizeOp(n) => b.(list := Recent(b.list, n), capacity := n)
  }

  /** A circular buffer that has spans up to `k`, or everywhere once it is full. */
  predicate Circular(b: seq<Option<Span>>, k: nat, full: bool) {
    && (k < |b| || (k == 0 && |b| == 0))
    && (forall i | 0 <= i < |b| :: b[i].Some? <==> full || i < k)
  }

  /** The list that a circular buffer stands for. */
  ghost function Rotated(b: seq<Option<Span>>, k: nat, full: bool): (s: seq<Span>)
    requires Circular(b, k, full)
    ensures |s| == if full then |b| else k
  {
    if full then Values(b[k..]) + Values(b[..k]) else Values(b[..k])
  }

  class Bucket {
    var nextTime: int
    var buffer: array<Option<Span>>
    var nextIndex: nat
    var overflow: bool

    ghost predicate Shaped()
      reads this, buffer
    {
      Circular(buffer[..], nextIndex, overflow)
    }

    /** The retained spans, the oldest first. */
    ghost function Contents(): seq<Span>
      requires Shaped()
      reads this, buffer
    {
      Rotated(buffer[..], nextIndex, overflow)
    }

    ghost predicate Valid()
      reads this, buffer
    {
      && Shaped() && Spaced(Contents())
      && (Contents() != [] ==> Contents()[|Contents()| - 1].end + SAMPLE_PERIOD <= nextTime)
    }

    ghost function AsSample(): Sample
      requires Shaped()
      reads this, buffer
    {
      Sample(Contents(), buffer.Length, nextTime)
    }

    constructor (size: nat)
      ensures Valid() && AsSample() == Sample([], size, 0) && fresh(buffer)
    {
      nextTime, nextIndex, overflow := 0, 0, false;
      buffer := new Option<Span>[size](_ => None);
    }

    /** Takes a span, unless it ends too soon after the last one; it may push the oldest one out. */
    method Add(s: Span)
      requires Valid()
      modifies this`nextTime, this`nextIndex, this`overflow, buffer
      ensures Valid() && AsSample() == Applied(old(AsSample()), AddOp(s))
    {
      if s.end < nextTime { return; }
      if buffer.Length == 0 { return; }
      ghost var was, k, full := buffer[..], nextIndex, overflow;
      ghost var contents := Contents();
      assert k < |was|;
      hide Spaced, Rotated, Circular;
      nextTime := s.end + SAMPLE_PERIOD;
      buffer[nextIndex] := Some(s);
      nextIndex := nextIndex + 1;
      if nextIndex == buffer.Length {
        nextIndex := 0;
        overflow := true;
      }
      AddedOne(was, k, full, s, buffer[..]);
      SpacedRecent(contents, s, buffer.Length);
    }

    method Size() returns (n: nat)
      requires Valid()
      ensures n == |Contents()| && n <= buffer.Length
    {
      if overflow { return buffer.Length; }
      return nextIndex;
    }

    /** The span at a place in the order of the list. */
    method SpanAt(i: nat) returns (s: Option<Span>)
      requires Valid() && i < |Contents()|
      ensures s == Some(Contents()[i])
    {
      if !overflow { return buffer[i]; }
      if i < buffer.Length - nextIndex {
        return buffer[nextIndex + i];
      }
      return buffer[nextIndex + i - buffer.Length];
    }

    /** A new buffer of size `n` that starts with `kept` spans of the list, from `skip` on. */
    method Copied(n: nat, skip: nat, kept: nat) returns (copy: array<Option<Span>>)
      requires Valid() && kept <= n && skip + kept <= |Contents()|
      ensures fresh(copy) && copy.Length == n && Begins(copy[..], Contents()[skip..skip + kept])
    {
      ghost var contents := Contents();
      hide Spaced, Rotated, Circular, Values;
      copy := new Option<Span>[n](_ => None);
      var i := 0;
      while i < kept
        invariant 0 <= i <= kept && Valid() && Contents() == contents
        invariant Begins(copy[..], contents[skip..skip + i])
        modifies copy
      {
        var s := SpanAt(i + skip);
        BeginsMore(copy[..], contents, skip, i, s);
        copy[i] := s;
        i := i + 1;
      }
    }

    /** Lets a new buffer stand for the list. */
    method Install(newBuffer: array<Option<Span>>, index: nat, full: bool, ghost list: seq<Span>)
      requires Valid() && Circular(newBuffer[..], index, full) && Rotated(newBuffer[..], index, full) == list
      requires Spaced(list) && (list != [] ==> list[|list| - 1].end + SAMPLE_PERIOD <= nextTime)
      modifies this`buffer, this`nextIndex, this`overflow
      ensures Valid() && buffer == newBuffer && Contents() == list
    {
      hide Spaced, Rotated, Circular;
      buffer, nextIndex, overflow := newBuffer, index, full;
    }

    method Grow(cur: nat, n: nat)
      requires Valid() && cur == |Contents()| < n
      modifies this`buffer, this`nextIndex, this`overflow
      ensures Valid() && fresh(buffer) && buffer.Length == n && Contents() == old(Contents())
    {
      ghost var contents := Contents();
      hide Spaced, Rotated, Circular, Begins;
      assert contents[0..cur] == contents;
      var newBuffer := Copied(n, 0, cur);
      BeginsRotated(newBuffer[..], contents, false);
      Install(newBuffer, cur, false, contents);
    }

    method Shrink(cur: nat, n: nat)
      requires Valid() && n <= cur == |Contents()|
      modifies this`buffer, this`nextIndex, this`overflow
      ensures Valid() && fresh(buffer) && buffer.Length == n && Contents() == old(Contents())[cur - n..]
    {
      ghost var contents := Contents();
      ghost var kept := contents[cur - n..];
      assert kept == contents[cur - n..cur - n + n];
      hide Rotated, Circular, Begins;
      var newBuffer := Copied(n, cur - n, n);
      BeginsRotated(newBuffer[..], kept, true);
      Install(newBuffer, 0, true, kept);
    }

    /** Changes the size, and keeps the most recent spans that fit. */
    method Resize(n: nat)
      requires Valid()
      modifies this`buffer, this`nextIndex, this`overflow
      ensures Valid() && fresh(buffer) && AsSample() == Applied(old(AsSample()), ResizeOp(n))
    {
      hide Spaced, Rotated, Circular;
      var cur := Size();
      if cur < n {
        Grow(cur, n);
      } else {
        Shrink(cur, n);
      }
    }

    /** Appends the retained spans within the bounds, in the order in which they lie in the buffer. */
    method Report(out: seq<Span>, minLatency: int, maxLatency: int) returns (more: seq<Span>)
      requires Valid()
      ensures multiset(more) == multiset(out) + multiset(Filtered(Contents(), minLatency, maxLatency))
    {
      more := out;
      var i := 0;
      ghost var b := buffer[..];
      ghost var n := if overflow then buffer.Length else nextIndex;
      ghost var vs := Values(b[..n]);
      while i < buffer.Length && buffer[i].Some?
        invariant 0 <= i <= n
        invariant more == out + Filtered(vs[..i], minLatency, maxLatency)
      {
        var sd := buffer[i].value;
        assert vs[..i + 1][..i] == vs[..i] && vs[i] == sd;
        if minLatency != 0 || maxLatency != 0 {
          var d := sd.end - sd.start;
          if d >= minLatency && !(maxLatency != 0 && d > maxLatency) {
            more := more + [sd];
          }
        } else {
          more := more + [sd];
        }
        i := i + 1;
      }
      assert i == n && vs[..i] == vs;
      RotationFiltered(b, nextIndex, overflow, minLatency, maxLatency);
    }
  }

  /** The buffer holds just the list, from its start on. */
  predicate Begins(b: seq<Option<Span>>, list: seq<Span>) {
    && |list| <= |b|
    && (forall i | 0 <= i < |list| :: b[i] == Some(list[i]))
    && (forall i | |list| <= i < |b| :: b[i] == None)
  }

  lemma BeginsMore(b: seq<Option<Span>>, list: seq<Span>, skip: nat, i: nat, s: Option<Span>)
    requires skip + i < |list| && i < |b| && Begins(b, list[skip..skip + i]) && s == Some(list[skip + i])
    ensures Begins(b[i := s], list[skip..skip + i + 1])
  {}

  lemma BeginsRotated(b: seq<Option<Span>>, list: seq<Span>, full: bool)
    requires Begins(b, list) && (full <==> |list| == |b|)
    ensures var k := if full then 0 else |list|; Circular(b, k, full) && Rotated(b, k, full) == list
  {}

  lemma AddedOne(was: seq<Option<Span>>, k: nat, full: bool, s: Span, now: seq<Option<Span>>)
    requires k < |was| && Circular(was, k, full) && now == was[k := Some(s)]
    ensures var wrap := k + 1 == |was|;
            var k' := if wrap then 0 else k + 1;
            && Circular(now, k', full || wrap)
            && Rotated(now, k', full || wrap) == Recent(Rotated(was, k, full) + [s], |was|)
  {
    if full {
      assert Values(was[k..]) == [was[k].value] + Values(was[k + 1..]);
      assert now[..k + 1] == was[..k] + [Some(s)];
    } else {
      assert now[..k + 1] == was[..k] + [Some(s)];
    }
  }

  lemma SpacedRecent(contents: seq<Span>, s: Span, n: nat)
    requires Spaced(contents)
    requires contents != [] ==> contents[|contents| - 1].end + SAMPLE_PERIOD <= s.end
    ensures Spaced(Recent(contents + [s], n))
  {
    var all := contents + [s];
    forall i, j | 0 <= i < j < |all| ensures all[i].end + SAMPLE_PERIOD <= all[j].end {
      if j == |contents| && i < |contents| - 1 {
        assert contents[i].end + SAMPLE_PERIOD <= contents[|contents| - 1].end;
      }
    }
  }

  // ---------------------------------------------------------------------------------------------
  // Runs of one bucket

  /** What a bucket of a given size has come to. */
  function Sampled(size: nat, ops: seq<Op>): Sample {
    if ops == [] then Sample([], size, 0) else Applied(Sampled(size, ops[..|ops| - 1]), ops[|ops| - 1])
  }

  /** Every span that was accepted on the way. */
  function Accepted(size: nat, ops: seq<Op>): seq<Span> {
    if ops == [] then []
    else
      var before, op := ops[..|ops| - 1], ops[|ops| - 1];
      if op.AddOp? && Accepts(Sampled(size, before), op.span) then Accepted(size, before) + [op.span]
      else Accepted(size, before)
  }

  /** A bucket holds the most recent of the spans that it accepted, however it was resized, and no
      more than fit. */
  lemma {:induction false} HoldsMostRecent(size: nat, ops: seq<Op>)
    ensures var b := Sampled(size, ops);
            b.list == Recent(Accepted(size, ops), |b.list|) && |b.list| <= b.capacity
  {
    if ops == [] {
    } else {
      var before, op := ops[..|ops| - 1], ops[|ops| - 1];
      HoldsMostRecent(size, before);
      var b, accepted := Sampled(size, before), Accepted(size, before);
      hide Recent;
      match op {
        case AddOp(s) =>
          SuffixSnoc(b.list, accepted, s);
          SuffixRecent(b.list + [s], accepted + [s], b.capacity);
        case ResizeOp(n) => SuffixRecent(b.list, accepted, n);
      }
    }
  }

  lemma SuffixSnoc(list: seq<Span>, all: seq<Span>, s: Span)
    requires list == Recent(all, |list|)
    ensures list + [s] == Recent(all + [s], |list| + 1)
  {}

  lemma SuffixRecent(list: seq<Span>, all: seq<Span>, n: nat)
    requires list == Recent(all, |list|)
    ensures Recent(list, n) == Recent(all, |Recent(list, n)|) && |Recent(list, n)| <= n
  {}

  /** The size that a bucket has been given last. */
  function GivenSize(size: nat, ops: seq<Op>): nat {
    if ops == [] then size
    else if ops[|ops| - 1].ResizeOp? then ops[|ops| - 1].size
    else GivenSize(size, ops[..|ops| - 1])
  }

  /** A span is accepted exactly if the bucket has room for any, and it ends a second or more behind the
      last one that was accepted; the first one must not end before the epoch. */
  lemma AcceptedExactly(size: nat, ops: seq<Op>, s: Span)
    ensures var accepted := Accepted(size, ops);
            Accepts(Sampled(size, ops), s) <==>
              && GivenSize(size, ops) > 0
              && s.end >= if accepted == [] then 0 else accepted[|accepted| - 1].end + 1_000_000_000
  {
    NextTime(size, ops);
    hide Sampled, Accepted;
  }

  lemma {:induction false} NextTime(size: nat, ops: seq<Op>)
    ensures var accepted := Accepted(size, ops);
            && Sampled(size, ops).capacity == GivenSize(size, ops)
            && Sampled(size, ops).nextTime
               == if accepted == [] then 0 else accepted[|accepted| - 1].end + 1_000_000_000
  {
    if ops == [] {
    } else {
      NextTime(size, ops[..|ops| - 1]);
      hide Recent;
    }
  }

  /** As long as it is not resized, a bucket holds as many of the last spans as fit. */
  lemma {:induction false} KeepsAll(size: nat, ops: seq<Op>)
    requires forall op | op in ops :: op.AddOp?
    ensures Sampled(size, ops).list == Recent(Accepted(size, ops), size) && Sampled(size, ops).capacity == size
  {
    if ops == [] {
    } else {
      var before, op := ops[..|ops| - 1], ops[|ops| - 1];
      assert forall o | o in before :: o in ops;
      KeepsAll(size, before);
      RecentSnoc(Accepted(size, before), op.span, size);
    }
  }

  lemma RecentSnoc(all: seq<Span>, s: Span, n: nat)
    ensures n > 0 ==> Recent(Recent(all, n) + [s], n) == Recent(all + [s], n)
  {}

  /** And a resizing keeps as many of them as fit into the new size. */
  lemma ResizedKeeps(size: nat, ops: seq<Op>, n: nat)
    requires forall op | op in ops :: op.AddOp?
    ensures Sampled(size, ops + [ResizeOp(n)]).list == Recent(Accepted(size, ops), if n < size then n else size)
  {
    assert (ops + [ResizeOp(n)])[..|ops|] == ops;
    KeepsAll(size, ops);
  }

  method Collect(size: nat, ops: seq<Op>) returns (spans: seq<Span>)
    ensures spans == Sampled(size, ops).list && Spaced(spans)
    ensures spans == Recent(Accepted(size, ops), |spans|)
  {
    hide Spaced, Rotated, Circular;
    var bucket := new Bucket(size);
    var i := 0;
    assert ops[..0] == [];
    while i < |ops|
      invariant 0 <= i <= |ops| && fresh(bucket) && fresh(bucket.buffer) && bucket.Valid()
      invariant Sampled(size, ops[..i]) == bucket.AsSample()
    {
      assert ops[..i + 1][..i] == ops[..i];
      match ops[i] {
        case AddOp(s) => bucket.Add(s);
        case ResizeOp(n) => bucket.Resize(n);
      }
      i := i + 1;
    }
    assert ops[..i] == ops;
    HoldsMostRecent(size, ops);
    var n := bucket.Size();
    ghost var list := bucket.Contents();
    spans := [];
    while |spans| < n
      invariant bucket.Valid() && bucket.Contents() == list
      invariant |spans| <= n == |list| && spans == list[..|spans|]
    {
      var s := bucket.SpanAt(|spans|);
      spans := spans + [s.value];
    }
  }

  // ---------------------------------------------------------------------------------------------
  // The index by latency

  const LATENCIES: seq<int> :=
    [10_000, 100_000, 1_000_000, 10_000_000, 100_000_000, 1_000_000_000, 10_000_000_000, 60_000_000_000]

  /** The ranges end at powers of ten from ten microseconds to ten seconds, and at a minute. */
  lemma RangesEnd(i: nat)
    requires i < |LATENCIES|
    ensures |LATENCIES| == 8 && LATENCIES[0] == 10_000 && LATENCIES[7] == 60 * 1_000_000_000
    ensures 0 < i < 7 ==> LATENCIES[i] == 10 * LATENCIES[i - 1]
  {}

  predicate InRange(latency: int, i: nat) {
    i <= |LATENCIES| && (i > 0 ==> LATENCIES[i - 1] <= latency) && (i < |LATENCIES| ==> latency < LATENCIES[i])
  }

  /** The bucket that a latency belongs in, of those from `i` on. */
  function BucketFrom(latency: int, i: nat): (k: nat)
    requires i <= |LATENCIES| && (i > 0 ==> LATENCIES[i - 1] <= latency)
    ensures InRange(latency, k)
    decreases |LATENCIES| - i
  {
    if i < |LATENCIES| && latency >= LATENCIES[i] then BucketFrom(latency, i + 1) else i
  }

  method LatencyBucket(latency: int) returns (i: nat)
    ensures i == BucketFrom(latency, 0) && InRange(latency, i)
  {
    i := 0;
    while i < |LATENCIES| && latency >= LATENCIES[i]
      invariant i <= |LATENCIES| && (i > 0 ==> LATENCIES[i - 1] <= latency)
      invariant BucketFrom(latency, i) == BucketFrom(latency, 0)
    {
      i := i + 1;
    }
  }

  function Bounds(i: nat): (int, int)
    requires i <= |LATENCIES|
  {
    if i == 0 then (0, LATENCIES[0])
    else if i == |LATENCIES| then (LATENCIES[i - 1], 0x7FFF_FFFF_FFFF_FFFF)
    else (LATENCIES[i - 1], LATENCIES[i])
  }

  function Latency(s: Span): int { s.end - s.start }

  /** The latency that a span is filed under. */
  function Filed(s: Span): int { if Latency(s) < 0 then 0 else Latency(s) }

  predicate Within(s: Span, minLatency: int, maxLatency: int) {
    || (minLatency == 0 && maxLatency == 0)
    || (minLatency <= Latency(s) && (maxLatency == 0 || Latency(s) <= maxLatency))
  }

  /** A plain filter. */
  function Filtered(s: seq<Span>, minLatency: int, maxLatency: int): seq<Span> {
    if s == [] then []
    else
      var rest, last := Filtered(s[..|s| - 1], minLatency, maxLatency), s[|s| - 1];
      if Within(last, minLatency, maxLatency) then rest + [last] else rest
  }

  /** A span is let through exactly if it took no less than the minimum and no more than the maximum; a
      maximum of zero is none. */
  lemma {:induction false} FilteredExactly(s: seq<Span>, minLatency: int, maxLatency: int, sd: Span)
    ensures sd in Filtered(s, minLatency, maxLatency) <==>
              && sd in s
              && ((minLatency == 0 && maxLatency == 0) || sd.end - sd.start >= minLatency)
              && (maxLatency == 0 || sd.end - sd.start <= maxLatency)
  {
    if s == [] {
    } else {
      FilteredExactly(s[..|s| - 1], minLatency, maxLatency, sd);
      assert s == s[..|s| - 1] + [s[|s| - 1]];
    }
  }

  lemma {:induction false} FilteredConcat(a: seq<Span>, b: seq<Span>, minLatency: int, maxLatency: int)
    ensures Filtered(a + b, minLatency, maxLatency)
            == Filtered(a, minLatency, maxLatency) + Filtered(b, minLatency, maxLatency)
  {
    if b == [] {
      assert a + b == a;
    } else {
      var k := |b| - 1;
      FilteredConcat(a, b[..k], minLatency, maxLatency);
      assert (a + b)[..|a| + k] == a + b[..k];
    }
  }

  lemma RotationFiltered(b: seq<Option<Span>>, k: nat, full: bool, minLatency: int, maxLatency: int)
    requires Circular(b, k, full)
    ensures var vs := Values(b[..if full then |b| else k]);
            multiset(Filtered(vs, minLatency, maxLatency))
              == multiset(Filtered(Rotated(b, k, full), minLatency, maxLatency))
  {
    hide Filtered;
    if full {
      var first, second := Values(b[..k]), Values(b[k..]);
      assert b[..|b|] == b && Values(b) == first + second;
      FilteredConcat(first, second, minLatency, maxLatency);
      FilteredConcat(second, first, minLatency, maxLatency);
    }
  }

  /** A bucket that is skipped for its bounds holds no span within them. */
  lemma {:induction false} NothingSkipped(s: seq<Span>, i: nat, minLatency: int, maxLatency: int)
    requires i <= |LATENCIES| && FiledIn(s, i)
    requires
      || (i < |LATENCIES| && Bounds(i).1 <= minLatency)
      || (0 < maxLatency < Bounds(i).0)
    ensures Filtered(s, minLatency, maxLatency) == []
  {
    if s == [] {
    } else {
      NothingSkipped(s[..|s| - 1], i, minLatency, maxLatency);
    }
  }

  /** All the spans of some samples. */
  function Flat(samples: seq<Sample>): seq<Span> {
    if samples == [] then [] else Flat(samples[..|samples| - 1]) + samples[|samples| - 1].list
  }

  /** Every span is in the sample that its latency belongs in. */
  predicate FiledRight(samples: seq<Sample>) {
    forall i | 0 <= i < |samples| :: FiledIn(samples[i].list, i)
  }

  predicate FiledIn(list: seq<Span>, i: nat) {
    forall k | 0 <= k < |list| :: InRange(Filed(list[k]), i)
  }

  lemma FiledOne(b: Sample, i: nat, op: Op)
    requires FiledIn(b.list, i) && (op.AddOp? ==> InRange(Filed(op.span), i))
    ensures FiledIn(Applied(b, op).list, i)
  {}

  class Store {
    var latency: seq<Bucket>

    /** The buckets do not share anything. */
    ghost predicate Separate()
      reads this
      reads latency
    {
      forall i, j | 0 <= i < j < |latency| :: latency[i] != latency[j] && latency[i].buffer != latency[j].buffer
    }

    ghost predicate Sound()
      reads this
      reads latency
      reads set b | b in latency :: b.buffer
    {
      |latency| == |LATENCIES| + 1 && Separate() && forall i | 0 <= i < |latency| :: latency[i].Valid()
    }

    ghost function Samples(): (samples: seq<Sample>)
      requires Sound()
      reads this
      reads latency
      reads set b | b in latency :: b.buffer
      ensures |samples| == |latency| && forall i | 0 <= i < |latency| :: samples[i] == latency[i].AsSample()
    {
      seq(|latency|, i requires 0 <= i < |latency| && Sound() reads this, latency, (set b | b in latency :: b.buffer)
        => latency[i].AsSample())
    }

    ghost predicate Valid()
      reads this
      reads latency
      reads set b | b in latency :: b.buffer
    {
      Sound() && FiledRight(Samples())
    }

    constructor (size: nat)
      ensures Valid() && (forall i | 0 <= i < |latency| :: Samples()[i] == Sample([], size, 0))
      ensures fresh(latency) && forall b | b in latency :: fresh(b.buffer)
    {
      latency := [];
      new;
      var i := 0;
      while i <= |LATENCIES|
        invariant 0 <= i == |latency| <= |LATENCIES| + 1 && Separate()
        invariant forall k | 0 <= k < i :: latency[k].Valid() && latency[k].AsSample() == Sample([], size, 0)
        invariant fresh(latency) && forall b | b in latency :: fresh(b.buffer)
      {
        var b := new Bucket(size);
        latency := latency + [b];
        i := i + 1;
      }
    }

    /** Files a finished span under its latency; those that failed go elsewhere. */
    method Finished(sd: Span)
      requires Valid()
      modifies latency, set b | b in latency :: b.buffer
      ensures Valid() && latency == old(latency)
      ensures forall i | 0 <= i < |latency| :: latency[i].buffer == old(latency[i].buffer)
      ensures var k, samples := BucketFrom(Filed(sd), 0), old(Samples());
              Samples() == if sd.code != 0 then samples else samples[k := Applied(samples[k], AddOp(sd))]
    {
      hide Spaced, Rotated, Circular, FiledRight, Applied, BucketFrom, InRange;
      var l := sd.end - sd.start;
      if l < 0 {
        l := 0;
      }
      if sd.code == 0 {
        var k := LatencyBucket(l);
        InTheTable(l, k);
        AddTo(k, latency[k], sd);
      }
    }

    method AddTo(k: nat, b: Bucket, sd: Span)
      requires Valid() && k < |latency| && InRange(Filed(sd), k) && b == latency[k]
      modifies b`nextTime, b`nextIndex, b`overflow, b.buffer
      ensures Valid() && Samples() == old(Samples())[k := Applied(old(Samples())[k], AddOp(sd))]
    {
      hide Spaced, Rotated, Circular, FiledIn, Applied;
      ghost var samples := Samples();
      b.Add(sd);
      FiledOne(samples[k], k, AddOp(sd));
      assert Samples() == samples[k := Applied(samples[k], AddOp(sd))];
    }

    method ResizeOne(k: nat, b: Bucket, n: nat)
      requires Valid() && k < |latency| && b == latency[k]
      modifies b`buffer, b`nextIndex, b`overflow
      ensures Valid() && fresh(b.buffer) && Samples() == old(Samples())[k := Applied(old(Samples())[k], ResizeOp(n))]
    {
      hide Spaced, Rotated, Circular, FiledIn, Applied;
      ghost var samples := Samples();
      b.Resize(n);
      FiledOne(samples[k], k, ResizeOp(n));
      assert Samples() == samples[k := Applied(samples[k], ResizeOp(n))];
    }

    /** Resizes every bucket. */
    method Resize(n: nat)
      requires Valid()
      modifies latency
      ensures Valid() && latency == old(latency) && forall i | 0 <= i < |latency| :: fresh(latency[i].buffer)
      ensures forall i | 0 <= i < |latency| :: Samples()[i] == Applied(old(Samples())[i], ResizeOp(n))
    {
      hide Spaced, Rotated, Circular, FiledIn, Applied, FiledRight;
      ghost var samples := Samples();
      var i := 0;
      while i < |latency|
        invariant 0 <= i <= |latency| && Valid()
        invariant forall k | 0 <= k < i :: fresh(latency[k].buffer)
        invariant forall k | 0 <= k < i :: Samples()[k] == Applied(samples[k], ResizeOp(n))
        invariant forall k | i <= k < |latency| :: Samples()[k] == samples[k]
        modifies latency
      {
        ResizeOne(i, latency[i], n);
        i := i + 1;
      }
    }

    method Perform(op: Op)
      requires Valid()
      modifies latency, set b | b in latency :: b.buffer
      ensures Valid() && latency == old(latency)
      ensures forall i | 0 <= i < |latency| :: latency[i].buffer == old(latency[i].buffer) || fresh(latency[i].buffer)
      ensures forall i | 0 <= i < |latency| :: Samples()[i] == Reached(old(Samples())[i], i, op)
    {
      hide Spaced, Rotated, Circular, FiledRight, BucketFrom, Applied;
      match op {
        case AddOp(s) => Finished(s);
        case ResizeOp(n) => Resize(n);
      }
    }

    /** Adds what one bucket has within the bounds, without a look if they exclude it. */
    method ReportBucket(i: nat, out: seq<Span>, minLatency: int, maxLatency: int) returns (more: seq<Span>)
      requires Valid() && i < |latency|
      ensures maxLatency >= 0 ==>
                multiset(more) == multiset(out) + multiset(Filtered(Samples()[i].list, minLatency, maxLatency))
      ensures maxLatency < 0 ==> more == out
    {
      hide Spaced, Rotated, Circular, Filtered;
      var (lower, upper) := Bounds(i);
      if i + 1 != |latency| && upper <= minLatency {
        NothingSkipped(Samples()[i].list, i, minLatency, maxLatency);
        return out;
      }
      if maxLatency != 0 && maxLatency < lower {
        if maxLatency > 0 { NothingSkipped(Samples()[i].list, i, minLatency, maxLatency); }
        return out;
      }
      more := latency[i].Report(out, minLatency, maxLatency);
    }

    /** The retained successful spans within the bounds, from the buckets that may hold some. */
    method ReportSpansByLatency(minLatency: int, maxLatency: int) returns (out: seq<Span>)
      requires Valid()
      ensures maxLatency >= 0 ==> multiset(out) == multiset(Filtered(Flat(Samples()), minLatency, maxLatency))
      ensures maxLatency < 0 ==> out == []
    {
      hide Spaced, Rotated, Circular, Filtered, FiledRight;
      out := [];
      var i := 0;
      ghost var samples := Samples();
      NoneFiltered(minLatency, maxLatency);
      while i < |latency|
        invariant 0 <= i <= |latency|
        invariant maxLatency >= 0 ==> multiset(out) == multiset(Filtered(Flat(samples[..i]), minLatency, maxLatency))
        invariant maxLatency < 0 ==> out == []
      {
        assert samples[..i + 1][..i] == samples[..i];
        FilteredConcat(Flat(samples[..i]), samples[i].list, minLatency, maxLatency);
        out := ReportBucket(i, out, minLatency, maxLatency);
        i := i + 1;
      }
      assert samples[..i] == samples;
    }
  }

  lemma InTheTable(latency: int, k: nat)
    requires InRange(latency, k)
    ensures k <= |LATENCIES|
  {}

  lemma NoneFiltered(minLatency: int, maxLatency: int)
    ensures Filtered([], minLatency, maxLatency) == []
  {}

  // ---------------------------------------------------------------------------------------------
  // Runs of the store

  /** What reaches bucket `i`: the successful spans of its latencies, and every resizing. */
  function OpsFor(i: nat, ops: seq<Op>): seq<Op> {
    if ops == [] then []
    else
      var rest, op := OpsFor(i, ops[..|ops| - 1]), ops[|ops| - 1];
      if op.ResizeOp? || (op.span.code == 0 && BucketFrom(Filed(op.span), 0) == i) then rest + [op] else rest
  }

  /** The samples that the buckets hold, each on its own. */
  function Retained(size: nat, ops: seq<Op>): seq<Sample> {
    seq(|LATENCIES| + 1, i requires i >= 0 => Sampled(size, OpsFor(i, ops)))
  }

  /** What an operation on the store does to one sample. */
  function Reached(b: Sample, i: nat, op: Op): Sample {
    if op.ResizeOp? || (op.span.code == 0 && BucketFrom(Filed(op.span), 0) == i) then Applied(b, op) else b
  }

  lemma RetainedStep(size: nat, ops: seq<Op>, op: Op, i: nat)
    requires i <= |LATENCIES|
    ensures Retained(size, ops + [op])[i] == Reached(Retained(size, ops)[i], i, op)
  {
    hide BucketFrom, Applied;
    assert (ops + [op])[..|ops|] == ops;
    var mine := OpsFor(i, ops);
    assert (mine + [op])[..|mine|] == mine;
  }

  lemma NothingRetained(size: nat)
    ensures forall i | 0 <= i <= |LATENCIES| :: Retained(size, [])[i] == Sample([], size, 0)
  {}

  /** After any run of finished spans and resizings, the report by latency is the plain filter over
      all the retained successful spans, unless the maximum is negative; then it is empty. */
  method Report(size: nat, ops: seq<Op>, minLatency: int, maxLatency: int) returns (out: seq<Span>)
    ensures maxLatency >= 0 ==> multiset(out) == multiset(Filtered(Flat(Retained(size, ops)), minLatency, maxLatency))
    ensures maxLatency < 0 ==> out == []
  {
    hide Spaced, Rotated, Circular, Filtered, FiledRight, Reached, Sampled, Flat, OpsFor, Bucket.Valid,
         Store.Separate;
    var store := new Store(size);
    var n := 0;
    assert ops[..0] == [];
    NothingRetained(size);
    while n < |ops|
      invariant 0 <= n <= |ops| && fresh(store) && fresh(store.latency) && store.Valid()
      invariant forall b | b in store.latency :: fresh(b.buffer)
      invariant store.Samples() == Retained(size, ops[..n])
    {
      assert ops[..n + 1] == ops[..n] + [ops[n]];
      forall i | 0 <= i <= |LATENCIES| { RetainedStep(size, ops[..n], ops[n], i); }
      store.Perform(ops[n]);
      n := n + 1;
    }
    assert ops[..n] == ops;
    out := store.ReportSpansByLatency(minLatency, maxLatency);
  }

  lemma {:induction false} FlatHas(samples: seq<Sample>, i: nat, k: nat)
    requires i < |samples| && k < |samples[i].list|
    ensures samples[i].list[k] in Flat(samples)
  {
    if i < |samples| - 1 { FlatHas(samples[..|samples| - 1], i, k); }
  }

  lemma {:induction false} FilteredHas(s: seq<Span>, sd: Span, minLatency: int, maxLatency: int)
    requires sd in s && Within(sd, minLatency, maxLatency)
    ensures sd in Filtered(s, minLatency, maxLatency)
  {
    if sd != s[|s| - 1] { FilteredHas(s[..|s| - 1], sd, minLatency, maxLatency); }
  }

  /** A span that ended before it started lies within negative bounds, yet no bucket is searched. */
  lemma NegativeMaximum()
    ensures var s := Span(1, 20, 10, 0);
            s in Filtered(Flat(Retained(1, [AddOp(s)])), -100, -1)
  {
    var s := Span(1, 20, 10, 0);
    var samples := Retained(1, [AddOp(s)]);
    RetainedStep(1, [], AddOp(s), 0);
    assert [] + [AddOp(s)] == [AddOp(s)];
    assert samples[0].list == [s];
    FlatHas(samples, 0, 0);
    FilteredHas(Flat(samples), s, -100, -1);
  }
}
