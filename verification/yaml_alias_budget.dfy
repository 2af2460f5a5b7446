/**
 The decoder's walk over a document whose aliases may refer to any node, also to one that contains
 them, and the budget that keeps it from expanding aliases at length.

 Only the walk is modelled: which children the walk enters depends on the Go value that is being
 filled in, so every such decision is left open.  A failed walk returns `false` all the way up.
 */
module YamlAliasBudget {
  import opened Options
  import opened Powers

  /** An alias node is known by its index in the table of the nodes that aliases refer to. */
  datatype Node =
    | Scalar(isMerge: bool)
    | Alias(which: nat)
    | Sequence(children: seq<Node>)
    | Mapping(pairs: seq<Pair>)
    | Document(content: seq<Node>)

  datatype Pair = Pair(key: Node, value: Node)

  /** The number of nodes of a tree. */
  function Size(n: Node): nat {
    match n
    case Scalar(_) => 1
    case Alias(_) => 1
    case Sequence(children) => 1 + Sizes(children)
    case Mapping(pairs) => 1 + PairSizes(pairs)
    case Document(content) => 1 + Sizes(content)
  }

  function Sizes(ns: seq<Node>): nat {
    if ns == [] then 0 else Sizes(ns[..|ns| - 1]) + Size(ns[|ns| - 1])
  }

  function PairSizes(ps: seq<Pair>): nat {
    if ps == [] then 0 else PairSizes(ps[..|ps| - 1]) + PairSize(ps[|ps| - 1])
  }

  function PairSize(p: Pair): nat {
    Size(p.key) + Size(p.value)
  }

  // ---------------------------------------------------------------------------------------------
  // The budget

  const RANGE_LOW := 400_000
  const RANGE_HIGH := 4_000_000

  function AllowedRatio(decodes: nat): real {
    if decodes <= RANGE_LOW then 0.99
    else if decodes >= RANGE_HIGH then 0.10
    else 0.99 - 0.89 * ((decodes - RANGE_LOW) as real / (RANGE_HIGH - RANGE_LOW) as real)
  }

  predicate Excessive(decodes: nat, aliased: nat) {
    aliased > 100 && decodes > 1000 && aliased as real / decodes as real > AllowedRatio(decodes)
  }

  /** The budget in whole numbers: nothing is refused up to 1000 decodes or 100 from aliases; beyond that,
      more than 99 in 100 from aliases up to 400,000 decodes, more than one in ten from 4,000,000 on, and
      in between the part that lies on the line from the one to the other. */
  lemma ExcessiveExactly(decodes: nat, aliased: nat)
    ensures Excessive(decodes, aliased) <==>
              && decodes > 1000 && aliased > 100
              && (if decodes <= 400_000 then 100 * aliased > 99 * decodes
                  else if decodes >= 4_000_000 then 10 * aliased > decodes
                  else 360_000_000 * aliased > Product(392_000_000 - 89 * decodes, decodes))
  {
    if decodes > 0 {
      var d, a := decodes as real, aliased as real;
      var q := a / d;
      assert q * d == a;
      if RANGE_LOW < decodes < RANGE_HIGH {
        var x := (decodes - RANGE_LOW) as real / 3_600_000.0;
        assert x * 3_600_000.0 == d - 400_000.0;
        var r := 0.99 - 0.89 * x;
        assert AllowedRatio(decodes) == r;
        assert r * 360_000_000.0 == 392_000_000.0 - 89.0 * d;
        MoreThan(q, r, d, a);
        ScaledBy(r, d, a, decodes, aliased);
      } else {
        MoreThan(q, AllowedRatio(decodes), d, a);
      }
    }
  }

  function Product(a: int, b: int): int { a * b }

  lemma MoreThan(q: real, r: real, d: real, a: real)
    requires d > 0.0 && q * d == a
    ensures q > r <==> a > r * d
  {
    if q > r { assert (q - r) * d > 0.0; } else { assert (r - q) * d >= 0.0; }
  }

  lemma ScaledBy(r: real, d: real, a: real, decodes: nat, aliased: nat)
    requires d == decodes as real && a == aliased as real && r * 360_000_000.0 == 392_000_000.0 - 89.0 * d
    ensures a > r * d <==> 360_000_000 * aliased > Product(392_000_000 - 89 * decodes, decodes)
  {
    var (left, right) := (360_000_000 * aliased, Product(392_000_000 - 89 * decodes, decodes));
    assert left as real == 360_000_000.0 * a;
    assert right as real == (392_000_000.0 - 89.0 * d) * d by {
      assert (392_000_000 - 89 * decodes) as real == 392_000_000.0 - 89.0 * d;
      RealProduct(392_000_000 - 89 * decodes, decodes);
    }
    assert (r * d) * 360_000_000.0 == (r * 360_000_000.0) * d;
  }

  lemma RealProduct(a: int, b: int)
    ensures Product(a, b) as real == (a as real) * (b as real)
  {}

  /** The budget lasts, or has just been overdrawn by one node. */
  predicate Spent(decodes: nat, aliased: nat) {
    || !Excessive(decodes, aliased)
    || (decodes > 0 && !Excessive(decodes - 1, aliased))
    || (decodes > 0 && aliased > 0 && !Excessive(decodes - 1, aliased - 1))
  }

  function Max(a: int, b: int): int { if a < b then b else a }

  lemma RatioRange(decodes: nat)
    ensures 0.10 <= AllowedRatio(decodes) <= 0.99
  {
    if RANGE_LOW < decodes < RANGE_HIGH {
      var x := (decodes - RANGE_LOW) as real / (RANGE_HIGH - RANGE_LOW) as real;
      assert 0.0 <= x <= 1.0;
    }
  }

  lemma RatioBound(decodes: nat, aliased: nat, ratio: real)
    requires decodes > 0 && aliased as real / decodes as real <= ratio <= 0.99
    ensures 100 * aliased <= 99 * decodes
  {
    var d, a := decodes as real, aliased as real;
    var q := a / d;
    assert q * d == a;
    assert (0.99 - q) * d >= 0.0;
    assert a <= 0.99 * d;
    assert 100.0 * a <= 99.0 * d;
    assert (100 * aliased) as real <= (99 * decodes) as real;
  }

  /** As long as the budget lasts, the nodes decoded outside aliases bound all of them. */
  lemma BudgetBound(decodes: nat, aliased: nat, own: nat)
    requires !Excessive(decodes, aliased) && decodes - aliased <= own
    ensures decodes <= Max(1000, 100 * own + 100)
  {
    if decodes > 1000 && aliased > 100 {
      RatioRange(decodes);
      RatioBound(decodes, aliased, AllowedRatio(decodes));
    }
  }

  lemma SpentBound(decodes: nat, aliased: nat, own: nat)
    requires Spent(decodes, aliased) && decodes - aliased <= own
    ensures decodes <= Max(1000, 100 * own + 100) + 1
  {
    hide Excessive;
    if !Excessive(decodes, aliased) { BudgetBound(decodes, aliased, own); }
    else if !Excessive(decodes - 1, aliased) { BudgetBound(decodes - 1, aliased, own); }
    else { BudgetBound(decodes - 1, aliased - 1, own); }
  }

  /** How many of so many decodes may come from aliases. */
  function AllowedAliased(decodes: nat): real {
    AllowedRatio(decodes) * decodes as real
  }

  /** The comment beside the ratio has it that no more than 400,000 decodes may come from aliases
      over the whole range.  That is so at the ends of the range and close to its lower one only. */
  lemma AllowedAliasedBound(decodes: nat)
    requires RANGE_LOW <= decodes <= RANGE_HIGH
    ensures AllowedAliased(decodes) <= 400_000.0 <==> decodes <= 404_494 || decodes == RANGE_HIGH
  {
    var d := decodes as real;
    if RANGE_LOW < decodes < RANGE_HIGH {
      var x := (decodes - RANGE_LOW) as real / 3_600_000.0;
      assert x * 3_600_000.0 == d - 400_000.0;
      assert AllowedAliased(decodes) == (0.99 - 0.89 * x) * d;
      Parabola(d, x);
      Sign(decodes);
    }
  }

  function Times(a: real, b: real): real { a * b }

  lemma Parabola(d: real, x: real)
    requires x * 3_600_000.0 == d - 400_000.0
    ensures ((0.99 - 0.89 * x) * d - 400_000.0) * 360_000_000.0 == Times(4_000_000.0 - d, 89.0 * d - 36_000_000.0)
  {
    var y := (0.99 - 0.89 * x) * 360_000_000.0;
    assert y == 356_400_000.0 - 89.0 * (d - 400_000.0);
    assert (0.99 - 0.89 * x) * d * 360_000_000.0 == y * d;
  }

  lemma Sign(decodes: nat)
    requires RANGE_LOW < decodes < RANGE_HIGH
    ensures var d := decodes as real;
            Times(4_000_000.0 - d, 89.0 * d - 36_000_000.0) > 0.0 <==> decodes > 404_494
  {
    hide Times;
    var d := decodes as real;
    assert 89.0 * d == (89 * decodes) as real;
    SameSign(4_000_000.0 - d, 89.0 * d - 36_000_000.0);
    if decodes > 404_494 { assert (89 * decodes) as real > 36_000_000.0; }
    else { assert (89 * decodes) as real <= 36_000_000.0; }
  }

  lemma SameSign(a: real, b: real)
    requires a > 0.0
    ensures Times(a, b) > 0.0 <==> b > 0.0
  {
    if b > 0.0 { assert a * b > 0.0; } else { assert a * b <= 0.0; }
  }

  /** In the middle of the range three times as many are allowed. */
  lemma AllowedInTheMiddle()
    ensures AllowedAliased(2_200_000) == 1_199_000.0
  {}

  lemma {:induction false} SubsetSize(a: set<nat>, n: nat)
    requires forall i | i in a :: i < n
    ensures |a| <= n
  {
    if n == 0 {
      assert a == {};
    } else {
      var fewer := a - {n - 1};
      SubsetSize(fewer, n - 1);
      assert a <= fewer + {n - 1};
    }
  }

  // ---------------------------------------------------------------------------------------------
  // What a full expansion would take

  function Plus(a: Option<nat>, b: Option<nat>): Option<nat> {
    if a.Some? && b.Some? then Some(a.value + b.value) else None
  }

  predicate InTable(targets: seq<Node>, active: set<nat>) {
    forall i | i in active :: i < |targets|
  }

  function Room(targets: seq<Node>, active: set<nat>): nat {
    if |active| <= |targets| then |targets| - |active| else 0
  }

  lemma LessRoom(targets: seq<Node>, active: set<nat>, which: nat)
    requires InTable(targets, active) && which < |targets| && which !in active
    ensures InTable(targets, active + {which}) && Room(targets, active + {which}) < Room(targets, active)
  {
    SubsetSize(active + {which}, |targets|);
  }

  predicate Mergeable(targets: seq<Node>, n: Node) {
    n.Mapping? || (n.Alias? && (n.which < |targets| ==> targets[n.which].Mapping?))
  }

  lemma NotMergeable(targets: seq<Node>, n: Node)
    requires n.Sequence?
    ensures !Mergeable(targets, n)
  {}

  /** The nodes met when every alias is replaced by what it refers to, with the aliases in `active`
      around; none if an alias contains itself, or if something is merged that is not a mapping. */
  function Cost(targets: seq<Node>, active: set<nat>, n: Node): Option<nat>
    requires InTable(targets, active)
    decreases Room(targets, active), n, 1
  {
    match n
    case Scalar(_) => Some(1)
    case Alias(which) =>
      if which in active || which >= |targets| then None
      else
        LessRoom(targets, active, which);
        Plus(Some(1), Cost(targets, active + {which}, targets[which]))
    case Sequence(children) => Plus(Some(1), Costs(targets, active, children))
    case Mapping(pairs) => Plus(Some(1), PairCosts(targets, active, pairs))
    case Document(content) => if |content| == 1 then Plus(Some(1), Cost(targets, active, content[0])) else Some(1)
  }

  function Costs(targets: seq<Node>, active: set<nat>, ns: seq<Node>): Option<nat>
    requires InTable(targets, active)
    decreases Room(targets, active), ns, 0
  {
    if ns == [] then Some(0)
    else Plus(Costs(targets, active, ns[..|ns| - 1]), Cost(targets, active, ns[|ns| - 1]))
  }

  function PairCosts(targets: seq<Node>, active: set<nat>, ps: seq<Pair>): Option<nat>
    requires InTable(targets, active)
    decreases Room(targets, active), ps, 0
  {
    if ps == [] then Some(0)
    else Plus(PairCosts(targets, active, ps[..|ps| - 1]), PairCost(targets, active, ps[|ps| - 1]))
  }

  function PairCost(targets: seq<Node>, active: set<nat>, p: Pair): Option<nat>
    requires InTable(targets, active)
    decreases Room(targets, active), p, 0
  {
    if p.key.Scalar? && p.key.isMerge then MergeCost(targets, active, p.value)
    else Plus(Cost(targets, active, p.key), Cost(targets, active, p.value))
  }

  function MergeCost(targets: seq<Node>, active: set<nat>, n: Node): Option<nat>
    requires InTable(targets, active)
    decreases Room(targets, active), n, 2
  {
    if Mergeable(targets, n) then Cost(targets, active, n)
    else if n.Sequence? && forall i | 0 <= i < |n.children| :: Mergeable(targets, n.children[i]) then
      Costs(targets, active, n.children)
    else None
  }

  /** Without a cost for one of them there is none for all. */
  lemma {:induction false} NoCosts(targets: seq<Node>, active: set<nat>, ns: seq<Node>, k: nat)
    requires InTable(targets, active) && k <= |ns| && Costs(targets, active, ns[..k]).None?
    ensures Costs(targets, active, ns).None?
    decreases |ns| - k
  {
    if k == |ns| {
      assert ns[..k] == ns;
    } else {
      assert ns[..k + 1][..k] == ns[..k];
      NoCosts(targets, active, ns, k + 1);
    }
  }

  lemma {:induction false} NoPairCosts(targets: seq<Node>, active: set<nat>, ps: seq<Pair>, k: nat)
    requires InTable(targets, active) && k <= |ps| && PairCosts(targets, active, ps[..k]).None?
    ensures PairCosts(targets, active, ps).None?
    decreases |ps| - k
  {
    if k == |ps| {
      assert ps[..k] == ps;
    } else {
      assert ps[..k + 1][..k] == ps[..k];
      NoPairCosts(targets, active, ps, k + 1);
    }
  }

  /** A tree without aliases and without anything to merge. */
  predicate Plain(n: Node) {
    match n
    case Scalar(isMerge) => !isMerge
    case Alias(_) => false
    case Sequence(children) => forall c | c in children :: Plain(c)
    case Mapping(pairs) => forall p | p in pairs :: Plain(p.key) && Plain(p.value)
    case Document(content) => |content| == 1 && Plain(content[0])
  }

  /** Such a tree is met node by node, each node once. */
  lemma {:induction false} PlainCost(targets: seq<Node>, active: set<nat>, n: Node)
    requires InTable(targets, active) && Plain(n)
    ensures Cost(targets, active, n) == Some(Size(n))
    decreases n, 1
  {
    match n
    case Scalar(_) =>
    case Sequence(children) => PlainCosts(targets, active, children);
    case Mapping(pairs) => PlainPairCosts(targets, active, pairs);
    case Document(content) =>
      PlainCost(targets, active, content[0]);
      assert content[..0] == [];
      assert Sizes(content) == Sizes([]) + Size(content[0]);
  }

  lemma {:induction false} PlainCosts(targets: seq<Node>, active: set<nat>, ns: seq<Node>)
    requires InTable(targets, active) && forall c | c in ns :: Plain(c)
    ensures Costs(targets, active, ns) == Some(Sizes(ns))
    decreases ns, 0
  {
    if ns == [] {
    } else {
      PlainCosts(targets, active, ns[..|ns| - 1]);
      PlainCost(targets, active, ns[|ns| - 1]);
    }
  }

  lemma {:induction false} PlainPairCosts(targets: seq<Node>, active: set<nat>, ps: seq<Pair>)
    requires InTable(targets, active) && forall p | p in ps :: Plain(p.key) && Plain(p.value)
    ensures PairCosts(targets, active, ps) == Some(PairSizes(ps))
    decreases ps, 0
  {
    if ps == [] {
    } else {
      var k := |ps| - 1;
      PlainPairCosts(targets, active, ps[..k]);
      PlainPairCost(targets, active, ps[k]);
    }
  }

  lemma {:induction false} PlainPairCost(targets: seq<Node>, active: set<nat>, p: Pair)
    requires InTable(targets, active) && Plain(p.key) && Plain(p.value)
    ensures PairCost(targets, active, p) == Some(PairSize(p))
    decreases p, 2
  {
    PlainCost(targets, active, p.key);
    PlainCost(targets, active, p.value);
  }

  // ---------------------------------------------------------------------------------------------
  // The decoder

  class Decoder {
    const targets: seq<Node>
    const greedy: bool
    var aliases: set<nat>
    var decodeCount: nat
    var aliasCount: nat
    var aliasDepth: nat

    /** The aliases being expanded are those of the table, and the budget lasts. */
    ghost predicate Valid()
      reads this
    {
      && InTable(targets, aliases) && aliasDepth == |aliases|
      && aliasCount <= decodeCount && !Excessive(decodeCount, aliasCount)
    }

    /** The decodes outside aliases. */
    ghost function Own(): int
      reads this
    {
      decodeCount - aliasCount
    }

    constructor (targets: seq<Node>, greedy: bool)
      ensures Valid() && this.targets == targets && this.greedy == greedy
      ensures decodeCount == 0 && aliasCount == 0 && aliases == {}
    {
      this.targets, this.greedy := targets, greedy;
      aliases, decodeCount, aliasCount, aliasDepth := {}, 0, 0, 0;
    }

    /** What a walk over `size` nodes may have done: outside aliases it has not met more nodes than
        those, inside an alias none but such as count as aliased. */
    twostate predicate Walked(ok: bool, size: nat)
      reads this
    {
      && (ok ==> Valid() && aliases == old(aliases))
      && Spent(decodeCount, aliasCount)
      && decodeCount >= old(decodeCount)
      && old(Own()) <= Own() <= old(Own()) + if old(aliases) == {} then size else 0
    }

    /** A walk that enters everything meets just the expanded nodes, and gives up only if there is
        no expansion or if the budget is overdrawn. */
    twostate predicate Exact(ok: bool, new cost: Option<nat>)
      reads this
    {
      greedy ==>
        if ok then cost == Some(decodeCount - old(decodeCount))
        else cost.None? || Excessive(decodeCount, aliasCount)
    }

    /** Whether to enter a child; a greedy walk always does. */
    method Choose() returns (enter: bool)
      ensures greedy ==> enter
    {
      enter := *;
      if greedy { enter := true; }
    }

    method Unmarshal(n: Node) returns (ok: bool)
      requires Valid()
      modifies this`aliases, this`decodeCount, this`aliasCount, this`aliasDepth
      ensures Walked(ok, Size(n)) && Exact(ok, Cost(targets, old(aliases), n))
      ensures Own() >= old(Own()) + if old(aliases) == {} then 1 else 0
      decreases Room(targets, aliases), n, 1
    {
      hide Excessive, Sizes, PairSizes, Costs, PairCosts;
      decodeCount := decodeCount + 1;
      if aliasDepth > 0 {
        aliasCount := aliasCount + 1;
      }
      if Excessive(decodeCount, aliasCount) {
        return false;
      }
      var enter := Choose();
      if !enter {
        return true;
      }
      match n {
        case Scalar(_) => return true;
        case Alias(_) => ok := UnmarshalAlias(n);
        case Document(content) => ok := UnmarshalDocument(n);
        case Sequence(_) => ok := UnmarshalSequence(n);
        case Mapping(_) => ok := UnmarshalMapping(n);
      }
    }

    method UnmarshalDocument(n: Node) returns (ok: bool)
      requires Valid() && n.Document?
      modifies this`aliases, this`decodeCount, this`aliasCount, this`aliasDepth
      ensures Walked(ok, Sizes(n.content))
      ensures Exact(ok, if |n.content| == 1 then Cost(targets, old(aliases), n.content[0]) else Some(0))
      decreases Room(targets, aliases), n, 0
    {
      hide Excessive;
      if |n.content| == 1 {
        assert n.content[..0] == [];
        ok := Unmarshal(n.content[0]);
      } else {
        return true;
      }
    }

    /** Expands an alias, unless it is being expanded already. */
    method UnmarshalAlias(n: Node) returns (ok: bool)
      requires Valid() && n.Alias?
      modifies this`aliases, this`decodeCount, this`aliasCount, this`aliasDepth
      ensures Walked(ok, 0) && Exact(ok, Unfolded(targets, old(aliases), n.which))
      decreases Room(targets, aliases), n, 0
    {
      hide Excessive;
      if n.which in aliases || n.which >= |targets| {
        return false;
      }
      LessRoom(targets, aliases, n.which);
      aliases := aliases + {n.which};
      aliasDepth := aliasDepth + 1;
      ok := Unmarshal(targets[n.which]);
      if ok {
        aliasDepth := aliasDepth - 1;
        aliases := aliases - {n.which};
        assert aliases == old(aliases);
      }
    }

    method UnmarshalSequence(n: Node) returns (ok: bool)
      requires Valid() && n.Sequence?
      modifies this`aliases, this`decodeCount, this`aliasCount, this`aliasDepth
      ensures Walked(ok, Sizes(n.children)) && Exact(ok, Costs(targets, old(aliases), n.children))
      decreases Room(targets, aliases), n, 0
    {
      hide Excessive;
      ghost var aliases0 := aliases;
      var i := 0;
      while i < |n.children|
        invariant 0 <= i <= |n.children| && Valid() && aliases == old(aliases) && decodeCount >= old(decodeCount)
        invariant old(Own()) <= Own() <= old(Own()) + if aliases == {} then Sizes(n.children[..i]) else 0
        invariant greedy ==> Costs(targets, aliases, n.children[..i]) == Some(decodeCount - old(decodeCount))
      {
        assert n.children[..i + 1][..i] == n.children[..i];
        SizesGrow(n.children, i + 1);
        ok := Unmarshal(n.children[i]);
        if !ok {
          if Costs(targets, aliases0, n.children[..i + 1]).None? { NoCosts(targets, aliases0, n.children, i + 1); }
          return;
        }
        i := i + 1;
      }
      assert n.children[..i] == n.children;
      return true;
    }

    method UnmarshalMapping(n: Node) returns (ok: bool)
      requires Valid() && n.Mapping?
      modifies this`aliases, this`decodeCount, this`aliasCount, this`aliasDepth
      ensures Walked(ok, PairSizes(n.pairs)) && Exact(ok, PairCosts(targets, old(aliases), n.pairs))
      decreases Room(targets, aliases), n, 0
    {
      hide Excessive, PairCost, PairSize;
      ghost var aliases0 := aliases;
      var unique := Choose();
      if !unique { return true; }
      var i := 0;
      while i < |n.pairs|
        invariant 0 <= i <= |n.pairs| && Valid() && aliases == old(aliases) && decodeCount >= old(decodeCount)
        invariant old(Own()) <= Own() <= old(Own()) + if aliases == {} then PairSizes(n.pairs[..i]) else 0
        invariant greedy ==> PairCosts(targets, aliases, n.pairs[..i]) == Some(decodeCount - old(decodeCount))
      {
        assert n.pairs[..i + 1][..i] == n.pairs[..i];
        PairSizesGrow(n.pairs, i + 1);
        ok := UnmarshalPair(n.pairs[i]);
        if !ok {
          if PairCosts(targets, aliases0, n.pairs[..i + 1]).None? { NoPairCosts(targets, aliases0, n.pairs, i + 1); }
          return;
        }
        i := i + 1;
      }
      assert n.pairs[..i] == n.pairs;
      return true;
    }

    /** A key, and its value unless the key is of no use; or the value of a merge key alone. */
    method UnmarshalPair(p: Pair) returns (ok: bool)
      requires Valid()
      modifies this`aliases, this`decodeCount, this`aliasCount, this`aliasDepth
      ensures Walked(ok, PairSize(p)) && Exact(ok, PairCost(targets, old(aliases), p))
      decreases Room(targets, aliases), p, 0
    {
      hide Excessive;
      if p.key.Scalar? && p.key.isMerge {
        ok := Merge(p.value);
        return;
      }
      ok := Unmarshal(p.key);
      var useful := Choose();
      if !ok || !useful { return; }
      var hashable := Choose();
      if !hashable { return false; }
      ok := Unmarshal(p.value);
    }

    /** Merges a mapping, or mappings from the last one to the first. */
    method Merge(n: Node) returns (ok: bool)
      requires Valid()
      modifies this`aliases, this`decodeCount, this`aliasCount, this`aliasDepth
      ensures Walked(ok, Size(n)) && Exact(ok, MergeCost(targets, old(aliases), n))
      decreases Room(targets, aliases), n, 2
    {
      hide Excessive, PairCosts, PairSizes;
      if Mergeable(targets, n) {
        ok := Unmarshal(n);
      } else if n.Sequence? {
        ok := MergeAll(n);
      } else {
        return false;
      }
    }

    method MergeAll(n: Node) returns (ok: bool)
      requires Valid() && n.Sequence?
      modifies this`aliases, this`decodeCount, this`aliasCount, this`aliasDepth
      ensures Walked(ok, Size(n)) && Exact(ok, MergeCost(targets, old(aliases), n))
      decreases Room(targets, aliases), n, 1
    {
      hide Excessive, PairCosts, PairSizes, Cost, Mergeable, Room;
      NotMergeable(targets, n);
      assert Size(n) >= Sizes(n.children);
      var i := |n.children|;
      assert n.children[..i] == n.children;
      while i > 0
        invariant 0 <= i <= |n.children| && Valid() && aliases == old(aliases) && decodeCount >= old(decodeCount)
        invariant old(Own()) <= Own()
        invariant Own() <= old(Own()) + if aliases == {} then Sizes(n.children) - Sizes(n.children[..i]) else 0
        invariant forall j | i <= j < |n.children| :: Mergeable(targets, n.children[j])
        invariant greedy ==>
                    Plus(Costs(targets, aliases, n.children[..i]), Some(decodeCount - old(decodeCount)))
                    == Costs(targets, aliases, n.children)
      {
        i := i - 1;
        assert n.children[..i + 1][..i] == n.children[..i];
        if !Mergeable(targets, n.children[i]) { return false; }
        ok := Unmarshal(n.children[i]);
        if !ok { return; }
      }
      return true;
    }
  }

  /** What is behind an alias. */
  function Unfolded(targets: seq<Node>, active: set<nat>, which: nat): Option<nat>
    requires InTable(targets, active)
  {
    if which in active || which >= |targets| then None
    else
      LessRoom(targets, active, which);
      Cost(targets, active + {which}, targets[which])
  }

  lemma {:induction false} SizesGrow(ns: seq<Node>, k: nat)
    requires k <= |ns|
    ensures Sizes(ns[..k]) <= Sizes(ns)
    decreases |ns| - k
  {
    if k == |ns| {
      assert ns[..k] == ns;
    } else {
      assert ns[..k + 1][..k] == ns[..k];
      SizesGrow(ns, k + 1);
    }
  }

  lemma {:induction false} PairSizesGrow(ps: seq<Pair>, k: nat)
    requires k <= |ps|
    ensures PairSizes(ps[..k]) <= PairSizes(ps)
    decreases |ps| - k
  {
    if k == |ps| {
      assert ps[..k] == ps;
    } else {
      assert ps[..k + 1][..k] == ps[..k];
      PairSizesGrow(ps, k + 1);
    }
  }

  /** Every document is decoded or refused in the end, and in as many steps as a constant times the
      number of its own nodes, whatever its aliases refer to.  If everything in it is wanted, the
      steps are those of the full expansion, and it is refused only if it has none or if it asks for
      too much. */
  method Decode(root: Node, targets: seq<Node>, greedy: bool) returns (ok: bool, decodes: nat, aliased: nat)
    ensures decodes <= Max(1000, 100 * Size(root) + 100) + 1
    ensures ok ==> decodes <= Max(1000, 100 * Size(root) + 100) && !Excessive(decodes, aliased)
    ensures aliased < decodes && decodes - aliased <= Size(root)
    ensures greedy && ok ==> Cost(targets, {}, root) == Some(decodes)
    ensures greedy && !ok ==> Cost(targets, {}, root).None? || Excessive(decodes, aliased)
  {
    hide Excessive, Spent, Cost;
    var decoder := new Decoder(targets, greedy);
    ok := decoder.Unmarshal(root);
    decodes, aliased := decoder.decodeCount, decoder.aliasCount;
    SpentBound(decodes, aliased, Size(root));
    if ok { BudgetBound(decodes, aliased, Size(root)); }
  }

  // ---------------------------------------------------------------------------------------------
  // A document that would expand exponentially

  /** Level `k` is a sequence of two aliases of the level below. */
  function Level(k: nat): Node {
    if k == 0 then Scalar(false) else Sequence([Alias(2 * k - 2), Alias(2 * k - 1)])
  }

  function Levels(k: nat): seq<Node> {
    seq(k, i requires i >= 0 => Level(i))
  }

  /** Two aliases refer to each level but the last. */
  function LevelTargets(k: nat): seq<Node> {
    seq(2 * k, i requires i >= 0 => Level(i / 2))
  }

  function Doubled(k: nat): nat {
    if k == 0 then 1 else 2 * Doubled(k - 1) + 3
  }

  lemma {:induction false} LevelCost(n: nat, active: set<nat>, k: nat)
    requires k <= n && InTable(LevelTargets(n), active) && forall i | i in active :: i >= 2 * k
    ensures Cost(LevelTargets(n), active, Level(k)) == Some(Doubled(k))
    decreases k
  {
    var targets := LevelTargets(n);
    if k == 0 {
    } else {
      var (a, b) := (2 * k - 2, 2 * k - 1);
      assert targets[a] == targets[b] == Level(k - 1);
      LessRoom(targets, active, a);
      LessRoom(targets, active, b);
      LevelCost(n, active + {a}, k - 1);
      LevelCost(n, active + {b}, k - 1);
      var one := Cost(targets, active, Alias(a));
      assert one == Cost(targets, active, Alias(b)) == Some(1 + Doubled(k - 1));
      hide Costs;
      TwoCosts(targets, active, Alias(a), Alias(b));
    }
  }

  lemma TwoCosts(targets: seq<Node>, active: set<nat>, a: Node, b: Node)
    requires InTable(targets, active)
    ensures Costs(targets, active, [a, b]) == Plus(Cost(targets, active, a), Cost(targets, active, b))
  {
    hide Cost;
    assert [a, b][..1] == [a] && [a][..0] == [];
    assert Costs(targets, active, []) == Some(0);
    assert Costs(targets, active, [a]) == Cost(targets, active, a);
  }

  lemma {:induction false} LevelsCost(n: nat, k: nat)
    requires k <= n + 1
    ensures var c := Costs(LevelTargets(n), {}, Levels(k));
            c.Some? && (k > 0 ==> c.value >= Doubled(k - 1))
    ensures Sizes(Levels(k)) == if k == 0 then 0 else 3 * k - 2
  {
    if k == 0 {
    } else {
      assert Levels(k)[..k - 1] == Levels(k - 1);
      LevelsCost(n, k - 1);
      LevelCost(n, {}, k - 1);
      LevelSize(k - 1);
    }
  }

  lemma LevelSize(k: nat)
    ensures Size(Level(k)) == if k == 0 then 1 else 3
  {
    if k > 0 {
      var children := [Alias(2 * k - 2), Alias(2 * k - 1)];
      var first := children[..1];
      assert first[..0] == [] && first[0] == Alias(2 * k - 2);
      assert Sizes(first) == Sizes([]) + Size(first[0]) == 1;
      assert Sizes(children) == Sizes(first) + Size(children[1]) == 2;
    }
  }

  lemma DoubledGrows(k: nat)
    ensures Doubled(k) >= PowerOfTwo(k)
  {}

  /** With 3k+2 nodes a document can ask for more than two to the power of k decodes. */
  lemma ExponentialExpansion(k: nat)
    ensures Size(Sequence(Levels(k + 1))) == 3 * k + 2
    ensures var c := Cost(LevelTargets(k), {}, Sequence(Levels(k + 1)));
            c.Some? && c.value > PowerOfTwo(k)
  {
    LevelsCost(k, k + 1);
    DoubledGrows(k);
  }
}
