/** Finite sets of numbers as ascending sequences. */
module Ascending {

  ghost predicate StrictlyAscending(s: seq<nat>) {
    forall i, j :: 0 <= i < j < |s| ==> s[i] < s[j]
  }

  lemma MaximumExists(s: set<nat>)
    requires s != {}
    ensures exists m :: m in s && forall x :: x in s ==> x <= m
  {
    var pick :| pick in s;
    if s - {pick} != {} {
      MaximumExists(s - {pick});
      var m :| m in s - {pick} && forall x :: x in s - {pick} ==> x <= m;
      assert forall x :: x in s ==> x == pick || x in s - {pick};
      assert (if pick > m then pick else m) in s;
    } else {
      assert s == {pick};
    }
  }

  function Maximum(s: set<nat>): (m: nat)
    requires s != {}
    ensures m in s && forall x :: x in s ==> x <= m
  {
    MaximumExists(s);
    var m :| m in s && forall x :: x in s ==> x <= m;
    m
  }

  /** The members in ascending order. */
  function Sorted(s: set<nat>): (r: seq<nat>)
    ensures |r| == |s| && StrictlyAscending(r)
    ensures forall x :: x in r <==> x in s
  {
    if s == {} then []
    else
      var m := Maximum(s);
      var below := Sorted(s - {m});
      assert forall x :: x in below ==> x in s - {m};
      below + [m]
  }

  /** How many leading entries are at or below `t`. */
  function CountUpTo(s: seq<nat>, t: nat): (n: nat)
    ensures n <= |s|
  {
    if |s| == 0 || s[0] > t then 0 else 1 + CountUpTo(s[1..], t)
  }

  lemma {:induction false} CountSplits(s: seq<nat>, t: nat)
    requires StrictlyAscending(s)
    ensures forall i :: 0 <= i < CountUpTo(s, t) ==> s[i] <= t
    ensures forall i :: CountUpTo(s, t) <= i < |s| ==> s[i] > t
  {
    if |s| > 0 && s[0] <= t {
      CountSplits(s[1..], t);
      assert forall i :: 1 <= i < |s| ==> s[i] == s[1..][i - 1];
    }
  }

  /** Two ascending sequences with the same members are the same sequence. */
  lemma {:induction false} AscendingUnique(a: seq<nat>, b: seq<nat>)
    requires StrictlyAscending(a) && StrictlyAscending(b)
    requires forall x :: x in a <==> x in b
    ensures a == b
  {
    if |a| > 0 {
      assert a[0] in b;
    }
    if |b| > 0 {
      assert b[0] in a;
    }
    if |a| > 0 && |b| > 0 {
      AscendingHeads(a, b);
      forall x ensures x in a[1..] <==> x in b[1..] {
        TailMembers(a, x);
        TailMembers(b, x);
      }
      AscendingUnique(a[1..], b[1..]);
      assert a == [a[0]] + a[1..] && b == [b[0]] + b[1..];
    }
  }

  lemma AscendingHeads(a: seq<nat>, b: seq<nat>)
    requires StrictlyAscending(a) && StrictlyAscending(b) && |a| > 0 && |b| > 0
    requires a[0] in b && b[0] in a
    ensures a[0] == b[0]
  {
    var i :| 0 <= i < |b| && b[i] == a[0];
    var j :| 0 <= j < |a| && a[j] == b[0];
  }

  lemma TailMembers(a: seq<nat>, x: nat)
    requires StrictlyAscending(a) && |a| > 0
    ensures x in a[1..] <==> x in a && x != a[0]
  {
    if x in a && x != a[0] {
      var i :| 0 <= i < |a| && a[i] == x;
      assert a[1..][i - 1] == x;
    }
  }
}

/** The keyed exclusion sets: gap trees, absence witnesses, and what they prove. */
module Exclusion {
  import opened Wrappers
  import opened Bytes
  import opened Crypto
  import opened Merkle
  import opened BatchTree
  import opened Ascending

  /** The upper sentinel, 2^253 - 1: the largest value of the ordering domain. */
  const UPPER: nat := SPAN253 - 1

  // ---- Byte keys and the ordering domain ----

  function TruncateKey(key: Bytes32): Bytes32 {
    key[31 := key[31] % 0x20]
  }

  function UpperSentinel(): Bytes32 {
    seq(31, _ => 0xff) + [0x1f]
  }

  /** A key's place in the ordering domain. */
  function OrderOf(key: Bytes32): nat {
    LE(TruncateKey(key))
  }

  lemma SplitTop(b: Bytes32)
    ensures LE(b) == LE(b[..31]) + Pow256(31) * b[31]
    ensures LE(b[..31]) < Pow256(31)
  {
    assert b == b[..31] + [b[31]];
    LEConcat(b[..31], [b[31]]);
    LEBound(b[..31]);
    assert LE([b[31]]) == b[31];
  }

  /** Clearing bits 253 and above is reduction modulo 2^253. */
  lemma TruncationIsReduction(key: Bytes32)
    ensures OrderOf(key) == LE(key) % SPAN253
    ensures TruncateKey(key) == key <==> LE(key) < SPAN253
  {
    Pow256Of32();
    var t := TruncateKey(key);
    SplitTop(key);
    SplitTop(t);
    assert t[..31] == key[..31];
    var low, top := LE(key[..31]), key[31];
    assert LE(key) == (low + Pow256(31) * (top % 0x20)) + SPAN253 * (top / 0x20);
    if LE(t) == LE(key) {
      LEInjective(t, key);
    }
  }

  lemma {:induction false} RepeatedFF(k: nat)
    ensures LE(seq(k, _ => 0xff)) == Pow256(k) - 1
  {
    if k > 0 {
      RepeatedFF(k - 1);
      assert seq(k, _ => 0xff)[1..] == seq(k - 1, _ => 0xff);
    }
  }

  lemma UpperSentinelValue()
    ensures LE(UpperSentinel()) == UPPER
    ensures UpperSentinel() == ToLE(UPPER, 32)
  {
    Pow256Of32();
    RepeatedFF(31);
    SplitTop(UpperSentinel());
    assert UpperSentinel()[..31] == seq(31, _ => 0xff);
    ToLELE(UpperSentinel());
  }

  lemma OrderBytes(n: nat)
    requires n < SPAN253
    ensures LE(ToLE(n, 32)) == n && Value(ToLE(n, 32)) == n
    ensures TruncateKey(ToLE(n, 32)) == ToLE(n, 32)
  {
    Pow256Of32();
    LEToLE(n, 32);
    TruncationIsReduction(ToLE(n, 32));
  }

  /** The constant-time comparison walks every byte, most significant first, and decides
      integer order. */
  method CtLess(a: Bytes32, b: Bytes32) returns (less: bool)
    ensures less == (LE(a) < LE(b))
  {
    less := false;
    var equal := true;
    var i := 32;
    while i > 0
      invariant 0 <= i <= 32
      invariant less == (LE(a[i..]) < LE(b[i..]))
      invariant equal == (LE(a[i..]) == LE(b[i..]))
    {
      i := i - 1;
      assert a[i..] == [a[i]] + a[i + 1..] && b[i..] == [b[i]] + b[i + 1..];
      less := less || (equal && a[i] < b[i]);
      equal := equal && a[i] == b[i];
    }
    assert a[0..] == a && b[0..] == b;
  }

  // ---- Absence ----

  datatype AbsenceWitness = AbsenceWitness(low: Bytes32, high: Bytes32, path: Witness)

  predicate AbsenceType(c: Scheme, w: AbsenceWitness) {
    WitnessType(c, w.path)
  }

  function GapLeaf(c: Scheme, low: Bytes32, high: Bytes32): F {
    Poseidon(c, [GAP, Value(low), Value(high)])
  }

  /** Whether `key` is shown absent from the set `root` names. */
  predicate VerifiesAbsent(c: Scheme, key: Bytes32, w: AbsenceWitness, root: Bytes32) {
    && TruncateKey(w.low) == w.low && TruncateKey(w.high) == w.high
    && LE(w.low) < OrderOf(key) < LE(w.high)
    && RootFrom(c, GapLeaf(c, w.low, w.high), w.path) == root
  }

  /** The check as it runs: range, both constant-time comparisons, then the fold. */
  method CheckAbsent(c: Scheme, key: Bytes32, w: AbsenceWitness, root: Bytes32) returns (absent: bool)
    requires AbsenceType(c, w)
    ensures absent == VerifiesAbsent(c, key, w, root)
  {
    if TruncateKey(w.low) != w.low || TruncateKey(w.high) != w.high {
      return false;
    }
    var t := TruncateKey(key);
    var above := CtLess(w.low, t);
    var below := CtLess(t, w.high);
    var recomputed := FoldLevels(c, GapLeaf(c, w.low, w.high), w.path);
    return above && below && recomputed == root;
  }

  // ---- The set and its gap tree ----

  /** Both sentinels with the keys in order between them. */
  function Bounds(keys: set<nat>): (b: seq<nat>)
    ensures |b| == |keys| + 2
  {
    [0] + Sorted(keys) + [UPPER]
  }

  function GapPreimage(keys: set<nat>, i: nat): seq<F>
    requires i <= |keys|
  {
    [GAP, Bounds(keys)[i], Bounds(keys)[i + 1]]
  }

  function GapLeaves(c: Scheme, keys: set<nat>): (leaves: seq<F>)
    ensures |leaves| == |keys| + 1
  {
    seq(|keys| + 1, i requires 0 <= i <= |keys| => Poseidon(c, GapPreimage(keys, i)))
  }

  /** What a tree of this depth holds of the leaves offered to it. */
  function Kept<T>(c: Scheme, leaves: seq<T>): (kept: seq<T>)
    ensures |kept| <= Pow2(c.depth)
  {
    if |leaves| <= Pow2(c.depth) then leaves else leaves[..Pow2(c.depth)]
  }

  lemma KeptGrows<T>(c: Scheme, leaves: seq<T>, i: nat)
    requires i < |leaves|
    ensures Kept(c, leaves[..i + 1])
         == if |Kept(c, leaves[..i])| < Pow2(c.depth) then Kept(c, leaves[..i]) + [leaves[i]] else Kept(c, leaves[..i])
  {
    assert leaves[..i + 1] == leaves[..i] + [leaves[i]];
  }

  function SetRoot(c: Scheme, keys: set<nat>): Bytes32 {
    ToBytes(RootOf(c, Kept(c, GapLeaves(c, keys))))
  }

  ghost predicate InDomain(keys: set<nat>) {
    forall k :: k in keys ==> k < SPAN253
  }

  lemma BoundsAscend(keys: set<nat>, i: nat, j: nat)
    requires InDomain(keys) && i <= j < |keys| + 2
    ensures Bounds(keys)[i] <= Bounds(keys)[j] <= UPPER
  {
    var sorted := Sorted(keys);
    if 1 <= j <= |keys| {
      assert Bounds(keys)[j] == sorted[j - 1];
    }
    if 1 <= i <= |keys| {
      assert Bounds(keys)[i] == sorted[i - 1];
    }
  }

  /** Nothing strictly inside a gap is a key. */
  lemma GapExcludes(keys: set<nat>, i: nat, t: nat)
    requires InDomain(keys) && i <= |keys|
    requires Bounds(keys)[i] < t < Bounds(keys)[i + 1]
    ensures t !in keys
  {
    var sorted := Sorted(keys);
    forall j | 0 <= j < |sorted|
      ensures sorted[j] != t
    {
      assert Bounds(keys)[j + 1] == sorted[j];
      if j + 1 <= i {
        BoundsAscend(keys, j + 1, i);
      } else {
        BoundsAscend(keys, i + 1, j + 1);
      }
    }
  }

  // ---- Soundness ----

  /** Every preimage behind one absence claim: the path's, the tree's at that index, the
      claimed gap's, and the set's own gap there. */
  ghost function AbsenceQueries(c: Scheme, keys: set<nat>, w: AbsenceWitness): set<seq<F>> {
    InclusionQueries(c, Kept(c, GapLeaves(c, keys)), GapLeaf(c, w.low, w.high), w.path.index, Values(w.path.siblings))
    + {[GAP, Value(w.low), Value(w.high)]}
    + (if w.path.index <= |keys| then {GapPreimage(keys, w.path.index)} else {})
  }

  /** A bound in the ordering domain is below the field order, so reduction leaves it alone. */
  lemma BoundIsCanonical(b: Bytes32)
    requires TruncateKey(b) == b
    ensures Value(b) == LE(b)
  {
    TruncationIsReduction(b);
  }

  lemma KeptAt<T>(c: Scheme, leaves: seq<T>, i: nat)
    requires i < |Kept(c, leaves)|
    ensures i < |leaves| && Kept(c, leaves)[i] == leaves[i]
  {
  }

  /** The witnessed gap is one of the set's own gaps. */
  lemma WitnessedGapIsReal(c: Scheme, keys: set<nat>, w: AbsenceWitness, q: set<seq<F>>)
    requires Primitives(c) && AbsenceType(c, w)
    requires RootFrom(c, GapLeaf(c, w.low, w.high), w.path) == SetRoot(c, keys)
    requires AbsenceQueries(c, keys, w) <= q && CollisionFree(c, q)
    ensures w.path.index <= |keys| && [GAP, Value(w.low), Value(w.high)] == GapPreimage(keys, w.path.index)
  {
    var leaves := Kept(c, GapLeaves(c, keys));
    var leaf := GapLeaf(c, w.low, w.high);
    var claimed := [GAP, Value(w.low), Value(w.high)];
    FoldInField(c, leaf, w.path);
    RootInField(c, leaves);
    ToBytesInjective(Fold(c, leaf, w.path.index, Values(w.path.siblings)), RootOf(c, leaves));
    NonEmpty(c, q, claimed);
    InclusionSound(c, leaves, leaf, w.path.index, Values(w.path.siblings), q);
    KeptAt(c, GapLeaves(c, keys), w.path.index);
    Distinct(c, q, claimed, GapPreimage(keys, w.path.index));
  }

  lemma RootInField(c: Scheme, leaves: seq<F>)
    requires Primitives(c)
    ensures InField(RootOf(c, leaves))
  {
    HashInField(c, [NodeAt(c, leaves, c.depth - 1, 0), NodeAt(c, leaves, c.depth - 1, 1)]);
  }

  /** Gap-tree soundness, for any witness whatever: what verifies absent is absent. */
  lemma AbsenceSound(c: Scheme, keys: set<nat>, key: Bytes32, w: AbsenceWitness, q: set<seq<F>>)
    requires Primitives(c) && InDomain(keys) && AbsenceType(c, w)
    requires VerifiesAbsent(c, key, w, SetRoot(c, keys))
    requires AbsenceQueries(c, keys, w) <= q && CollisionFree(c, q)
    ensures OrderOf(key) !in keys
  {
    WitnessedGapIsReal(c, keys, w, q);
    BoundIsCanonical(w.low);
    BoundIsCanonical(w.high);
    var claimed, own := [GAP, Value(w.low), Value(w.high)], GapPreimage(keys, w.path.index);
    assert claimed[1] == own[1] && claimed[2] == own[2];
    GapExcludes(keys, w.path.index, OrderOf(key));
  }

  // ---- Completeness ----

  /** The gap index the operator picks for a key: one past the keys at or below it. */
  function GapIndex(keys: set<nat>, t: nat): (i: nat)
    ensures i <= |keys|
  {
    CountUpTo(Sorted(keys), t)
  }

  function GapLeafBytes(c: Scheme, keys: set<nat>): seq<Bytes32> {
    seq(|keys| + 1, i requires 0 <= i <= |keys| => ToBytes(Poseidon(c, GapPreimage(keys, i))))
  }

  /** The gap picked for a key, with its path in the tree of the gaps that were appended. */
  function AbsenceOf(c: Scheme, keys: set<nat>, key: Bytes32): AbsenceWitness {
    var i := GapIndex(keys, OrderOf(key));
    AbsenceWitness(ToLE(Bounds(keys)[i], 32), ToLE(Bounds(keys)[i + 1], 32),
                   Witness(i, PathBytes(c, Kept(c, GapLeafBytes(c, keys)), i)))
  }

  /** The picked gap was appended: always so while the tree has room for every gap. */
  predicate GapKept(c: Scheme, keys: set<nat>, key: Bytes32) {
    GapIndex(keys, OrderOf(key)) < Pow2(c.depth)
  }

  /** The picked gap strictly contains the key exactly when it is neither a member nor a
      sentinel. */
  lemma PickedGapContains(keys: set<nat>, t: nat)
    requires InDomain(keys) && t < SPAN253
    ensures var i := GapIndex(keys, t);
            Bounds(keys)[i] < t < Bounds(keys)[i + 1] <==> t !in keys && 0 < t < UPPER
    ensures Bounds(keys)[GapIndex(keys, t)] <= t
    ensures t < UPPER ==> t < Bounds(keys)[GapIndex(keys, t) + 1]
  {
    var sorted := Sorted(keys);
    var i := GapIndex(keys, t);
    CountSplits(sorted, t);
    assert i < |keys| ==> Bounds(keys)[i + 1] == sorted[i] && sorted[i] > t;
    assert i > 0 ==> Bounds(keys)[i] == sorted[i - 1] && sorted[i - 1] <= t;
    if i > 0 && sorted[i - 1] == t {
      assert t in sorted;
    }
    if t in keys {
      assert t in sorted;
      var j :| 0 <= j < |sorted| && sorted[j] == t;
      assert j < i;
      BoundsAscend(keys, j + 1, i);
    }
  }

  lemma GapLeafValues(c: Scheme, keys: set<nat>)
    requires Primitives(c)
    ensures Values(GapLeafBytes(c, keys)) == GapLeaves(c, keys)
  {
    forall i | 0 <= i <= |keys|
      ensures Values(GapLeafBytes(c, keys))[i] == GapLeaves(c, keys)[i]
    {
      HashInField(c, GapPreimage(keys, i));
      ValueOfToBytes(Poseidon(c, GapPreimage(keys, i)));
    }
  }

  lemma GapLeafAt(c: Scheme, keys: set<nat>, i: nat)
    requires InDomain(keys) && i <= |keys|
    ensures ToBytes(GapLeaf(c, ToLE(Bounds(keys)[i], 32), ToLE(Bounds(keys)[i + 1], 32))) == GapLeafBytes(c, keys)[i]
  {
    BoundsAscend(keys, i, i + 1);
    OrderBytes(Bounds(keys)[i]);
    OrderBytes(Bounds(keys)[i + 1]);
  }

  lemma KeptValues(c: Scheme, keys: set<nat>)
    requires Primitives(c)
    ensures Values(Kept(c, GapLeafBytes(c, keys))) == Kept(c, GapLeaves(c, keys))
  {
    GapLeafValues(c, keys);
  }

  /** The picked gap's path always verifies; what decides is containment. */
  lemma AbsencePathVerifies(c: Scheme, keys: set<nat>, key: Bytes32)
    requires Primitives(c) && InDomain(keys) && GapKept(c, keys, key)
    ensures var w := AbsenceOf(c, keys, key);
            RootFrom(c, GapLeaf(c, w.low, w.high), w.path) == SetRoot(c, keys)
  {
    var i := GapIndex(keys, OrderOf(key));
    var leaves := Kept(c, GapLeafBytes(c, keys));
    BoundsAscend(keys, i, i + 1);
    OrderBytes(Bounds(keys)[i]);
    OrderBytes(Bounds(keys)[i + 1]);
    KeptValues(c, keys);
    PathVerifies(c, leaves, i);
    assert Value(leaves[i]) == Kept(c, GapLeaves(c, keys))[i] == Poseidon(c, GapPreimage(keys, i));
  }

  /** Completeness, exactly: for a key whose gap was appended, the operator's witness verifies
      if and only if the key's truncation is neither present nor a sentinel. */
  lemma AbsenceComplete(c: Scheme, keys: set<nat>, key: Bytes32)
    requires Primitives(c) && InDomain(keys) && GapKept(c, keys, key)
    ensures VerifiesAbsent(c, key, AbsenceOf(c, keys, key), SetRoot(c, keys))
       <==> OrderOf(key) !in keys && 0 < OrderOf(key) < UPPER
    ensures AbsenceType(c, AbsenceOf(c, keys, key))
  {
    var i := GapIndex(keys, OrderOf(key));
    TruncationIsReduction(key);
    PickedGapContains(keys, OrderOf(key));
    AbsencePathVerifies(c, keys, key);
    BoundsAscend(keys, i, i + 1);
    OrderBytes(Bounds(keys)[i]);
    OrderBytes(Bounds(keys)[i + 1]);
  }

  /** The set as its owner holds it: truncated keys, ordered by the integers they name. */
  class ExclusionSet {
    const c: Scheme
    var keys: set<nat>

    ghost predicate Valid()
      reads this
    {
      Primitives(c) && InDomain(keys)
    }

    constructor (c: Scheme)
      requires Primitives(c)
      ensures Valid() && this.c == c && keys == {}
    {
      this.c := c;
      keys := {};
    }

    /** Inserts a key's truncation; a repeat changes nothing. */
    method Insert(key: Bytes32)
      requires Valid()
      modifies this
      ensures Valid() && keys == old(keys) + {OrderOf(key)}
    {
      TruncationIsReduction(key);
      keys := keys + {OrderOf(key)};
    }

    /** Every truncated key, ascending. */
    method Keys() returns (list: seq<Bytes32>)
      requires Valid()
      ensures list == KeyList(keys)
    {
      list := [];
      var sorted := Sorted(keys);
      for i := 0 to |sorted|
        invariant list == KeyList(keys)[..i]
      {
        list := list + [ToLE(sorted[i], 32)];
      }
    }

    /** The gap tree over the current keys. A full tree refuses the rest silently. */
    method BuildTree() returns (tree: BatchTree.Tree)
      requires Valid()
      ensures fresh(tree) && tree.Valid() && tree.c == c
      ensures tree.leaves == Kept(c, GapLeafBytes(c, keys))
    {
      tree := new BatchTree.Tree(c);
      var bounds := Bounds(keys);
      ghost var all := GapLeafBytes(c, keys);
      for i := 0 to |bounds| - 1
        invariant fresh(tree) && tree.Valid() && tree.c == c
        invariant tree.leaves == Kept(c, all[..i])
      {
        GapLeafAt(c, keys, i);
        var leaf := ToBytes(GapLeaf(c, ToLE(bounds[i], 32), ToLE(bounds[i + 1], 32)));
        KeptGrows(c, all, i);
        var position := tree.Append(leaf);
      }
      assert all[..|all|] == all;
    }

    /** The current root. */
    method Root() returns (root: Bytes32)
      requires Valid()
      ensures root == SetRoot(c, keys)
    {
      var tree := BuildTree();
      root := tree.Root();
      KeptValues(c, keys);
    }

    /** The gap one past the keys at or below the key's truncation, with its path. None
        stands for the panic on a gap a full tree did not take. */
    method AbsenceFor(key: Bytes32) returns (w: Option<AbsenceWitness>)
      requires Valid()
      ensures w == if GapKept(c, keys, key) then Some(AbsenceOf(c, keys, key)) else None
    {
      var position := GapIndex(keys, OrderOf(key));
      var bounds := Bounds(keys);
      var tree := BuildTree();
      var path := tree.WitnessAt(position);
      if path.None? {
        return None;
      }
      return Some(AbsenceWitness(ToLE(bounds[position], 32), ToLE(bounds[position + 1], 32), path.value));
    }
  }

  function KeyList(keys: set<nat>): (list: seq<Bytes32>)
    ensures |list| == |keys|
  {
    var sorted := Sorted(keys);
    seq(|sorted|, i requires 0 <= i < |sorted| => ToLE(sorted[i], 32))
  }

  /** The set a list of served keys rebuilds: every entry inserted. */
  function Rebuilt(list: seq<Bytes32>): set<nat> {
    set i | 0 <= i < |list| :: OrderOf(list[i])
  }

  /** A member rebuilding from the served list holds the very same set, so the same root. */
  lemma RebuiltIsSame(keys: set<nat>)
    requires InDomain(keys)
    ensures Rebuilt(KeyList(keys)) == keys
  {
    var sorted := Sorted(keys);
    var list := KeyList(keys);
    forall i | 0 <= i < |list| ensures OrderOf(list[i]) == sorted[i] {
      assert sorted[i] in sorted;
      OrderBytes(sorted[i]);
    }
    forall k | k in keys ensures k in Rebuilt(list) {
      assert k in sorted;
      var i :| 0 <= i < |sorted| && sorted[i] == k;
      assert OrderOf(list[i]) == k;
    }
    forall k | k in Rebuilt(list) ensures k in keys {
      var i :| 0 <= i < |list| && OrderOf(list[i]) == k;
      assert sorted[i] in sorted;
    }
  }
}
