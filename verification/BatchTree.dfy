/** The accumulator crate's tree and witnesses: byte values, rebuilt level by level. */
module BatchTree {
  import opened Wrappers
  import opened Bytes
  import opened Crypto
  import opened Merkle

  /** A leaf's position and its sibling hashes, leaf upward. */
  datatype Witness = Witness(index: nat, siblings: seq<Bytes32>)

  /** What the type itself guarantees of a witness: one sibling a level, and an index that
      names a leaf. */
  predicate WitnessType(c: Scheme, w: Witness) {
    |w.siblings| == c.depth && w.index < Pow2(c.depth)
  }

  function NewWitness(c: Scheme, index: nat, siblings: seq<Bytes32>): Option<Witness> {
    if index >= Pow2(c.depth) then None else Some(Witness(index, siblings))
  }

  function Values(leaves: seq<Bytes32>): (values: seq<F>)
    ensures |values| == |leaves|
  {
    seq(|leaves|, i requires 0 <= i < |leaves| => Value(leaves[i]))
  }

  function TreeRoot(c: Scheme, leaves: seq<Bytes32>): Bytes32 {
    ToBytes(RootOf(c, Values(leaves)))
  }

  function RootFrom(c: Scheme, leaf: F, w: Witness): Bytes32 {
    ToBytes(Fold(c, leaf, w.index, Values(w.siblings)))
  }

  /** Whether a leaf value and witness reproduce `root`. */
  predicate Verifies(c: Scheme, value: Bytes32, w: Witness, root: Bytes32) {
    RootFrom(c, Value(value), w) == root
  }

  function HashNode(c: Scheme, left: Bytes32, right: Bytes32): Bytes32 {
    ToBytes(Poseidon(c, [Value(left), Value(right)]))
  }

  function EmptyBytes(c: Scheme, level: nat): Bytes32 {
    ToBytes(EmptyNode(c, level))
  }

  /** The bytes of a node: a leaf stands for itself, an interior node is canonical. */
  function NodeBytes(c: Scheme, leaves: seq<Bytes32>, level: nat, index: nat): Bytes32 {
    if level == 0 && index < |leaves| then leaves[index] else ToBytes(NodeAt(c, Values(leaves), level, index))
  }

  /** These are the occupied nodes of a level. */
  ghost predicate IsLevel(c: Scheme, leaves: seq<Bytes32>, nodes: seq<Bytes32>, level: nat) {
    && |nodes| == Width(|leaves|, level)
    && forall i :: 0 <= i < |nodes| ==> nodes[i] == NodeBytes(c, leaves, level, i)
  }

  function PathBytes(c: Scheme, leaves: seq<Bytes32>, position: nat): (path: seq<Bytes32>)
    ensures |path| == c.depth
  {
    seq(c.depth, level requires 0 <= level => NodeBytes(c, leaves, level, Sibling(Shr(position, level))))
  }

  /** The number of bits of `n`. */
  function BitLength(n: nat): nat {
    if n == 0 then 0 else 1 + BitLength(n / 2)
  }

  /** The levels below which a path can meet a node some leaf lies under. */
  function OccupiedHeight(slots: nat): nat {
    if slots <= 1 then 0 else BitLength(slots - 1)
  }

  /** A path cut at a height and refilled with each level's empty value. */
  function Refilled(c: Scheme, prefix: seq<Bytes32>): (path: seq<Bytes32>)
    ensures |path| == c.depth
  {
    seq(c.depth, level requires 0 <= level => if level < |prefix| then prefix[level] else EmptyBytes(c, level))
  }

  /** The witness a truncated path names, if it fits the depth. */
  function PrefixWitness(c: Scheme, index: nat, prefix: seq<Bytes32>): Option<Witness> {
    if |prefix| > c.depth then None else NewWitness(c, index, Refilled(c, prefix))
  }

  // ---- Nodes as bytes ----

  lemma {:induction false} NodeInField(c: Scheme, leaves: seq<Bytes32>, level: nat, index: nat)
    requires Primitives(c)
    ensures InField(NodeAt(c, Values(leaves), level, index))
  {
    if level > 0 {
      HashInField(c, [NodeAt(c, Values(leaves), level - 1, 2 * index),
                      NodeAt(c, Values(leaves), level - 1, 2 * index + 1)]);
    }
  }

  lemma NodeBytesValue(c: Scheme, leaves: seq<Bytes32>, level: nat, index: nat)
    requires Primitives(c)
    ensures Value(NodeBytes(c, leaves, level, index)) == NodeAt(c, Values(leaves), level, index)
  {
    NodeInField(c, leaves, level, index);
    ValueOfToBytes(NodeAt(c, Values(leaves), level, index));
  }

  lemma HashOfNodes(c: Scheme, leaves: seq<Bytes32>, level: nat, index: nat)
    requires Primitives(c)
    ensures HashNode(c, NodeBytes(c, leaves, level, 2 * index), NodeBytes(c, leaves, level, 2 * index + 1))
         == NodeBytes(c, leaves, level + 1, index)
  {
    NodeBytesValue(c, leaves, level, 2 * index);
    NodeBytesValue(c, leaves, level, 2 * index + 1);
  }

  lemma EmptyBytesStep(c: Scheme, level: nat)
    requires Primitives(c)
    ensures HashNode(c, EmptyBytes(c, level), EmptyBytes(c, level)) == EmptyBytes(c, level + 1)
  {
    if level > 0 {
      HashInField(c, [EmptyNode(c, level - 1), EmptyNode(c, level - 1)]);
    }
    ValueOfToBytes(EmptyNode(c, level));
  }

  lemma EmptyLeaf(c: Scheme)
    ensures EmptyBytes(c, 0) == ZERO32
  {
    ToLEZero(32);
    assert ZERO32 == seq(32, _ => 0);
  }

  lemma NodeBytesPastWidth(c: Scheme, leaves: seq<Bytes32>, level: nat, index: nat)
    requires index >= Width(|leaves|, level)
    ensures NodeBytes(c, leaves, level, index) == EmptyBytes(c, level)
  {
    NodePastWidth(c, Values(leaves), level, index);
  }

  lemma {:induction false} PathOfAt(c: Scheme, leaves: seq<F>, level: nat, index: nat, count: nat, i: nat)
    requires i < count
    ensures PathOf(c, leaves, level, index, count)[i] == NodeAt(c, leaves, level + i, Sibling(Shr(index, i)))
    decreases count
  {
    if i > 0 {
      PathOfAt(c, leaves, level + 1, index / 2, count - 1, i - 1);
    }
  }

  lemma PathValues(c: Scheme, leaves: seq<Bytes32>, position: nat)
    requires Primitives(c)
    ensures Values(PathBytes(c, leaves, position)) == PathOf(c, Values(leaves), 0, position, c.depth)
  {
    var path := PathBytes(c, leaves, position);
    forall i | 0 <= i < c.depth
      ensures Values(path)[i] == PathOf(c, Values(leaves), 0, position, c.depth)[i]
    {
      PathOfAt(c, Values(leaves), 0, position, c.depth, i);
      NodeBytesValue(c, leaves, i, Sibling(Shr(position, i)));
    }
  }

  // ---- Heights ----

  lemma {:induction false} BitLengthCovers(n: nat)
    ensures Width(n + 1, BitLength(n)) == 1
    ensures n > 0 ==> Width(n + 1, BitLength(n) - 1) == 2
  {
    if n > 0 {
      BitLengthCovers(n / 2);
      WidthShift(n + 1, BitLength(n / 2));
      assert (n + 2) / 2 == n / 2 + 1;
      if n / 2 > 0 {
        WidthShift(n + 1, BitLength(n / 2) - 1);
      }
    }
  }

  /** The occupied height is the least level with at most one occupied node. */
  lemma OccupiedHeightIsLeast(slots: nat)
    ensures Width(slots, OccupiedHeight(slots)) <= 1
    ensures OccupiedHeight(slots) > 0 ==> Width(slots, OccupiedHeight(slots) - 1) > 1
  {
    if slots > 1 {
      BitLengthCovers(slots - 1);
    }
  }

  lemma {:induction false} WidthStays(slots: nat, low: nat, high: nat)
    requires low <= high && Width(slots, low) <= 1
    ensures Width(slots, high) <= 1
    decreases high
  {
    if low < high {
      WidthStays(slots, low, high - 1);
    }
  }

  lemma OccupiedHeightFits(slots: nat, depth: nat)
    requires slots <= Pow2(depth)
    ensures OccupiedHeight(slots) <= depth
  {
    WidthBound(slots, depth);
    OccupiedHeightIsLeast(slots);
    if OccupiedHeight(slots) > depth {
      WidthStays(slots, depth, OccupiedHeight(slots) - 1);
    }
  }

  /** Cutting an operator's path at the occupied height and refilling it changes nothing. */
  lemma RefillRestoresPath(c: Scheme, leaves: seq<Bytes32>, position: nat)
    requires position < |leaves| <= Pow2(c.depth)
    ensures OccupiedHeight(|leaves|) <= c.depth
    ensures PrefixWitness(c, position, PathBytes(c, leaves, position)[..OccupiedHeight(|leaves|)])
         == Some(Witness(position, PathBytes(c, leaves, position)))
  {
    var height := OccupiedHeight(|leaves|);
    OccupiedHeightFits(|leaves|, c.depth);
    OccupiedHeightIsLeast(|leaves|);
    var path := PathBytes(c, leaves, position);
    forall level | height <= level < c.depth
      ensures path[level] == EmptyBytes(c, level)
    {
      WidthStays(|leaves|, height, level);
      ShrInsideWidth(position, |leaves|, level);
      NodeBytesPastWidth(c, leaves, level, Sibling(Shr(position, level)));
    }
    assert Refilled(c, path[..height]) == path;
  }

  /** What the operator builds, a member proves. */
  lemma PathVerifies(c: Scheme, leaves: seq<Bytes32>, position: nat)
    requires Primitives(c) && position < |leaves| <= Pow2(c.depth)
    ensures Verifies(c, leaves[position], Witness(position, PathBytes(c, leaves, position)), TreeRoot(c, leaves))
  {
    PathValues(c, leaves, position);
    InclusionComplete(c, Values(leaves), position);
  }

  /** The preimages an inclusion check hashed, with the tree's own at that index. */
  ghost function WitnessQueries(c: Scheme, leaves: seq<Bytes32>, leaf: F, w: Witness): set<seq<F>> {
    InclusionQueries(c, Values(leaves), leaf, w.index, Values(w.siblings))
  }

  /** A nonzero leaf that verifies against the tree's root sits at the witness's index. */
  lemma VerifiedLeafIsPlaced(c: Scheme, leaves: seq<Bytes32>, value: Bytes32, w: Witness, q: set<seq<F>>)
    requires Primitives(c) && WitnessType(c, w)
    requires Verifies(c, value, w, TreeRoot(c, leaves)) && Value(value) != 0
    requires WitnessQueries(c, leaves, Value(value), w) <= q && CollisionFree(c, q)
    ensures w.index < |leaves| && Value(leaves[w.index]) == Value(value)
  {
    FoldInField(c, Value(value), w);
    NodeInField(c, leaves, c.depth, 0);
    ToBytesInjective(Fold(c, Value(value), w.index, Values(w.siblings)), RootOf(c, Values(leaves)));
    InclusionSound(c, Values(leaves), Value(value), w.index, Values(w.siblings), q);
  }

  lemma FoldInField(c: Scheme, leaf: F, w: Witness)
    requires Primitives(c) && |w.siblings| == c.depth
    ensures InField(Fold(c, leaf, w.index, Values(w.siblings)))
  {
    FoldOutput(c, leaf, w.index, Values(w.siblings));
  }

  lemma {:induction false} FoldOutput(c: Scheme, current: F, index: nat, siblings: seq<F>)
    requires Primitives(c) && |siblings| > 0
    ensures InField(Fold(c, current, index, siblings))
    decreases |siblings|
  {
    var up := Poseidon(c, Pair(current, index, siblings[0]));
    if |siblings| == 1 {
      HashInField(c, Pair(current, index, siblings[0]));
      assert siblings[1..] == [];
      assert Fold(c, up, index / 2, siblings[1..]) == up;
    } else {
      FoldOutput(c, up, index / 2, siblings[1..]);
    }
  }

  // ---- The loops ----

  /** Rebuilds a witness from a truncated path, filling level by level. */
  method FromPrefix(c: Scheme, index: nat, prefix: seq<Bytes32>) returns (w: Option<Witness>)
    requires Primitives(c)
    ensures w == PrefixWitness(c, index, prefix)
  {
    if |prefix| > c.depth {
      return None;
    }
    var siblings := prefix;
    var empty := ZERO32;
    EmptyLeaf(c);
    for level := 0 to c.depth
      invariant |siblings| == if level < |prefix| then |prefix| else level
      invariant forall i :: 0 <= i < |siblings| ==> siblings[i] == if i < |prefix| then prefix[i] else EmptyBytes(c, i)
      invariant empty == EmptyBytes(c, level)
    {
      if level >= |prefix| {
        siblings := siblings + [empty];
      }
      EmptyBytesStep(c, level);
      empty := HashNode(c, empty, empty);
    }
    assert siblings == Refilled(c, prefix);
    return NewWitness(c, index, siblings);
  }

  /** The fold, level by level, the child order chosen by the index's bit at that level. */
  method FoldLevels(c: Scheme, leaf: F, w: Witness) returns (root: Bytes32)
    requires WitnessType(c, w)
    ensures root == RootFrom(c, leaf, w)
  {
    var current := leaf;
    var siblings := Values(w.siblings);
    for level := 0 to c.depth
      invariant Fold(c, current, Shr(w.index, level), siblings[level..]) == Fold(c, leaf, w.index, siblings)
    {
      var onTheRight := Shr(w.index, level) % 2 == 1;
      var left, right := current, siblings[level];
      if onTheRight {
        left, right := right, left;
      }
      assert siblings[level..][1..] == siblings[level + 1..];
      ShrStep(w.index, level);
      current := Poseidon(c, [left, right]);
    }
    return ToBytes(current);
  }

  class Tree {
    const c: Scheme
    var leaves: seq<Bytes32>

    ghost predicate Valid()
      reads this
    {
      Primitives(c) && |leaves| <= Pow2(c.depth)
    }

    constructor (c: Scheme)
      requires Primitives(c)
      ensures Valid() && this.c == c && leaves == []
    {
      this.c := c;
      leaves := [];
    }

    /** Appends a value at the next position; refuses, changing nothing, exactly when full. */
    method Append(value: Bytes32) returns (position: Option<nat>)
      requires Valid()
      modifies this
      ensures Valid()
      ensures position == if old(|leaves|) < Pow2(c.depth) then Some(old(|leaves|)) else None
      ensures leaves == if position.Some? then old(leaves) + [value] else old(leaves)
    {
      if |leaves| >= Pow2(c.depth) {
        return None;
      }
      position := Some(|leaves|);
      leaves := leaves + [value];
    }

    /** The empty-subtree value of every level. */
    method EmptyLevels() returns (levels: seq<Bytes32>)
      requires Valid()
      ensures |levels| == c.depth + 1
      ensures forall l :: 0 <= l <= c.depth ==> levels[l] == EmptyBytes(c, l)
    {
      EmptyLeaf(c);
      levels := [ZERO32];
      for level := 0 to c.depth
        invariant |levels| == level + 1
        invariant forall l :: 0 <= l <= level ==> levels[l] == EmptyBytes(c, l)
      {
        EmptyBytesStep(c, level);
        levels := levels + [HashNode(c, levels[level], levels[level])];
      }
    }

    /** One level up: each pair hashed, a missing right child standing for the empty value. */
    method Above(below: seq<Bytes32>, empty: Bytes32, level: nat) returns (up: seq<Bytes32>)
      requires Valid()
      requires empty == EmptyBytes(c, level)
      requires IsLevel(c, leaves, below, level)
      ensures IsLevel(c, leaves, up, level + 1)
    {
      up := [];
      for pair := 0 to (|below| + 1) / 2
        invariant |up| == pair
        invariant forall i :: 0 <= i < pair ==> up[i] == NodeBytes(c, leaves, level + 1, i)
      {
        var left := NodeOr(below, empty, level, 2 * pair);
        var right := NodeOr(below, empty, level, 2 * pair + 1);
        HashOfNodes(c, leaves, level, pair);
        up := up + [HashNode(c, left, right)];
      }
    }

    /** Every occupied node, level by level. */
    method OccupiedLevels() returns (levels: seq<seq<Bytes32>>)
      requires Valid()
      ensures |levels| == c.depth + 1
      ensures forall l :: 0 <= l <= c.depth ==> IsLevel(c, leaves, levels[l], l)
    {
      var empty := EmptyLevels();
      levels := [leaves];
      for level := 0 to c.depth
        invariant |levels| == level + 1
        invariant forall l :: 0 <= l <= level ==> IsLevel(c, leaves, levels[l], l)
      {
        var up := Above(levels[level], empty[level], level);
        levels := levels + [up];
      }
    }

    /** The current root. */
    method Root() returns (root: Bytes32)
      requires Valid()
      ensures root == TreeRoot(c, leaves)
    {
      var empty := EmptyLevels();
      var levels := OccupiedLevels();
      if |levels[c.depth]| > 0 {
        root := levels[c.depth][0];
      } else {
        NodeBytesPastWidth(c, leaves, c.depth, 0);
        root := empty[c.depth];
      }
    }

    /** A node of an occupied level, or the level's empty value past its end. */
    method NodeOr(nodes: seq<Bytes32>, empty: Bytes32, level: nat, index: nat) returns (node: Bytes32)
      requires Valid()
      requires empty == EmptyBytes(c, level) && IsLevel(c, leaves, nodes, level)
      ensures node == NodeBytes(c, leaves, level, index)
    {
      if index < |nodes| {
        node := nodes[index];
      } else {
        NodeBytesPastWidth(c, leaves, level, index);
        node := empty;
      }
    }

    /** The inclusion witness of a position, if a value was appended there. */
    method WitnessAt(position: nat) returns (w: Option<Witness>)
      requires Valid()
      ensures w == if position < |leaves| then Some(Witness(position, PathBytes(c, leaves, position))) else None
    {
      if position >= |leaves| {
        return None;
      }
      var empty := EmptyLevels();
      var levels := OccupiedLevels();
      var siblings: seq<Bytes32> := [];
      var index := position;
      for level := 0 to c.depth
        invariant index == Shr(position, level) && |siblings| == level
        invariant forall i :: 0 <= i < level ==> siblings[i] == NodeBytes(c, leaves, i, Sibling(Shr(position, i)))
      {
        var sibling := NodeOr(levels[level], empty[level], level, Sibling(index));
        siblings := siblings + [sibling];
        ShrStep(position, level);
        index := index / 2;
      }
      assert siblings == PathBytes(c, leaves, position);
      return NewWitness(c, position, siblings);
    }
  }
}
