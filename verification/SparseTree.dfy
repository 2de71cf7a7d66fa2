/** The proving crate's tree: field nodes kept level by level and updated along one path an
    append. It refines the same meaning the batch tree has, so the two agree everywhere. */
module SparseTree {
  import opened Wrappers
  import opened Bytes
  import opened Crypto
  import opened Merkle
  import BatchTree

  /** A path as direction bits (`true`: the running node is the right child) and siblings. */
  datatype Path = Path(siblings: seq<F>, bits: seq<bool>)

  function Ordered(current: F, bit: bool, sibling: F): seq<F> {
    if bit then [sibling, current] else [current, sibling]
  }

  /** The root a bit path computes from a leaf. */
  function PathRoot(c: Scheme, current: F, siblings: seq<F>, bits: seq<bool>): F
    requires |siblings| == |bits|
    decreases |siblings|
  {
    if |siblings| == 0 then current
    else PathRoot(c, Poseidon(c, Ordered(current, bits[0], siblings[0])), siblings[1..], bits[1..])
  }

  /** The direction bits of an index, leaf upward. */
  function Bits(index: nat, count: nat): (bits: seq<bool>)
    ensures |bits| == count
    decreases count
  {
    if count == 0 then [] else [index % 2 == 1] + Bits(index / 2, count - 1)
  }

  lemma {:induction false} BitsAt(index: nat, count: nat, i: nat)
    requires i < count
    ensures Bits(index, count)[i] == (Shr(index, i) % 2 == 1)
    decreases count
  {
    if i > 0 {
      BitsAt(index / 2, count - 1, i - 1);
    }
  }

  /** Folding by an index and by that index's bits are the same computation. */
  lemma {:induction false} BitPathIsFold(c: Scheme, current: F, index: nat, siblings: seq<F>)
    ensures PathRoot(c, current, siblings, Bits(index, |siblings|)) == Fold(c, current, index, siblings)
    decreases |siblings|
  {
    if |siblings| > 0 {
      var bits := Bits(index, |siblings|);
      assert bits[1..] == Bits(index / 2, |siblings| - 1);
      BitPathIsFold(c, Poseidon(c, Pair(current, index, siblings[0])), index / 2, siblings[1..]);
    }
  }

  /** The occupied nodes of one level. */
  ghost predicate IsLevel(c: Scheme, leaves: seq<F>, nodes: seq<F>, level: nat) {
    && |nodes| == Width(|leaves|, level)
    && forall i :: 0 <= i < |nodes| ==> nodes[i] == NodeAt(c, leaves, level, i)
  }

  /** Recomputing the one node above an appended leaf turns its level into the longer
      sequence's level. */
  lemma LevelAfterAppend(c: Scheme, leaves: seq<F>, leaf: F, nodes: seq<F>, level: nat, above: seq<F>)
    requires IsLevel(c, leaves, nodes, level)
    requires var parent := Shr(|leaves|, level);
             var value := NodeAt(c, leaves + [leaf], level, parent);
             && parent <= |nodes|
             && above == if |nodes| <= parent then nodes + [value] else nodes[parent := value]
    ensures IsLevel(c, leaves + [leaf], above, level)
  {
    WidthGrows(|leaves|, level);
    forall i | 0 <= i < |above|
      ensures above[i] == NodeAt(c, leaves + [leaf], level, i)
    {
      if i != Shr(|leaves|, level) {
        NodeOffPath(c, leaves, [leaf], level, i);
      }
    }
  }

  /** One more leaf widens a level exactly when its path leaves the occupied nodes. */
  lemma {:induction false} WidthGrows(slots: nat, level: nat)
    ensures Shr(slots, level) <= Width(slots, level) <= Shr(slots, level) + 1
    ensures Width(slots + 1, level) == Shr(slots, level) + 1
  {
    if level > 0 {
      WidthGrows(slots, level - 1);
      ShrStep(slots, level - 1);
    }
  }

  class Tree {
    const c: Scheme
    const zeros: seq<F>
    var nodes: seq<seq<F>>

    ghost predicate Valid()
      reads this
    {
      && |nodes| == c.depth + 1 && |zeros| == c.depth + 1
      && |nodes[0]| <= Pow2(c.depth)
      && (forall l :: 0 <= l <= c.depth ==> zeros[l] == EmptyNode(c, l))
      && (forall l :: 0 <= l <= c.depth ==> IsLevel(c, nodes[0], nodes[l], l))
    }

    ghost function Leaves(): seq<F>
      reads this
      requires Valid()
    {
      nodes[0]
    }

    constructor (c: Scheme)
      ensures Valid() && this.c == c && Leaves() == []
    {
      var levels: seq<F> := [0];
      for level := 0 to c.depth
        invariant |levels| == level + 1
        invariant forall l :: 0 <= l <= level ==> levels[l] == EmptyNode(c, l)
      {
        levels := levels + [Poseidon(c, [levels[level], levels[level]])];
      }
      this.c := c;
      zeros := levels;
      nodes := seq(c.depth + 1, _ => []);
      new;
      forall l | 0 <= l <= c.depth ensures IsLevel(c, [], nodes[l], l) {
        WidthOfNone(l);
      }
    }

    /** The node at a level and index, occupied or implicitly empty. */
    function Node(level: nat, index: nat): F
      reads this
      requires level < |nodes| && level < |zeros|
    {
      if index < |nodes[level]| then nodes[level][index] else zeros[level]
    }

    /** Appends a leaf, recomputing the one node above it on each level; refuses, changing
        nothing, exactly when the tree is full. */
    method Append(leaf: F) returns (position: Option<nat>)
      requires Valid()
      modifies this`nodes
      ensures Valid()
      ensures position == if |old(Leaves())| < Pow2(c.depth) then Some(|old(Leaves())|) else None
      ensures Leaves() == if position.Some? then old(Leaves()) + [leaf] else old(Leaves())
    {
      if |nodes[0]| >= Pow2(c.depth) {
        return None;
      }
      ghost var before := nodes[0];
      ghost var after := before + [leaf];
      position := Some(|nodes[0]|);
      nodes := nodes[0 := nodes[0] + [leaf]];
      var index := position.value;
      for level := 0 to c.depth
        invariant index == Shr(|before|, level) && |nodes| == c.depth + 1 && nodes[0] == after
        invariant forall l :: 0 <= l <= level ==> IsLevel(c, after, nodes[l], l)
        invariant forall l :: level < l <= c.depth ==> IsLevel(c, before, nodes[l], l)
      {
        var parent := index / 2;
        ShrStep(|before|, level);
        var above := Above(level, parent, before, leaf);
        nodes := nodes[level + 1 := above];
        index := parent;
      }
    }

    /** The level above, with the one parent whose child just changed recomputed. */
    method Above(level: nat, parent: nat, ghost before: seq<F>, ghost leaf: F) returns (above: seq<F>)
      requires level < c.depth && |nodes| == |zeros| == c.depth + 1 && zeros[level] == EmptyNode(c, level)
      requires parent == Shr(|before|, level + 1)
      requires IsLevel(c, before + [leaf], nodes[level], level)
      requires IsLevel(c, before, nodes[level + 1], level + 1)
      ensures IsLevel(c, before + [leaf], above, level + 1)
    {
      NodeIsMeant(before + [leaf], level, 2 * parent);
      NodeIsMeant(before + [leaf], level, 2 * parent + 1);
      var value := Poseidon(c, [Node(level, 2 * parent), Node(level, 2 * parent + 1)]);
      WidthGrows(|before|, level + 1);
      if |nodes[level + 1]| <= parent {
        above := nodes[level + 1] + [value];
      } else {
        above := nodes[level + 1][parent := value];
      }
      LevelAfterAppend(c, before, leaf, nodes[level + 1], level + 1, above);
    }

    lemma NodeIsMeant(leaves: seq<F>, level: nat, index: nat)
      requires level < |nodes| && level < |zeros| && zeros[level] == EmptyNode(c, level)
      requires IsLevel(c, leaves, nodes[level], level)
      ensures Node(level, index) == NodeAt(c, leaves, level, index)
    {
      if index >= |nodes[level]| {
        NodePastWidth(c, leaves, level, index);
      }
    }

    /** The current root. */
    function Root(): (root: F)
      reads this
      requires Valid()
      ensures root == RootOf(c, Leaves())
    {
      NodeIsMeant(nodes[0], c.depth, 0);
      Node(c.depth, 0)
    }

    /** The authentication path of a position, if a leaf was appended there. */
    method WitnessAt(position: nat) returns (path: Option<Path>)
      requires Valid()
      ensures path == if position < |Leaves()|
                      then Some(Path(PathOf(c, Leaves(), 0, position, c.depth), Bits(position, c.depth)))
                      else None
    {
      if position >= |nodes[0]| {
        return None;
      }
      var siblings, bits := [], [];
      var index := position;
      for level := 0 to c.depth
        invariant index == Shr(position, level) && |siblings| == |bits| == level
        invariant forall i :: 0 <= i < level ==> siblings[i] == PathOf(c, Leaves(), 0, position, c.depth)[i]
        invariant forall i :: 0 <= i < level ==> bits[i] == Bits(position, c.depth)[i]
      {
        NodeIsMeant(nodes[0], level, Sibling(index));
        BatchTree.PathOfAt(c, nodes[0], 0, position, c.depth, level);
        BitsAt(position, c.depth, level);
        ShrStep(position, level);
        siblings := siblings + [Node(level, Sibling(index))];
        bits := bits + [index % 2 == 1];
        index := index / 2;
      }
      assert siblings == PathOf(c, Leaves(), 0, position, c.depth);
      assert bits == Bits(position, c.depth);
      return Some(Path(siblings, bits));
    }
  }

  lemma {:induction false} WidthOfNone(level: nat)
    ensures Width(0, level) == 0
  {
    if level > 0 {
      WidthOfNone(level - 1);
    }
  }

  /** The two trees over the same leaves: the same root, the same path at every position (read
      as field values), and every path folds back to the root. */
  lemma TreesAgree(c: Scheme, leaves: seq<Bytes32>, position: nat)
    requires Primitives(c) && position < |leaves| <= Pow2(c.depth)
    ensures BatchTree.TreeRoot(c, leaves) == ToBytes(RootOf(c, BatchTree.Values(leaves)))
    ensures Decode(BatchTree.TreeRoot(c, leaves)) == Some(RootOf(c, BatchTree.Values(leaves)))
    ensures BatchTree.Values(BatchTree.PathBytes(c, leaves, position))
         == PathOf(c, BatchTree.Values(leaves), 0, position, c.depth)
    ensures PathRoot(c, Value(leaves[position]), PathOf(c, BatchTree.Values(leaves), 0, position, c.depth),
                     Bits(position, c.depth))
         == RootOf(c, BatchTree.Values(leaves))
  {
    var values := BatchTree.Values(leaves);
    BatchTree.PathValues(c, leaves, position);
    BatchTree.NodeInField(c, leaves, c.depth, 0);
    ValueOfToBytes(RootOf(c, values));
    InclusionComplete(c, values, position);
    BitPathIsFold(c, values[position], position, PathOf(c, values, 0, position, c.depth));
  }
}
