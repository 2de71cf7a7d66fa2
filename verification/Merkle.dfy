/** The reference meaning of every accumulator: the node at a level and index of the tree a
    leaf sequence occupies, the fold a witness performs, and what each says of the other. */
module Merkle {
  import opened Wrappers
  import opened Bytes
  import opened Crypto

  /** The node at `level` and `index`; a position past the leaves holds the empty value. */
  function NodeAt(c: Scheme, leaves: seq<F>, level: nat, index: nat): F {
    if level == 0 then
      if index < |leaves| then leaves[index] else 0
    else
      Poseidon(c, [NodeAt(c, leaves, level - 1, 2 * index), NodeAt(c, leaves, level - 1, 2 * index + 1)])
  }

  function RootOf(c: Scheme, leaves: seq<F>): F {
    NodeAt(c, leaves, c.depth, 0)
  }

  /** The root of an empty subtree of the given height. */
  function EmptyNode(c: Scheme, level: nat): F {
    if level == 0 then 0 else Poseidon(c, [EmptyNode(c, level - 1), EmptyNode(c, level - 1)])
  }

  /** The number of nodes at `level` with an occupied leaf beneath them. */
  function Width(slots: nat, level: nat): nat {
    if level == 0 then slots else (Width(slots, level - 1) + 1) / 2
  }

  /** `index >> level`. */
  function Shr(index: nat, level: nat): nat {
    if level == 0 then index else Shr(index / 2, level - 1)
  }

  function Pow2(k: nat): (p: nat)
    ensures p > 0
  {
    if k == 0 then 1 else 2 * Pow2(k - 1)
  }

  /** The index of the other child of a node's parent: `index ^ 1`. */
  function Sibling(index: nat): nat {
    if index % 2 == 0 then index + 1 else index - 1
  }

  /** What one level of a fold hashes: the running node on the side its index names. */
  function Pair(current: F, index: nat, sibling: F): seq<F> {
    if index % 2 == 1 then [sibling, current] else [current, sibling]
  }

  /** The root a leaf, an index and the siblings along its path imply. */
  function Fold(c: Scheme, current: F, index: nat, siblings: seq<F>): F
    decreases |siblings|
  {
    if |siblings| == 0 then current
    else Fold(c, Poseidon(c, Pair(current, index, siblings[0])), index / 2, siblings[1..])
  }

  /** The siblings along the path of `index`, from `level` up, `count` of them. */
  function PathOf(c: Scheme, leaves: seq<F>, level: nat, index: nat, count: nat): (path: seq<F>)
    ensures |path| == count
    decreases count
  {
    if count == 0 then []
    else [NodeAt(c, leaves, level, Sibling(index))] + PathOf(c, leaves, level + 1, index / 2, count - 1)
  }

  // ---- Index arithmetic ----

  lemma {:induction false} ShrVanishes(index: nat, level: nat)
    ensures index < Pow2(level) <==> Shr(index, level) == 0
  {
    if level > 0 {
      ShrVanishes(index / 2, level - 1);
    }
  }

  lemma {:induction false} ShrStep(index: nat, level: nat)
    ensures Shr(index, level + 1) == Shr(index, level) / 2
  {
    if level > 0 {
      ShrStep(index / 2, level - 1);
    }
  }

  lemma {:induction false} ShrInsideWidth(index: nat, slots: nat, level: nat)
    requires index < slots
    ensures Shr(index, level) < Width(slots, level)
  {
    if level > 0 {
      ShrInsideWidth(index, slots, level - 1);
      ShrStep(index, level - 1);
    }
  }

  lemma {:induction false} WidthBound(slots: nat, level: nat)
    ensures slots <= Pow2(level) <==> Width(slots, level) <= 1
  {
    if level > 0 {
      WidthBound((slots + 1) / 2, level - 1);
      WidthShift(slots, level - 1);
    }
  }

  lemma {:induction false} WidthShift(slots: nat, level: nat)
    ensures Width(slots, level + 1) == Width((slots + 1) / 2, level)
  {
    if level > 0 {
      WidthShift(slots, level - 1);
    }
  }

  // ---- Empty subtrees ----

  /** Every node past the occupied prefix of its level is that level's empty value. */
  lemma {:induction false} NodePastWidth(c: Scheme, leaves: seq<F>, level: nat, index: nat)
    requires index >= Width(|leaves|, level)
    ensures NodeAt(c, leaves, level, index) == EmptyNode(c, level)
  {
    if level > 0 {
      NodePastWidth(c, leaves, level - 1, 2 * index);
      NodePastWidth(c, leaves, level - 1, 2 * index + 1);
    }
  }

  /** Appending a leaf changes only the nodes above its position. */
  lemma {:induction false} NodeOffPath(c: Scheme, leaves: seq<F>, more: seq<F>, level: nat, index: nat)
    requires |more| == 1 && index != Shr(|leaves|, level)
    ensures NodeAt(c, leaves + more, level, index) == NodeAt(c, leaves, level, index)
  {
    if level > 0 {
      ShrStep(|leaves|, level - 1);
      NodeOffPath(c, leaves, more, level - 1, 2 * index);
      NodeOffPath(c, leaves, more, level - 1, 2 * index + 1);
    }
  }

  // ---- Completeness ----

  lemma PairIsParent(c: Scheme, leaves: seq<F>, level: nat, index: nat)
    ensures Poseidon(c, Pair(NodeAt(c, leaves, level, index), index, NodeAt(c, leaves, level, Sibling(index))))
         == NodeAt(c, leaves, level + 1, index / 2)
  {
    var half := index / 2;
    assert index == 2 * half || index == 2 * half + 1;
  }

  lemma FoldStep(c: Scheme, current: F, index: nat, sibling: F, above: seq<F>)
    ensures Fold(c, current, index, [sibling] + above)
         == Fold(c, Poseidon(c, Pair(current, index, sibling)), index / 2, above)
  {
    assert ([sibling] + above)[1..] == above;
  }

  /** Folding a leaf with its own path reproduces the node above it. */
  lemma {:induction false} FoldOfPath(c: Scheme, leaves: seq<F>, level: nat, index: nat, count: nat)
    ensures Fold(c, NodeAt(c, leaves, level, index), index, PathOf(c, leaves, level, index, count))
         == NodeAt(c, leaves, level + count, Shr(index, count))
    decreases count
  {
    hide NodeAt, Poseidon, Sibling;
    if count > 0 {
      FoldStep(c, NodeAt(c, leaves, level, index), index, NodeAt(c, leaves, level, Sibling(index)),
               PathOf(c, leaves, level + 1, index / 2, count - 1));
      PairIsParent(c, leaves, level, index);
      FoldOfPath(c, leaves, level + 1, index / 2, count - 1);
    }
  }

  /** Every position's own path folds to the root: a member proves what the operator built. */
  lemma InclusionComplete(c: Scheme, leaves: seq<F>, index: nat)
    requires index < |leaves| <= Pow2(c.depth)
    ensures Fold(c, leaves[index], index, PathOf(c, leaves, 0, index, c.depth)) == RootOf(c, leaves)
  {
    FoldOfPath(c, leaves, 0, index, c.depth);
    ShrVanishes(index, c.depth);
  }

  // ---- Soundness ----

  /** Every preimage a fold hashes. */
  ghost function FoldQueries(c: Scheme, current: F, index: nat, siblings: seq<F>): set<seq<F>>
    decreases |siblings|
  {
    if |siblings| == 0 then {}
    else
      {Pair(current, index, siblings[0])}
      + FoldQueries(c, Poseidon(c, Pair(current, index, siblings[0])), index / 2, siblings[1..])
  }

  /** The preimages of the tree's own nodes above `index`. */
  ghost function PathQueries(c: Scheme, leaves: seq<F>, level: nat, index: nat, count: nat): set<seq<F>>
    decreases count
  {
    if count == 0 then {}
    else
      {[NodeAt(c, leaves, level, 2 * (index / 2)), NodeAt(c, leaves, level, 2 * (index / 2) + 1)]}
      + PathQueries(c, leaves, level + 1, index / 2, count - 1)
  }

  /** One level of the soundness argument: equal parents have equal children. */
  lemma ParentsAgree(c: Scheme, current: F, index: nat, sibling: F, left: F, right: F, q: set<seq<F>>)
    requires CollisionFree(c, q) && Pair(current, index, sibling) in q && [left, right] in q
    requires Poseidon(c, Pair(current, index, sibling)) == Poseidon(c, [left, right])
    ensures current == if index % 2 == 0 then left else right
  {
    var pair := Pair(current, index, sibling);
    Distinct(c, q, pair, [left, right]);
    assert pair[0] == left && pair[1] == right;
  }

  lemma {:induction false} FoldSound(
    c: Scheme, leaves: seq<F>, current: F, level: nat, index: nat, siblings: seq<F>, q: set<seq<F>>)
    requires Fold(c, current, index, siblings) == NodeAt(c, leaves, level + |siblings|, Shr(index, |siblings|))
    requires FoldQueries(c, current, index, siblings) <= q
    requires PathQueries(c, leaves, level, index, |siblings|) <= q
    requires CollisionFree(c, q)
    ensures current == NodeAt(c, leaves, level, index)
    decreases |siblings|
  {
    if |siblings| > 0 {
      var up := Poseidon(c, Pair(current, index, siblings[0]));
      var left := NodeAt(c, leaves, level, 2 * (index / 2));
      var right := NodeAt(c, leaves, level, 2 * (index / 2) + 1);
      FoldSound(c, leaves, up, level + 1, index / 2, siblings[1..], q);
      assert up == NodeAt(c, leaves, level + 1, index / 2) == Poseidon(c, [left, right]);
      ParentsAgree(c, current, index, siblings[0], left, right, q);
    }
  }

  /** The preimages that back one inclusion claim: the fold's own and the tree's at that index. */
  ghost function InclusionQueries(c: Scheme, leaves: seq<F>, leaf: F, index: nat, siblings: seq<F>): set<seq<F>> {
    FoldQueries(c, leaf, index, siblings) + PathQueries(c, leaves, 0, index, c.depth)
  }

  /** A witness that reproduces the root opens the tree at its index, and opens an occupied
      position unless the leaf is the empty value. */
  lemma InclusionSound(c: Scheme, leaves: seq<F>, leaf: F, index: nat, siblings: seq<F>, q: set<seq<F>>)
    requires |siblings| == c.depth && index < Pow2(c.depth)
    requires Fold(c, leaf, index, siblings) == RootOf(c, leaves)
    requires InclusionQueries(c, leaves, leaf, index, siblings) <= q
    requires CollisionFree(c, q)
    ensures leaf == NodeAt(c, leaves, 0, index)
    ensures leaf != 0 ==> index < |leaves| && leaves[index] == leaf
  {
    ShrVanishes(index, c.depth);
    FoldSound(c, leaves, leaf, 0, index, siblings, q);
  }
}
